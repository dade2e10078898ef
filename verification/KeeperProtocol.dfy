/** Keepers: one-shot receivers of core messages, with the channel, its close
    guard and the triggering loop as interleaved steps. */
module KeeperProtocol {

  // ---------------------------------------------------------------- state

  datatype Message = Message(action: nat, body: string)

  /** What NewKeeperContext is given. */
  datatype Keeper = Keeper(id: string, action: nat, accept: string -> bool)

  /** The part all copies of one context share: the close guard, how often the
      channel was closed, what was received from it, and how often a copy was
      registered. */
  datatype Context = Context(keeper: Keeper, closed: bool, closes: nat, inbox: seq<Message>, registrations: nat)

  /** A copy in the list of the module; `ctx` names the shared part. */
  datatype Entry = Entry(ctx: nat, dirty: bool)

  /** Where the thread holding the trigger mutex is. While Sending it also holds
      the close guard of that entry's context and waits for a receiver. */
  datatype Phase =
    | Idle
    | Wash(msg: Message, i: nat, kept: seq<Entry>)
    | Scan(msg: Message, i: nat)
    | Sending(msg: Message, i: nat)

  datatype State = State(contexts: seq<Context>, entries: seq<Entry>, phase: Phase)

  datatype Event =
    | Make(keeper: Keeper)
    | Register(ctx: nat)
    | Close(ctx: nat)
    | Begin(msg: Message)
    | WashOne
    | WashDone
    | Visit
    | Deliver
    | ScanDone

  // ---------------------------------------------------------------- steps

  function IdOf(s: State, e: Entry): string {
    if e.ctx < |s.contexts| then s.contexts[e.ctx].keeper.id else ""
  }

  predicate IdTaken(s: State, id: string) {
    exists i :: 0 <= i < |s.entries| && IdOf(s, s.entries[i]) == id
  }

  /** The close guard of the context is free. */
  predicate GuardFree(s: State, ctx: nat) {
    s.phase.Sending? && s.phase.i < |s.entries| ==> s.entries[s.phase.i].ctx != ctx
  }

  predicate Fits(c: Context, msg: Message) {
    c.keeper.action == msg.action && c.keeper.accept(msg.body)
  }

  function Closed(c: Context): Context {
    if c.closed then c else c.(closed := true, closes := c.closes + 1)
  }

  /** A thread that finds a mutex taken, or is not where the step starts, does
      not move. */
  function Step(s: State, e: Event): State {
    match e
    case Make(keeper) => s.(contexts := s.contexts + [Context(keeper, false, 0, [], 0)])
    case Register(c) =>
      if !s.phase.Idle? || c >= |s.contexts| || IdTaken(s, s.contexts[c].keeper.id) then s
      else s.(entries := s.entries + [Entry(c, false)],
              contexts := s.contexts[c := s.contexts[c].(registrations := s.contexts[c].registrations + 1)])
    case Close(c) =>
      if c >= |s.contexts| || !GuardFree(s, c) then s
      else s.(contexts := s.contexts[c := Closed(s.contexts[c])])
    case Begin(msg) => if s.phase.Idle? then s.(phase := Wash(msg, 0, [])) else s
    case WashOne => if s.phase.Wash? && s.phase.i < |s.entries| then WashedOne(s) else s
    case WashDone =>
      if s.phase.Wash? && s.phase.i >= |s.entries|
      then s.(entries := s.phase.kept, phase := Scan(s.phase.msg, 0)) else s
    case Visit => if s.phase.Scan? && s.phase.i < |s.entries| then Visited(s) else s
    case Deliver => if s.phase.Sending? && s.phase.i < |s.entries| then Delivered(s) else s
    case ScanDone => if s.phase.Scan? && s.phase.i >= |s.entries| then s.(phase := Idle) else s
  }

  function WashedOne(s: State): State
    requires s.phase.Wash? && s.phase.i < |s.entries|
  {
    var Wash(msg, i, kept) := s.phase;
    var e := s.entries[i];
    var gone := e.dirty || (e.ctx < |s.contexts| && s.contexts[e.ctx].closed);
    s.(phase := Wash(msg, i + 1, if gone then kept else kept + [e]))
  }

  function Visited(s: State): State
    requires s.phase.Scan? && s.phase.i < |s.entries|
  {
    var Scan(msg, i) := s.phase;
    var c := s.entries[i].ctx;
    if c < |s.contexts| && Fits(s.contexts[c], msg) && !s.contexts[c].closed
    then s.(phase := Sending(msg, i))
    else s.(phase := Scan(msg, i + 1))
  }

  /** A receiver takes the message; the sender marks its entry and goes on. */
  function Delivered(s: State): State
    requires s.phase.Sending? && s.phase.i < |s.entries|
  {
    var Sending(msg, i) := s.phase;
    var e := s.entries[i];
    s.(contexts :=
         if e.ctx < |s.contexts|
         then s.contexts[e.ctx := s.contexts[e.ctx].(inbox := s.contexts[e.ctx].inbox + [msg])]
         else s.contexts,
       entries := s.entries[i := e.(dirty := true)],
       phase := Scan(msg, i + 1))
  }

  function Run(s: State, events: seq<Event>): State {
    if events == [] then s else var k := |events| - 1; Step(Run(s, events[..k]), events[k])
  }

  const START := State([], [], Idle)

  // ---------------------------------------------------------------- the invariant

  /** One entry per id. */
  ghost predicate OnePerId(s: State, entries: seq<Entry>) {
    && (forall i :: 0 <= i < |entries| ==> entries[i].ctx < |s.contexts|)
    && (forall i, j :: 0 <= i < j < |entries| ==> IdOf(s, entries[i]) != IdOf(s, entries[j]))
  }

  /** The context has an entry that has not received yet. */
  ghost predicate Waiting(entries: seq<Entry>, ctx: nat) {
    exists i :: 0 <= i < |entries| && entries[i] == Entry(ctx, false)
  }

  ghost predicate ContextInv(s: State, ctx: nat)
    requires ctx < |s.contexts|
  {
    var c := s.contexts[ctx];
    && c.closes == (if c.closed then 1 else 0)
    && |c.inbox| + (if Waiting(s.entries, ctx) then 1 else 0) <= c.registrations
    && (forall k :: 0 <= k < |c.inbox| ==> Fits(c, c.inbox[k]))
  }

  ghost predicate PhaseInv(s: State) {
    match s.phase
    case Idle => true
    case Wash(_, i, kept) =>
      && i <= |s.entries| && OnePerId(s, kept)
      && (forall k :: 0 <= k < |kept| ==> !kept[k].dirty && kept[k] in s.entries[..i])
    case Scan(_, i) => i <= |s.entries| && forall k :: i <= k < |s.entries| ==> !s.entries[k].dirty
    case Sending(msg, i) =>
      && i < |s.entries| && (forall k :: i <= k < |s.entries| ==> !s.entries[k].dirty)
      && s.entries[i].ctx < |s.contexts| && !s.contexts[s.entries[i].ctx].closed
      && Fits(s.contexts[s.entries[i].ctx], msg)
  }

  ghost predicate Inv(s: State) {
    && OnePerId(s, s.entries) && PhaseInv(s)
    && forall c :: 0 <= c < |s.contexts| ==> ContextInv(s, c)
  }

  /** Contexts keep what they were made with. */
  ghost predicate SameKeepers(a: State, b: State) {
    |a.contexts| <= |b.contexts| && forall c :: 0 <= c < |a.contexts| ==> b.contexts[c].keeper == a.contexts[c].keeper
  }

  lemma IdsKept(a: State, b: State, entries: seq<Entry>)
    requires SameKeepers(a, b) && OnePerId(a, entries)
    ensures OnePerId(b, entries)
  {
    assert forall i :: 0 <= i < |entries| ==> IdOf(a, entries[i]) == IdOf(b, entries[i]);
  }

  lemma MakeKeeps(s: State, keeper: Keeper)
    requires Inv(s)
    ensures Inv(Step(s, Make(keeper)))
  {
    var t := Step(s, Make(keeper));
    IdsKept(s, t, s.entries);
    if s.phase.Wash? {
      IdsKept(s, t, s.phase.kept);
    }
    assert forall c :: 0 <= c < |s.contexts| ==> t.contexts[c] == s.contexts[c] && ContextInv(s, c);
    assert !Waiting(t.entries, |s.contexts|);
  }

  lemma RegisterKeeps(s: State, ctx: nat)
    requires Inv(s)
    ensures Inv(Step(s, Register(ctx)))
  {
    var t := Step(s, Register(ctx));
    if t != s {
      IdsKept(s, t, s.entries);
      assert forall i :: 0 <= i < |s.entries| ==> t.entries[i] == s.entries[i];
      assert forall i :: 0 <= i < |s.entries| ==> IdOf(s, s.entries[i]) == IdOf(t, t.entries[i]);
      forall c | 0 <= c < |t.contexts|
        ensures ContextInv(t, c)
      {
        assert ContextInv(s, c);
        if c == ctx {
          assert !Waiting(s.entries, ctx);
        } else if Waiting(t.entries, c) {
          var i :| 0 <= i < |t.entries| && t.entries[i] == Entry(c, false);
          assert s.entries[i] == Entry(c, false);
        }
      }
    }
  }

  lemma CloseKeeps(s: State, ctx: nat)
    requires Inv(s)
    ensures Inv(Step(s, Close(ctx)))
  {
    var t := Step(s, Close(ctx));
    IdsKept(s, t, s.entries);
    if s.phase.Wash? {
      IdsKept(s, t, s.phase.kept);
    }
    forall c | 0 <= c < |t.contexts|
      ensures ContextInv(t, c)
    {
      assert ContextInv(s, c);
    }
  }

  lemma WashKeeps(s: State)
    requires Inv(s) && s.phase.Wash? && s.phase.i < |s.entries|
    ensures Inv(WashedOne(s))
  {
    var t := WashedOne(s);
    var i := s.phase.i;
    var e := s.entries[i];
    forall c | 0 <= c < |t.contexts|
      ensures ContextInv(t, c)
    {
      assert ContextInv(s, c);
    }
    forall k | 0 <= k < |s.phase.kept|
      ensures IdOf(s, s.phase.kept[k]) != IdOf(s, e)
    {
      assert s.phase.kept[k] in s.entries[..i];
      var j :| 0 <= j < i && s.entries[..i][j] == s.phase.kept[k];
      assert s.entries[j] == s.phase.kept[k];
    }
    IdsKept(s, t, s.entries);
    IdsKept(s, t, t.phase.kept);
    assert s.entries[..i + 1] == s.entries[..i] + [e];
  }

  lemma WashDoneKeeps(s: State)
    requires Inv(s) && s.phase.Wash? && s.phase.i >= |s.entries|
    ensures Inv(Step(s, WashDone))
  {
    var t := Step(s, WashDone);
    IdsKept(s, t, s.phase.kept);
    assert s.entries[..s.phase.i] == s.entries;
    forall c | 0 <= c < |t.contexts|
      ensures ContextInv(t, c)
    {
      assert ContextInv(s, c);
      if Waiting(t.entries, c) {
        var k :| 0 <= k < |s.phase.kept| && s.phase.kept[k] == Entry(c, false);
        assert Entry(c, false) in s.entries;
      }
    }
  }

  lemma VisitKeeps(s: State)
    requires Inv(s) && s.phase.Scan?
    ensures s.phase.i < |s.entries| ==> Inv(Visited(s))
    ensures Inv(s.(phase := Idle))
  {
    var idle := s.(phase := Idle);
    IdsKept(s, idle, s.entries);
    forall c | 0 <= c < |s.contexts|
      ensures ContextInv(idle, c)
    {
      assert ContextInv(s, c);
    }
    if s.phase.i < |s.entries| {
      var t := Visited(s);
      IdsKept(s, t, s.entries);
      forall c | 0 <= c < |t.contexts|
        ensures ContextInv(t, c)
      {
        assert ContextInv(s, c);
      }
    }
  }

  lemma DeliverKeeps(s: State)
    requires Inv(s) && s.phase.Sending?
    ensures Inv(Delivered(s))
  {
    var t := Delivered(s);
    var i := s.phase.i;
    var ctx := s.entries[i].ctx;
    assert SameKeepers(s, t);
    forall k | 0 <= k < |t.entries|
      ensures IdOf(t, t.entries[k]) == IdOf(s, s.entries[k])
    {
    }
    assert s.entries[i] == Entry(ctx, false);
    assert Waiting(s.entries, ctx);
    forall k | 0 <= k < |t.entries|
      ensures t.entries[k] != Entry(ctx, false)
    {
      assert k != i ==> IdOf(s, s.entries[k]) != IdOf(s, s.entries[i]);
    }
    forall c | 0 <= c < |t.contexts|
      ensures ContextInv(t, c)
    {
      assert ContextInv(s, c);
      if Waiting(t.entries, c) {
        var k :| 0 <= k < |t.entries| && t.entries[k] == Entry(c, false);
        assert s.entries[k] == Entry(c, false);
      }
    }
  }

  lemma BeginKeeps(s: State, msg: Message)
    requires Inv(s)
    ensures Inv(Step(s, Begin(msg)))
  {
    var t := Step(s, Begin(msg));
    IdsKept(s, t, s.entries);
    forall c | 0 <= c < |t.contexts|
      ensures ContextInv(t, c)
    {
      assert ContextInv(s, c);
    }
  }

  lemma StepKeeps(s: State, e: Event)
    requires Inv(s)
    ensures Inv(Step(s, e))
  {
    match e
    case Make(keeper) => MakeKeeps(s, keeper);
    case Register(c) => RegisterKeeps(s, c);
    case Close(c) => CloseKeeps(s, c);
    case Begin(msg) => BeginKeeps(s, msg);
    case WashOne =>
      if s.phase.Wash? && s.phase.i < |s.entries| {
        WashKeeps(s);
      }
    case WashDone =>
      if s.phase.Wash? && s.phase.i >= |s.entries| {
        WashDoneKeeps(s);
      }
    case Visit =>
      if s.phase.Scan? && s.phase.i < |s.entries| {
        VisitKeeps(s);
      }
    case Deliver =>
      if s.phase.Sending? && s.phase.i < |s.entries| {
        DeliverKeeps(s);
      }
    case ScanDone =>
      if s.phase.Scan? && s.phase.i >= |s.entries| {
        VisitKeeps(s);
      }
  }

  lemma {:induction false} RunKeeps(events: seq<Event>)
    ensures Inv(Run(START, events))
  {
    if events != [] {
      RunKeeps(events[..|events| - 1]);
      StepKeeps(Run(START, events[..|events| - 1]), events[|events| - 1]);
    }
  }

  // ---------------------------------------------------------------- the theorems

  /** Whenever a message is handed over, the channel it goes into is open, and the
      context asked for exactly this kind of message. */
  lemma SendsOnOpenChannel(events: seq<Event>)
    requires Run(START, events).phase.Sending?
    ensures var s := Run(START, events);
            && s.phase.i < |s.entries| && s.entries[s.phase.i].ctx < |s.contexts|
            && var c := s.contexts[s.entries[s.phase.i].ctx];
               c.closes == 0 && c.keeper.action == s.phase.msg.action && c.keeper.accept(s.phase.msg.body)
  {
    RunKeeps(events);
    var s := Run(START, events);
    assert ContextInv(s, s.entries[s.phase.i].ctx);
  }

  /** No channel is closed twice, and no context receives more messages than
      it was registered times, each with its action and past its validator. */
  lemma OneMessagePerRegistration(events: seq<Event>, ctx: nat)
    requires ctx < |Run(START, events).contexts|
    ensures var c := Run(START, events).contexts[ctx];
            && c.closes <= 1 && (c.closes == 1 <==> c.closed)
            && |c.inbox| <= c.registrations
            && forall k :: 0 <= k < |c.inbox| ==>
                 c.keeper.action == c.inbox[k].action && c.keeper.accept(c.inbox[k].body)
  {
    RunKeeps(events);
    assert ContextInv(Run(START, events), ctx);
  }

  /** A closed context stays closed and receives nothing more. */
  lemma {:induction false} ClosedReceivesNothing(s: State, events: seq<Event>, ctx: nat)
    requires Inv(s) && ctx < |s.contexts| && s.contexts[ctx].closed
    ensures var t := Run(s, events);
            && Inv(t) && ctx < |t.contexts| && t.contexts[ctx].closed
            && t.contexts[ctx].inbox == s.contexts[ctx].inbox && t.contexts[ctx].closes == 1
  {
    if events == [] {
      assert ContextInv(s, ctx);
    } else {
      hide Step, Inv;
      var k := |events| - 1;
      ClosedReceivesNothing(s, events[..k], ctx);
      StepKeeps(Run(s, events[..k]), events[k]);
    }
  }

  /** A registration lists the context, waiting, exactly if no entry has its id; a new
      context is open and has received nothing; a close whose guard is free closes the
      channel, once. */
  lemma ControlMeans(s: State, k: Keeper, ctx: nat)
    requires Inv(s) && ctx < |s.contexts|
    ensures Step(s, Make(k)) == s.(contexts := s.contexts + [Context(k, false, 0, [], 0)])
    ensures s.phase.Idle? ==>
      var t := Step(s, Register(ctx));
      var c := s.contexts[ctx];
      if exists i :: 0 <= i < |s.entries| && s.contexts[s.entries[i].ctx].keeper.id == c.keeper.id then t == s
      else t == s.(entries := s.entries + [Entry(ctx, false)],
                   contexts := s.contexts[ctx := c.(registrations := c.registrations + 1)])
    ensures !(s.phase.Sending? && s.entries[s.phase.i].ctx == ctx) ==>
      var t := Step(s, Close(ctx));
      && t == s.(contexts := s.contexts[ctx := t.contexts[ctx]])
      && t.contexts[ctx] == s.contexts[ctx].(closed := true, closes := 1)
  {
    assert ContextInv(s, ctx);
    assert forall i :: 0 <= i < |s.entries| ==> IdOf(s, s.entries[i]) == s.contexts[s.entries[i].ctx].keeper.id;
  }

  /** While no receiver comes the sender stays where it is: it keeps the trigger
      mutex and the close guard, so no registration, no other trigger and no
      close of that context goes through. */
  lemma {:induction false} SendBlocks(s: State, events: seq<Event>)
    requires Inv(s) && s.phase.Sending?
    requires forall i :: 0 <= i < |events| ==> events[i] != Deliver
    ensures var t := Run(s, events);
            && t.phase == s.phase && t.entries == s.entries
            && s.entries[s.phase.i].ctx < |t.contexts|
            && t.contexts[s.entries[s.phase.i].ctx] == s.contexts[s.entries[s.phase.i].ctx]
  {
    if events != [] {
      var k := |events| - 1;
      SendBlocks(s, events[..k]);
      assert events[k] in events;
    }
  }

  // ---------------------------------------------------------------- a trigger left alone

  /** The next step of the triggering thread, with a receiver ready. */
  function Own(s: State): Event {
    match s.phase
    case Idle => ScanDone
    case Wash(_, i, _) => if i < |s.entries| then WashOne else WashDone
    case Scan(_, i) => if i < |s.entries| then Visit else ScanDone
    case Sending(_, _) => Deliver
  }

  function Left(s: State): nat {
    match s.phase
    case Idle => 0
    case Wash(_, i, kept) => 2 + 2 * |kept| + (if i < |s.entries| then 3 * (|s.entries| - i) else 0)
    case Scan(_, i) => 1 + (if i < |s.entries| then 2 * (|s.entries| - i) else 0)
    case Sending(_, i) => if i < |s.entries| then 2 * (|s.entries| - i) else 0
  }

  function Finish(s: State): State
    decreases Left(s)
  {
    if s.phase.Idle? || (s.phase.Sending? && s.phase.i >= |s.entries|) then s else Finish(Step(s, Own(s)))
  }

  function Triggered(s: State, msg: Message): State {
    Finish(Step(s, Begin(msg)))
  }

  /** What a trigger does to one context: the message is received exactly when it
      is open, still waiting and fits; it goes on waiting when it does not fit. */
  ghost predicate Served(before: State, after: State, msg: Message, c: nat)
    requires c < |before.contexts|
  {
    && c < |after.contexts|
    && after.contexts[c] == (if Chosen(before, c) then Received(before.contexts[c], msg) else before.contexts[c])
    && (Waiting(after.entries, c) <==> Chosen(before, c) && !Fits(before.contexts[c], msg))
  }

  predicate Listed(entries: seq<Entry>, ctx: nat) {
    exists i :: 0 <= i < |entries| && entries[i].ctx == ctx
  }

  ghost predicate Chosen(before: State, c: nat)
    requires c < |before.contexts|
  {
    Waiting(before.entries, c) && !before.contexts[c].closed
  }

  function Received(c: Context, msg: Message): Context {
    if Fits(c, msg) then c.(inbox := c.inbox + [msg]) else c
  }

  /** How far a trigger that started in `before` has come. */
  ghost predicate Toward(before: State, s: State, msg: Message) {
    && |s.contexts| == |before.contexts|
    && match s.phase
       case Idle => forall c :: 0 <= c < |s.contexts| ==> Served(before, s, msg, c)
       case Wash(m, i, kept) =>
         && m == msg && i <= |s.entries| && s.contexts == before.contexts && s.entries == before.entries
         && (forall c :: 0 <= c < |s.contexts| ==>
              (Listed(kept, c) <==> Waiting(s.entries[..i], c) && !s.contexts[c].closed))
       case Scan(m, i) => m == msg && i <= |s.entries| && Progress(before, s, msg, i)
       case Sending(m, i) =>
         && m == msg && i < |s.entries| && Progress(before, s, msg, i)
         && Fits(before.contexts[s.entries[i].ctx], msg)
  }

  ghost predicate Progress(before: State, s: State, msg: Message, i: nat)
    requires |s.contexts| == |before.contexts| && i <= |s.entries|
  {
    && (forall c :: 0 <= c < |s.contexts| ==> (Listed(s.entries, c) <==> Chosen(before, c)))
    && (forall c :: 0 <= c < |s.contexts| ==>
         s.contexts[c] == if Listed(s.entries[..i], c) then Received(before.contexts[c], msg) else before.contexts[c])
    && (forall k :: 0 <= k < |s.entries| ==> s.entries[k].ctx < |s.contexts|)
    && (forall k :: 0 <= k < i ==> s.entries[k].dirty == Fits(before.contexts[s.entries[k].ctx], msg))
    && (forall j, k :: 0 <= j < k < |s.entries| ==> s.entries[j].ctx != s.entries[k].ctx)
  }

  lemma ListedMore(entries: seq<Entry>, i: nat, c: nat)
    requires i < |entries|
    ensures Listed(entries[..i + 1], c) <==> Listed(entries[..i], c) || entries[i].ctx == c
    ensures Waiting(entries[..i + 1], c) <==> Waiting(entries[..i], c) || entries[i] == Entry(c, false)
  {
    var (short, long) := (entries[..i], entries[..i + 1]);
    assert long[i] == entries[i] && forall k :: 0 <= k < i ==> long[k] == short[k];
  }

  lemma ListedPush(entries: seq<Entry>, e: Entry, c: nat)
    ensures Listed(entries + [e], c) <==> Listed(entries, c) || e.ctx == c
  {
    var long := entries + [e];
    assert long[|entries|] == e && forall k :: 0 <= k < |entries| ==> long[k] == entries[k];
  }

  lemma WashListed(s: State, c: nat)
    requires s.phase.Wash? && s.phase.i < |s.entries| && c < |s.contexts|
    requires s.entries[s.phase.i].ctx < |s.contexts|
    requires Listed(s.phase.kept, c) <==> Waiting(s.entries[..s.phase.i], c) && !s.contexts[c].closed
    ensures Listed(WashedOne(s).phase.kept, c) <==> Waiting(s.entries[..s.phase.i + 1], c) && !s.contexts[c].closed
  {
    hide Listed, Waiting;
    ListedMore(s.entries, s.phase.i, c);
    ListedPush(s.phase.kept, s.entries[s.phase.i], c);
  }

  lemma WashGoesOn(before: State, s: State, msg: Message)
    requires s.phase.Wash? && s.phase.i < |s.entries| && s.entries[s.phase.i].ctx < |s.contexts|
    requires Toward(before, s, msg)
    ensures Toward(before, WashedOne(s), msg)
  {
    hide Listed, Waiting;
    forall c: nat | c < |s.contexts|
      ensures Listed(WashedOne(s).phase.kept, c) <==> Waiting(s.entries[..s.phase.i + 1], c) && !s.contexts[c].closed
    {
      WashListed(s, c);
    }
  }

  lemma WashEnds(before: State, s: State, msg: Message)
    requires Inv(s) && s.phase.Wash? && s.phase.i == |s.entries| && Toward(before, s, msg)
    ensures Toward(before, Step(s, WashDone), msg)
  {
    var t := Step(s, WashDone);
    assert s.entries[..s.phase.i] == s.entries;
    assert forall c :: !Listed(t.entries[..0], c);
    forall j, k | 0 <= j < k < |t.entries|
      ensures t.entries[j].ctx != t.entries[k].ctx
    {
      assert IdOf(s, t.entries[j]) != IdOf(s, t.entries[k]);
    }
  }

  lemma VisitGoesOn(before: State, s: State, msg: Message)
    requires Inv(s) && s.phase.Scan? && s.phase.i < |s.entries| && Toward(before, s, msg)
    ensures Toward(before, Visited(s), msg)
  {
    var i := s.phase.i;
    var ctx := s.entries[i].ctx;
    assert !Listed(s.entries[..i], ctx);
    assert Chosen(before, ctx) by {
      assert Listed(s.entries, ctx);
    }
    assert s.contexts[ctx] == before.contexts[ctx];
    forall c | 0 <= c < |s.contexts|
      ensures Listed(s.entries[..i + 1], c) <==> Listed(s.entries[..i], c) || c == ctx
    {
      ListedMore(s.entries, i, c);
    }
  }

  lemma DeliverGoesOn(before: State, s: State, msg: Message)
    requires Inv(s) && s.phase.Sending? && Toward(before, s, msg)
    ensures Toward(before, Delivered(s), msg)
  {
    var i := s.phase.i;
    var ctx := s.entries[i].ctx;
    DeliverServes(before, s, msg);
    forall c: nat | c < |s.contexts|
      ensures Listed(Delivered(s).entries[..i + 1], c) <==> Listed(s.entries[..i], c) || c == ctx
      ensures Listed(Delivered(s).entries, c) <==> Listed(s.entries, c)
    {
      DeliverListed(s, c);
    }
    hide Listed, Chosen, Fits, Received;
  }

  /** The context that is sent to has been left alone so far, and receives. */
  lemma DeliverServes(before: State, s: State, msg: Message)
    requires Inv(s) && s.phase.Sending? && Toward(before, s, msg)
    ensures var ctx := s.entries[s.phase.i].ctx;
            && ctx < |before.contexts| && !Listed(s.entries[..s.phase.i], ctx)
            && Delivered(s).contexts[ctx] == Received(before.contexts[ctx], msg)
  {
    var (i, ctx) := (s.phase.i, s.entries[s.phase.i].ctx);
    hide Chosen, Waiting;
    assert !Listed(s.entries[..i], ctx);
  }

  lemma DeliverListed(s: State, c: nat)
    requires s.phase.Sending? && s.phase.i < |s.entries|
    ensures var (i, t) := (s.phase.i, Delivered(s));
            && (Listed(t.entries[..i + 1], c) <==> Listed(s.entries[..i], c) || c == s.entries[i].ctx)
            && (Listed(t.entries, c) <==> Listed(s.entries, c))
  {
    var (i, t) := (s.phase.i, Delivered(s));
    assert forall k :: 0 <= k < |s.entries| ==> t.entries[k].ctx == s.entries[k].ctx;
    ListedMore(s.entries, i, c);
    SameContexts(s.entries, t.entries, c);
    SameContexts(s.entries[..i + 1], t.entries[..i + 1], c);
  }

  lemma SameContexts(a: seq<Entry>, b: seq<Entry>, c: nat)
    requires |a| == |b| && forall k :: 0 <= k < |a| ==> a[k].ctx == b[k].ctx
    ensures Listed(a, c) <==> Listed(b, c)
  {
    if Listed(a, c) {
      var k :| 0 <= k < |a| && a[k].ctx == c;
      assert b[k].ctx == c;
    }
    if Listed(b, c) {
      var k :| 0 <= k < |b| && b[k].ctx == c;
      assert a[k].ctx == c;
    }
  }

  lemma ScanEnds(before: State, s: State, msg: Message)
    requires Inv(s) && s.phase.Scan? && s.phase.i == |s.entries| && Toward(before, s, msg)
    ensures Toward(before, Step(s, ScanDone), msg)
  {
    assert s.entries[..s.phase.i] == s.entries;
    forall c: nat | c < |s.contexts|
      ensures Waiting(s.entries, c) <==> Chosen(before, c) && !Fits(before.contexts[c], msg)
    {
      WaitsOn(s.entries, before, msg, c);
    }
  }

  /** Once every listed entry is marked by whether it fits, those that wait are those
      that do not. */
  lemma WaitsOn(entries: seq<Entry>, before: State, msg: Message, c: nat)
    requires c < |before.contexts| && (Listed(entries, c) <==> Chosen(before, c))
    requires forall k :: 0 <= k < |entries| ==>
      entries[k].ctx < |before.contexts| && entries[k].dirty == Fits(before.contexts[entries[k].ctx], msg)
    ensures Waiting(entries, c) <==> Chosen(before, c) && !Fits(before.contexts[c], msg)
  {
    hide Chosen, Fits;
    if Listed(entries, c) {
      var k :| 0 <= k < |entries| && entries[k].ctx == c;
      assert !entries[k].dirty ==> entries[k] == Entry(c, false);
    }
  }

  lemma OwnGoesOn(before: State, s: State, msg: Message)
    requires Inv(s) && !s.phase.Idle? && Toward(before, s, msg)
    ensures Toward(before, Step(s, Own(s)), msg)
  {
    match s.phase
    case Wash(_, i, _) =>
      if i < |s.entries| {
        WashGoesOn(before, s, msg);
      } else {
        WashEnds(before, s, msg);
      }
    case Scan(_, i) =>
      if i < |s.entries| {
        VisitGoesOn(before, s, msg);
      } else {
        ScanEnds(before, s, msg);
      }
    case Sending(_, _) => DeliverGoesOn(before, s, msg);
  }

  lemma {:induction false} FinishServes(before: State, s: State, msg: Message)
    requires Inv(s) && Toward(before, s, msg)
    ensures Finish(s).phase.Idle? && Inv(Finish(s)) && Toward(before, Finish(s), msg)
    decreases Left(s)
  {
    if !s.phase.Idle? {
      hide Inv, Toward;
      StepKeeps(s, Own(s));
      OwnGoesOn(before, s, msg);
      SendingInRange(s);
      FinishServes(before, Step(s, Own(s)), msg);
    }
  }

  lemma SendingInRange(s: State)
    requires Inv(s)
    ensures s.phase.Sending? ==> s.phase.i < |s.entries|
  {
  }

  /** A trigger left alone ends, and serves exactly the open waiting contexts that
      asked for the message. */
  lemma TriggerServes(s: State, msg: Message)
    requires Inv(s) && s.phase.Idle?
    ensures var t := Triggered(s, msg);
            && t.phase.Idle? && Inv(t) && |t.contexts| == |s.contexts|
            && forall c: nat :: c < |s.contexts| ==>
                 var k := s.contexts[c];
                 var open := Entry(c, false) in s.entries && !k.closed;
                 var fits := k.keeper.action == msg.action && k.keeper.accept(msg.body);
                 && t.contexts[c] == (if open && fits then k.(inbox := k.inbox + [msg]) else k)
                 && (Entry(c, false) in t.entries <==> open && !fits)
  {
    var begun := Step(s, Begin(msg));
    BeginKeeps(s, msg);
    assert s.entries[..0] == [];
    FinishServes(s, begun, msg);
    var t := Triggered(s, msg);
    forall c: nat | c < |s.contexts|
      ensures Served(s, t, msg, c)
      ensures Waiting(s.entries, c) <==> Entry(c, false) in s.entries
      ensures Waiting(t.entries, c) <==> Entry(c, false) in t.entries
    {
    }
    hide Waiting, Triggered;
  }
}
