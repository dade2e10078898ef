/** The module's keeper list and the contexts as objects whose methods change
    them. */
module KeeperObject {
  import opened Wrappers
  import opened KeeperProtocol

  /** Contexts are numbered; a number stands for the pointer all copies share. */
  class ModuleKeeper {
    var contexts: seq<Context>
    var keeper: seq<Entry>

    ghost function Abs(): State
      reads this
    {
      State(contexts, keeper, Idle)
    }

    constructor ()
      ensures Abs() == START
    {
      contexts := [];
      keeper := [];
    }

    method NewKeeperContext(k: Keeper) returns (ctx: nat)
      modifies this
      ensures ctx == old(|contexts|) && Abs() == Step(old(Abs()), Make(k))
    {
      ctx := |contexts|;
      contexts := contexts + [Context(k, false, 0, [], 0)];
    }

    method GetKeeperContext(id: string) returns (r: Option<nat>)
      ensures r.Some? <==> IdTaken(Abs(), id)
      ensures r.Some? ==> r.value < |keeper| && IdOf(Abs(), keeper[r.value]) == id
    {
      var i := 0;
      while i < |keeper|
        invariant 0 <= i <= |keeper|
        invariant forall j :: 0 <= j < i ==> IdOf(Abs(), keeper[j]) != id
      {
        if (if keeper[i].ctx < |contexts| then contexts[keeper[i].ctx].keeper.id else "") == id {
          return Some(i);
        }
        i := i + 1;
      }
      return None;
    }

    method RegisterKeeperChannel(ctx: nat) returns (ok: bool)
      requires ctx < |contexts|
      modifies this
      ensures ok <==> !IdTaken(old(Abs()), old(contexts[ctx].keeper.id))
      ensures Abs() == Step(old(Abs()), Register(ctx))
    {
      var taken := GetKeeperContext(contexts[ctx].keeper.id);
      if taken.Some? {
        return false;
      }
      keeper := keeper + [Entry(ctx, false)];
      contexts := contexts[ctx := contexts[ctx].(registrations := contexts[ctx].registrations + 1)];
      return true;
    }

    method CloseContext(ctx: nat)
      requires ctx < |contexts|
      modifies this
      ensures Abs() == Step(old(Abs()), Close(ctx))
    {
      if !contexts[ctx].closed {
        contexts := contexts[ctx := contexts[ctx].(closed := true, closes := contexts[ctx].closes + 1)];
      }
    }

    /** Trigger with every receiver ready and no other thread in between. */
    method Trigger(msg: Message)
      requires Inv(Abs())
      modifies this
      ensures Abs() == Triggered(old(Abs()), msg)
    {
      hide Inv, Finish;
      ghost var goal := Triggered(Abs(), msg);
      BeginKeeps(Abs(), msg);
      var washing: seq<Entry> := [];
      var i := 0;
      while i < |keeper|
        invariant 0 <= i <= |keeper|
        invariant Inv(State(contexts, keeper, Wash(msg, i, washing)))
        invariant Finish(State(contexts, keeper, Wash(msg, i, washing))) == goal
      {
        TurnWash(State(contexts, keeper, Wash(msg, i, washing)));
        var item := keeper[i];
        if !item.dirty && !contexts[item.ctx].closed {
          washing := washing + [item];
        }
        i := i + 1;
      }
      TurnWashDone(State(contexts, keeper, Wash(msg, i, washing)));
      keeper := washing;
      var key := 0;
      while key < |keeper|
        invariant 0 <= key <= |keeper|
        invariant Inv(State(contexts, keeper, Scan(msg, key)))
        invariant Finish(State(contexts, keeper, Scan(msg, key))) == goal
      {
        TurnVisit(State(contexts, keeper, Scan(msg, key)));
        var item := keeper[key];
        var c := contexts[item.ctx];
        if c.keeper.action == msg.action && c.keeper.accept(msg.body) {
          if !c.closed {
            contexts := contexts[item.ctx := c.(inbox := c.inbox + [msg])];
            keeper := keeper[key := item.(dirty := true)];
          }
        }
        key := key + 1;
      }
      TurnScanDone(State(contexts, keeper, Scan(msg, key)));
    }
  }

  // ---------------------------------------------------------------- the turns of the loops

  lemma TurnWash(s: State)
    requires Inv(s) && s.phase.Wash? && s.phase.i < |s.entries|
    ensures Inv(WashedOne(s)) && Finish(WashedOne(s)) == Finish(s)
    ensures s.entries[s.phase.i].ctx < |s.contexts|
  {
    WashKeeps(s);
    assert Step(s, Own(s)) == WashedOne(s);
  }

  lemma TurnWashDone(s: State)
    requires Inv(s) && s.phase.Wash? && s.phase.i == |s.entries|
    ensures Inv(Step(s, WashDone)) && Finish(Step(s, WashDone)) == Finish(s)
  {
    WashDoneKeeps(s);
    assert Step(s, Own(s)) == Step(s, WashDone);
  }

  /** One entry visited and, if it is to receive, served. */
  function Turned(s: State): State
    requires s.phase.Scan? && s.phase.i < |s.entries|
  {
    if Visited(s).phase.Sending? then Delivered(Visited(s)) else Visited(s)
  }

  lemma TurnVisit(s: State)
    requires Inv(s) && s.phase.Scan? && s.phase.i < |s.entries|
    ensures Inv(Turned(s)) && Finish(Turned(s)) == Finish(s)
    ensures s.entries[s.phase.i].ctx < |s.contexts|
  {
    VisitKeeps(s);
    EntryInRange(s);
    assert Step(s, Own(s)) == Visited(s);
    var v := Visited(s);
    if v.phase.Sending? {
      hide Inv, Visited, Delivered;
      DeliverKeeps(v);
      SendingInRange(v);
      assert Step(v, Own(v)) == Delivered(v);
    }
  }

  lemma EntryInRange(s: State)
    requires Inv(s) && s.phase.Scan? && s.phase.i < |s.entries|
    ensures s.entries[s.phase.i].ctx < |s.contexts|
  {
  }

  lemma TurnScanDone(s: State)
    requires Inv(s) && s.phase.Scan? && s.phase.i == |s.entries|
    ensures Finish(s) == s.(phase := Idle)
  {
    assert Step(s, Own(s)) == s.(phase := Idle);
  }
}
