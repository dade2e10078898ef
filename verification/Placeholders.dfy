/** Expansion of "${key}" placeholders, as config templates and deployments do
    it. */
module Placeholders {
  import opened Wrappers

  datatype Token = Lit(c: char) | Hole(key: string)

  // ---------------------------------------------------------------- tokens

  predicate KeyChar(c: char) {
    'A' <= c <= 'Z' || 'a' <= c <= 'z' || '0' <= c <= '9' || c == '_'
  }

  /** The length of the longest key at the front. */
  function KeyLength(s: string): (n: nat)
    ensures n <= |s| && (forall i :: 0 <= i < n ==> KeyChar(s[i])) && (n < |s| ==> !KeyChar(s[n]))
  {
    if s != "" && KeyChar(s[0]) then 1 + KeyLength(s[1..]) else 0
  }

  /** The placeholder pattern matches at the front of the text. */
  predicate HoleAhead(s: string) {
    && |s| >= 2 && s[0] == '$' && s[1] == '{'
    && var n := KeyLength(s[2..]); n > 0 && n + 2 < |s| && s[n + 2] == '}'
  }

  /** A placeholder is "${", one or more letters, digits and underscores, and "}". */
  lemma HoleMeans(s: string)
    ensures HoleAhead(s) <==> exists key :: IsKey(key) && "${" + key + "}" <= s
    ensures HoleAhead(s) ==> IsKey(HoleKey(s)) && "${" + HoleKey(s) + "}" <= s
  {
    if HoleAhead(s) {
      var key := HoleKey(s);
      assert s[..|key| + 3] == "${" + key + "}" && IsKey(key);
    }
    if key :| IsKey(key) && "${" + key + "}" <= s {
      var (n, hole) := (|key|, "${" + key + "}");
      assert s[..n + 3] == hole && hole[0] == '$' && hole[1] == '{' && hole[n + 2] == '}';
      assert s[2..][..n] == key by {
        assert hole[2..n + 2] == key;
      }
      KeyEnds(s[2..], n);
    }
  }

  predicate IsKey(key: string) {
    key != "" && forall i :: 0 <= i < |key| ==>
      'a' <= key[i] <= 'z' || 'A' <= key[i] <= 'Z' || '0' <= key[i] <= '9' || key[i] == '_'
  }

  lemma KeyEnds(s: string, n: nat)
    requires n < |s| && s[n] == '}' && IsKey(s[..n])
    ensures KeyLength(s) == n
  {
    assert forall i :: 0 <= i < n ==> KeyChar(s[..n][i]);
    var m := KeyLength(s);
    assert m <= n;
    assert m >= n;
  }

  function HoleKey(s: string): (key: string)
    requires HoleAhead(s)
    ensures key != "" && |key| + 3 <= |s| && s[..|key| + 3] == "${" + key + "}"
  {
    s[2..2 + KeyLength(s[2..])]
  }

  /** The leftmost matches, and the characters between them. */
  function Tokens(s: string): seq<Token>
    decreases |s|
  {
    if s == "" then []
    else if HoleAhead(s) then [Hole(HoleKey(s))] + Tokens(s[|HoleKey(s)| + 3..])
    else [Lit(s[0])] + Tokens(s[1..])
  }

  function PrintOne(t: Token): string {
    match t
    case Lit(c) => [c]
    case Hole(key) => "${" + key + "}"
  }

  function Print(ts: seq<Token>): string {
    if ts == [] then "" else PrintOne(ts[0]) + Print(ts[1..])
  }

  /** Nothing is lost in the split. */
  lemma {:induction false} PrintTokens(s: string)
    ensures Print(Tokens(s)) == s
    decreases |s|
  {
    if s != "" {
      if HoleAhead(s) {
        PrintTokens(s[|HoleKey(s)| + 3..]);
      } else {
        PrintTokens(s[1..]);
      }
    }
  }

  predicate HasHole(ts: seq<Token>) {
    exists i :: 0 <= i < |ts| && ts[i].Hole?
  }

  // ---------------------------------------------------------------- expansion

  /** Every placeholder with a value is replaced by it, once. */
  function FillOne(t: Token, params: map<string, string>): string {
    match t
    case Lit(c) => [c]
    case Hole(key) => if key in params then params[key] else "${" + key + "}"
  }

  function Fill(ts: seq<Token>, params: map<string, string>): string {
    if ts == [] then "" else FillOne(ts[0], params) + Fill(ts[1..], params)
  }

  function FirstMissing(ts: seq<Token>, params: map<string, string>): Option<string> {
    if ts == [] then None
    else if ts[0].Hole? && ts[0].key !in params then Some(ts[0].key)
    else FirstMissing(ts[1..], params)
  }

  datatype Problem = MissingParameter(key: string) | InvalidJson

  /** Expand of the config templates; `valid` is the JSON check. */
  function Expand(body: string, params: map<string, string>, valid: string -> bool): Result<string, Problem> {
    var ts := Tokens(body);
    if !HasHole(ts) then Ok(body) else
    match FirstMissing(ts, params)
    case Some(key) => Err(MissingParameter(key))
    case None => if valid(Fill(ts, params)) then Ok(Fill(ts, params)) else Err(InvalidJson)
  }

  /** expandPlaceholders of the deployments. */
  function ExpandEntry(s: string, params: map<string, string>): Result<string, Problem> {
    var ts := Tokens(s);
    if !HasHole(ts) then Ok(s) else
    match FirstMissing(ts, params)
    case Some(key) => Err(MissingParameter(key))
    case None => Ok(Fill(ts, params))
  }

  /** ReplaceAllStringFunc with the closure both callers pass: the text so far
      and the first key that had no value. */
  method ReplaceHoles(src: string, params: map<string, string>) returns (out: string, missing: string)
    ensures out == Fill(Tokens(src), params)
    ensures missing == match FirstMissing(Tokens(src), params) case None => "" case Some(key) => key
    ensures FirstMissing(Tokens(src), params).None? <==> missing == ""
  {
    hide Fill, FirstMissing, HoleAhead, Tokens;
    out, missing := "", "";
    var rest := src;
    Started(src, params);
    ghost var done: seq<Token> := [];
    while rest != ""
      invariant Tokens(src) == done + Tokens(rest)
      invariant out == Fill(done, params)
      invariant FirstMissing(done, params) == if missing == "" then None else Some(missing)
      decreases |rest|
    {
      var t, next;
      if HoleAhead(rest) {
        var key := HoleKey(rest);
        t, next := Hole(key), rest[|key| + 3..];
        if key in params {
          out := out + params[key];
        } else {
          if missing == "" {
            missing := key;
          }
          out := out + "${" + key + "}";
        }
      } else {
        t, next := Lit(rest[0]), rest[1..];
        out := out + [rest[0]];
      }
      OneMore(done, t, params);
      TokensStep(rest);
      Associates(done, [t], Tokens(next));
      done := done + [t];
      rest := next;
    }
    Finished(done);
  }

  lemma Started(src: string, params: map<string, string>)
    ensures Tokens(src) == [] + Tokens(src) && Fill([], params) == "" && FirstMissing([], params) == None
  {
  }

  lemma Finished(done: seq<Token>)
    ensures done + Tokens("") == done
  {
  }

  // ---------------------------------------------------------------- what expansion means

  /** Filling is a homomorphism on tokens: one pass, nothing expanded again. */
  lemma {:induction false} FillAppend(a: seq<Token>, b: seq<Token>, params: map<string, string>)
    ensures Fill(a + b, params) == Fill(a, params) + Fill(b, params)
  {
    if a == [] {
      assert a + b == b;
    } else {
      hide FillOne;
      var ab := a + b;
      assert ab[0] == a[0] && ab[1..] == a[1..] + b;
      FillAppend(a[1..], b, params);
      var (x, y, z) := (FillOne(a[0], params), Fill(a[1..], params), Fill(b, params));
      assert Fill(ab, params) == x + Fill(ab[1..], params);
      hide Fill;
      Associates(x, y, z);
    }
  }

  lemma Associates<T>(x: seq<T>, y: seq<T>, z: seq<T>)
    ensures (x + y) + z == x + (y + z)
  {
  }

  lemma {:induction false} MissingAppend(a: seq<Token>, b: seq<Token>, params: map<string, string>)
    ensures FirstMissing(a + b, params)
         == if FirstMissing(a, params).Some? then FirstMissing(a, params) else FirstMissing(b, params)
  {
    if a == [] {
      assert a + b == b;
    } else {
      MissingAppend(a[1..], b, params);
      assert (a + b)[1..] == a[1..] + b;
    }
  }

  lemma OneMore(done: seq<Token>, t: Token, params: map<string, string>)
    ensures Fill(done + [t], params) == Fill(done, params) + FillOne(t, params)
    ensures FirstMissing(done + [t], params)
         == if FirstMissing(done, params).Some? then FirstMissing(done, params)
            else if t.Hole? && t.key !in params then Some(t.key) else None
  {
    FillAppend(done, [t], params);
    MissingAppend(done, [t], params);
    assert [t][1..] == [];
  }

  /** The reported key is that of the leftmost placeholder without a value. */
  lemma {:induction false} MissingIsLeftmost(ts: seq<Token>, params: map<string, string>) returns (i: nat)
    ensures FirstMissing(ts, params).None? <==> forall j :: 0 <= j < |ts| && ts[j].Hole? ==> ts[j].key in params
    ensures FirstMissing(ts, params).Some? ==> i < |ts| && ts[i] == Hole(FirstMissing(ts, params).value)
    ensures FirstMissing(ts, params).Some? ==> ts[i].key !in params
    ensures FirstMissing(ts, params).Some? ==> forall j :: 0 <= j < i && ts[j].Hole? ==> ts[j].key in params
  {
    i := 0;
    if ts != [] && !(ts[0].Hole? && ts[0].key !in params) {
      var k := MissingIsLeftmost(ts[1..], params);
      i := k + 1;
      assert forall j :: 0 < j < |ts| ==> ts[j] == ts[1..][j - 1];
    }
  }

  /** The two expansions agree but for the JSON check, which is made on expanded
      texts only. */
  lemma ExpansionsAgree(s: string, params: map<string, string>, valid: string -> bool)
    ensures Expand(s, params, valid).Ok? <==>
      (ExpandEntry(s, params).Ok? && (!HasHole(Tokens(s)) || valid(ExpandEntry(s, params).value)))
    ensures Expand(s, params, valid).Ok? ==> Expand(s, params, valid) == ExpandEntry(s, params)
    ensures forall key ::
      Expand(s, params, valid) == Err(MissingParameter(key)) <==> ExpandEntry(s, params) == Err(MissingParameter(key))
    ensures ExpandEntry(s, params).Ok? ==> ExpandEntry(s, params).value == Fill(Tokens(s), params)
  {
    if !HasHole(Tokens(s)) {
      FillLiterals(Tokens(s), params);
      PrintTokens(s);
    }
  }

  lemma {:induction false} FillLiterals(ts: seq<Token>, params: map<string, string>)
    requires !HasHole(ts)
    ensures Fill(ts, params) == Print(ts)
  {
    if ts != [] {
      assert !ts[0].Hole?;
      assert forall j :: 0 <= j < |ts| - 1 ==> ts[1..][j] == ts[j + 1];
      FillLiterals(ts[1..], params);
    }
  }

  // ---------------------------------------------------------------- texts put together

  /** The text ends inside something that could become a placeholder. */
  predicate OpenEnd(s: string) {
    exists i :: 0 <= i < |s| && OpenAt(s[i..])
  }

  /** All that is left is a "$", or a "${" and key characters. */
  predicate OpenAt(r: string) {
    r != "" && r[0] == '$' && (|r| == 1 || (r[1] == '{' && KeyLength(r[2..]) == |r| - 2))
  }

  /** Unless the first text ends inside a placeholder, the expansion of two texts
      put together is their expansions put together. */
  lemma {:induction false} TokensAppend(a: string, b: string)
    requires !OpenEnd(a)
    ensures Tokens(a + b) == Tokens(a) + Tokens(b)
    decreases |a|
  {
    if a == "" {
      assert a + b == b;
    } else {
      hide OpenEnd, Tokens;
      var t, n := PeelBoth(a, b);
      TailNotOpen(a, n);
      TokensAppend(a[n..], b);
      Associates([t], Tokens(a[n..]), Tokens(b));
    }
  }

  /** The first token of the first text is the first token of the two. */
  lemma PeelBoth(a: string, b: string) returns (t: Token, n: nat)
    requires a != "" && !OpenEnd(a)
    ensures 1 <= n <= |a|
    ensures Tokens(a) == [t] + Tokens(a[n..])
    ensures Tokens(a + b) == [t] + Tokens(a[n..] + b)
  {
    hide OpenEnd, Tokens, HoleAhead;
    SameHole(a, b);
    TokensStep(a);
    TokensStep(a + b);
    n := if HoleAhead(a) then |HoleKey(a)| + 3 else 1;
    t := if HoleAhead(a) then Hole(HoleKey(a)) else Lit(a[0]);
    assert (a + b)[n..] == a[n..] + b;
  }

  lemma TokensStep(s: string)
    requires s != ""
    ensures HoleAhead(s) ==> Tokens(s) == [Hole(HoleKey(s))] + Tokens(s[|HoleKey(s)| + 3..])
    ensures !HoleAhead(s) ==> Tokens(s) == [Lit(s[0])] + Tokens(s[1..])
  {
  }

  /** So expansion of the whole is expansion of the parts, the left error first. */
  lemma EntriesAppend(a: string, b: string, params: map<string, string>)
    requires !OpenEnd(a)
    ensures ExpandEntry(a + b, params) == Joined(ExpandEntry(a, params), ExpandEntry(b, params))
  {
    hide Tokens, Fill, FirstMissing, OpenEnd;
    TokensAppend(a, b);
    FillAppend(Tokens(a), Tokens(b), params);
    MissingAppend(Tokens(a), Tokens(b), params);
    EntryIsFill(a, params);
    EntryIsFill(b, params);
    EntryIsFill(a + b, params);
  }

  function Joined(x: Result<string, Problem>, y: Result<string, Problem>): Result<string, Problem> {
    if x.Err? then x else if y.Err? then y else Ok(x.value + y.value)
  }

  lemma EntryIsFill(s: string, params: map<string, string>)
    ensures ExpandEntry(s, params) ==
      match FirstMissing(Tokens(s), params)
      case Some(key) => Err(MissingParameter(key))
      case None => Ok(Fill(Tokens(s), params))
  {
    var i := MissingIsLeftmost(Tokens(s), params);
    if !HasHole(Tokens(s)) {
      FillLiterals(Tokens(s), params);
      PrintTokens(s);
    }
  }

  lemma TailNotOpen(a: string, n: nat)
    requires !OpenEnd(a) && n <= |a|
    ensures !OpenEnd(a[n..])
  {
    forall i | 0 <= i < |a[n..]|
      ensures !OpenAt(a[n..][i..])
    {
      assert a[n..][i..] == a[n + i..];
    }
  }

  lemma SameHole(a: string, b: string)
    requires a != "" && !OpenEnd(a)
    ensures HoleAhead(a + b) == HoleAhead(a)
    ensures HoleAhead(a) ==> HoleKey(a + b) == HoleKey(a)
  {
    assert a[0..] == a && !OpenAt(a[0..]);
    if |a| >= 2 && a[0] == '$' && a[1] == '{' {
      assert (a + b)[2..] == a[2..] + b;
      KeyLengthAppend(a[2..], b);
    }
  }

  lemma {:induction false} KeyLengthAppend(a: string, b: string)
    requires KeyLength(a) < |a|
    ensures KeyLength(a + b) == KeyLength(a)
  {
    if KeyChar(a[0]) {
      assert (a + b)[1..] == a[1..] + b;
      KeyLengthAppend(a[1..], b);
    }
  }

  /** Values are not expanded again, and what the pieces form is not either. */
  lemma OnePassOnly(s: string, u: string)
    requires s == "${a}" && u == "${a}{b}"
    ensures ExpandEntry(s, map["a" := "${a}"]) == Ok("${a}")
    ensures ExpandEntry(u, map["a" := "$"]) == Ok("${b}")
  {
    var hole := [Hole("a")];
    var (self, dollar) := (map["a" := "${a}"], map["a" := "$"]);
    assert hole[1..] == [] && hole[0].Hole?;
    assert Fill(hole, self) == "${a}" && Fill(hole, dollar) == "$";
    HoleOnly(s, "");
    assert Tokens(s) == hole;
    HoleOnly(u, "{b}");
    var rest := Tokens("{b}");
    FillAppend(hole, rest, dollar);
    MissingAppend(hole, rest, dollar);
    FillLiterals(rest, dollar);
    PrintTokens("{b}");
    var missing := MissingIsLeftmost(rest, dollar);
    assert Tokens(u)[0].Hole?;
    assert "$" + "{b}" == "${b}";
  }

  lemma HoleOnly(s: string, rest: string)
    requires s == "${a}" + rest
    ensures Tokens(s) == [Hole("a")] + Tokens(rest)
  {
    assert s[2..] == "a}" + rest;
    assert s[2..][1..] == "}" + rest;
    assert KeyLength(s[2..][1..]) == 0;
    assert KeyLength(s[2..]) == 1;
    assert HoleKey(s) == "a";
    assert s[4..] == rest;
  }
}
