/** Escaping a file path for a filter argument of ffmpeg. */
module FilterPath {

  /** strings.ReplaceAll with a one-character pattern. */
  function ReplaceAll(s: string, c: char, put: string): string {
    if s == "" then "" else (if s[0] == c then put else [s[0]]) + ReplaceAll(s[1..], c, put)
  }

  /** escapeFilterPath: three passes over the whole text. */
  function Escape(p: string): string {
    ReplaceAll(ReplaceAll(ReplaceAll(p, '\\', "/"), ':', "\\:"), ',', "\\,")
  }

  // ---------------------------------------------------------------- one pass

  function EscapeOne(c: char): string {
    if c == '\\' then "/" else if c == ':' then "\\:" else if c == ',' then "\\," else [c]
  }

  function EscapeOnce(p: string): string {
    if p == "" then "" else EscapeOne(p[0]) + EscapeOnce(p[1..])
  }

  lemma {:induction false} ReplaceAppend(a: string, b: string, c: char, put: string)
    ensures ReplaceAll(a + b, c, put) == ReplaceAll(a, c, put) + ReplaceAll(b, c, put)
  {
    if a == "" {
      assert a + b == b;
    } else {
      ReplaceAppend(a[1..], b, c, put);
      assert (a + b)[1..] == a[1..] + b;
      var one := if a[0] == c then put else [a[0]];
      var (rest, other) := (ReplaceAll(a[1..], c, put), ReplaceAll(b, c, put));
      assert one + (rest + other) == one + rest + other;
    }
  }

  lemma ReplaceOne(x: char, c: char, put: string)
    ensures ReplaceAll([x], c, put) == if x == c then put else [x]
  {
    assert [x][1..] == "";
  }

  /** The three passes do not interfere: they are one pass over the characters. */
  lemma {:induction false} PassesAreOne(p: string)
    ensures Escape(p) == EscapeOnce(p)
  {
    if p != "" {
      PassesAreOne(p[1..]);
      assert p == [p[0]] + p[1..];
      EscapePeels(p[0], p[1..]);
    }
  }

  lemma EscapePeels(c: char, rest: string)
    ensures Escape([c] + rest) == EscapeOne(c) + Escape(rest)
  {
    var slashed := if c == '\\' then "/" else [c];
    var slashedRest := ReplaceAll(rest, '\\', "/");
    ReplaceAppend([c], rest, '\\', "/");
    ReplaceOne(c, '\\', "/");
    var colons := if c == ':' then "\\:" else slashed;
    var colonsRest := ReplaceAll(slashedRest, ':', "\\:");
    ReplaceAppend(slashed, slashedRest, ':', "\\:");
    ReplaceOne(slashed[0], ':', "\\:");
    ReplaceAppend(colons, colonsRest, ',', "\\,");
    ReplaceOne(colons[0], ',', "\\,");
    if c == ':' {
      ReplaceAppend("\\", ":", ',', "\\,");
      ReplaceOne(':', ',', "\\,");
      assert "\\:" == "\\" + ":";
    }
  }

  // ---------------------------------------------------------------- what the escape guarantees

  /** The reader's side: a backslash makes the next character literal. */
  function Unescape(s: string): string
    decreases |s|
  {
    if s == "" then ""
    else if s[0] == '\\' && |s| > 1 then [s[1]] + Unescape(s[2..])
    else [s[0]] + Unescape(s[1..])
  }

  /** The path with Windows separators normalized. */
  function Slashes(p: string): string {
    if p == "" then "" else [if p[0] == '\\' then '/' else p[0]] + Slashes(p[1..])
  }

  /** Reading the escaped text gives the path back, with its separators
      normalized. */
  lemma {:induction false} UnescapeEscape(p: string)
    ensures Unescape(Escape(p)) == Slashes(p)
  {
    PassesAreOne(p);
    UnescapeOnce(p);
  }

  lemma {:induction false} UnescapeOnce(p: string)
    ensures Unescape(EscapeOnce(p)) == Slashes(p)
  {
    if p != "" {
      UnescapeOnce(p[1..]);
      var rest := EscapeOnce(p[1..]);
      var s := EscapeOnce(p);
      if p[0] == ':' || p[0] == ',' {
        assert s[2..] == rest;
      } else {
        assert s[1..] == rest;
      }
    }
  }

  /** Two paths are escaped alike exactly when they differ in separators only. */
  lemma EscapeIsInjective(p: string, q: string)
    ensures Escape(p) == Escape(q) <==> Slashes(p) == Slashes(q)
  {
    UnescapeEscape(p);
    UnescapeEscape(q);
    if Slashes(p) == Slashes(q) {
      EscapeSlashes(p);
      EscapeSlashes(q);
    }
  }

  lemma {:induction false} EscapeSlashes(p: string)
    ensures Escape(Slashes(p)) == Escape(p)
  {
    if p != "" {
      EscapeSlashes(p[1..]);
      assert p == [p[0]] + p[1..];
      EscapePeels(p[0], p[1..]);
      EscapePeels(if p[0] == '\\' then '/' else p[0], Slashes(p[1..]));
    }
  }

  /** A reader that splits at unescaped separators finds none: every colon and
      comma is preceded by a backslash, every backslash is followed by a colon or
      a comma, and so no backslash is itself escaped. */
  predicate Shielded(s: string) {
    && (forall i :: 0 <= i < |s| && s[i] in {':', ','} ==> i > 0 && s[i - 1] == '\\')
    && (forall i :: 0 <= i < |s| && s[i] == '\\' ==> i + 1 < |s| && s[i + 1] in {':', ','})
  }

  lemma {:induction false} EscapeShields(p: string)
    ensures Shielded(Escape(p))
  {
    PassesAreOne(p);
    OnceShields(p);
  }

  lemma {:induction false} OnceShields(p: string)
    ensures Shielded(EscapeOnce(p))
  {
    if p != "" {
      OnceShields(p[1..]);
      var (one, rest) := (EscapeOne(p[0]), EscapeOnce(p[1..]));
      var s := one + rest;
      forall i | 0 <= i < |s|
        ensures s[i] in {':', ','} ==> i > 0 && s[i - 1] == '\\'
        ensures s[i] == '\\' ==> i + 1 < |s| && s[i + 1] in {':', ','}
      {
        if i >= |one| {
          assert s[i] == rest[i - |one|];
        }
      }
    }
  }
}
