/** The handful of Python string operations the wrapper relies on:
    `str.endswith`, the substring test `sub in s`, and `str.split()` with no
    separator (split on runs of whitespace, dropping empty pieces). */
module Text {

  /** `s.endswith(suffix)` */
  predicate EndsWith(s: string, suffix: string) {
    |suffix| <= |s| && s[|s| - |suffix|..] == suffix
  }

  /** `sub in s` for two strings: `sub` occurs somewhere in `s`. */
  predicate Contains(s: string, sub: string)
    decreases |s|
  {
    if |s| < |sub| then false
    else s[..|sub|] == sub || (s != [] && Contains(s[1..], sub))
  }

  /** The ASCII characters Python's `str.isspace` accepts. */
  predicate IsSpace(c: char) {
    c == ' ' || 9 <= c as int <= 13 || 28 <= c as int <= 31
  }

  predicate NoSpace(s: string) {
    forall i | 0 <= i < |s| :: !IsSpace(s[i])
  }

  predicate AllSpace(s: string) {
    forall i | 0 <= i < |s| :: IsSpace(s[i])
  }

  /** A piece that `split()` can return: non-empty and free of whitespace. */
  predicate IsToken(t: string) {
    t != [] && NoSpace(t)
  }

  /** Drops the leading whitespace of `s`. */
  function SkipSpace(s: string): (r: string)
    ensures |r| <= |s| && r == s[|s| - |r|..]
    ensures r == [] || !IsSpace(r[0])
    ensures AllSpace(s[..|s| - |r|])
    decreases |s|
  {
    if s != [] && IsSpace(s[0]) then
      var r := SkipSpace(s[1..]);
      ghost var skipped := s[1..][..|s[1..]| - |r|];
      assert s[..|s| - |r|] == [s[0]] + skipped;
      assert forall i | 0 <= i < |skipped| :: IsSpace(skipped[i]);
      r
    else s
  }

  /** Splits `s` into its longest whitespace-free prefix and the rest. */
  function TakeToken(s: string): (r: (string, string))
    ensures r.0 + r.1 == s
    ensures NoSpace(r.0)
    ensures r.1 == [] || IsSpace(r.1[0])
    decreases |s|
  {
    if s == [] || IsSpace(s[0]) then ([], s)
    else
      var (t, rest) := TakeToken(s[1..]);
      assert [s[0]] + t + rest == s;
      ([s[0]] + t, rest)
  }

  /** `s.split()`: the maximal whitespace-free pieces of `s`, in order. */
  function Split(s: string): (r: seq<string>)
    ensures forall k | 0 <= k < |r| :: IsToken(r[k])
    ensures r == [] <==> AllSpace(s)
    decreases |s|
  {
    var t := SkipSpace(s);
    if t == [] then
      assert s[..|s|] == s;
      []
    else
      var (tok, rest) := TakeToken(t);
      assert tok != [] by { assert (tok + rest)[0] == t[0]; }
      NotAllSpace(s, |s| - |t|);
      var more := Split(rest);
      assert forall k | 0 <= k < |more| :: IsToken(more[k]);
      PrependToken(tok, more);
      [tok] + more
  }

  lemma PrependToken(tok: string, more: seq<string>)
    requires IsToken(tok)
    requires forall k | 0 <= k < |more| :: IsToken(more[k])
    ensures forall k | 0 <= k < |[tok] + more| :: IsToken(([tok] + more)[k])
  {
    forall k | 0 <= k < |[tok] + more| ensures IsToken(([tok] + more)[k]) {
      if k > 0 { assert ([tok] + more)[k] == more[k - 1]; }
    }
  }

  lemma NotAllSpace(s: string, i: int)
    requires 0 <= i < |s| && !IsSpace(s[i])
    ensures !AllSpace(s)
  {
  }

  /** `' '.join(ts)` */
  function JoinSpaced(ts: seq<string>): string
    decreases |ts|
  {
    if ts == [] then ""
    else if |ts| == 1 then ts[0]
    else ts[0] + " " + JoinSpaced(ts[1..])
  }

  lemma {:induction false} SkipSpaceOfToken(s: string)
    requires s == [] || !IsSpace(s[0])
    ensures SkipSpace(s) == s
  {
  }

  lemma {:induction false} TakeTokenOf(t: string, rest: string)
    requires NoSpace(t)
    requires rest == [] || IsSpace(rest[0])
    ensures TakeToken(t + rest) == (t, rest)
    decreases |t|
  {
    if t == [] {
      assert t + rest == rest;
    } else {
      assert (t + rest)[0] == t[0];
      assert (t + rest)[1..] == t[1..] + rest;
      assert NoSpace(t[1..]) by {
        forall i | 0 <= i < |t[1..]| ensures !IsSpace(t[1..][i]) { assert t[1..][i] == t[i + 1]; }
      }
      TakeTokenOf(t[1..], rest);
      assert [t[0]] + t[1..] == t;
    }
  }

  /** Leading whitespace of any length is skipped up to the first other
      character. */
  lemma {:induction false} SkipSpaceRun(ws: string, u: string)
    requires AllSpace(ws)
    requires u == [] || !IsSpace(u[0])
    ensures SkipSpace(ws + u) == u
    decreases |ws|
  {
    if ws == [] {
      assert ws + u == u;
      SkipSpaceOfToken(u);
    } else {
      assert (ws + u)[0] == ws[0];
      assert (ws + u)[1..] == ws[1..] + u;
      assert AllSpace(ws[1..]) by {
        forall i | 0 <= i < |ws[1..]| ensures IsSpace(ws[1..][i]) { assert ws[1..][i] == ws[i + 1]; }
      }
      SkipSpaceRun(ws[1..], u);
    }
  }

  /** The first piece of `split()` is the first maximal whitespace-free run,
      whatever whitespace precedes it, and splitting continues after it.
      With `Split`'s own contract (an all-whitespace text gives no pieces)
      this fixes the result on every input: the maximal runs, in order. */
  lemma {:induction false} SplitPeel(ws: string, t: string, rest: string)
    requires AllSpace(ws) && IsToken(t)
    requires rest == [] || IsSpace(rest[0])
    ensures Split(ws + t + rest) == [t] + Split(rest)
  {
    var s := ws + t + rest;
    assert s == ws + (t + rest);
    assert (t + rest)[0] == t[0];
    SkipSpaceRun(ws, t + rest);
    TakeTokenOf(t, rest);
  }

  /** Splitting the space-joined form of a list of tokens gives the list back:
      the extra bitcode flags reach the command line exactly as written. */
  lemma {:induction false} SplitJoinRoundTrip(ts: seq<string>)
    requires forall k | 0 <= k < |ts| :: IsToken(ts[k])
    ensures Split(JoinSpaced(ts)) == ts
    decreases |ts|
  {
    if ts == [] {
    } else if |ts| == 1 {
      SplitSingle(ts[0]);
    } else {
      JoinCons(ts);
      SplitJoinStep(ts[0], JoinSpaced(ts[1..]));
      SplitJoinRoundTrip(ts[1..]);
      assert ts == [ts[0]] + ts[1..];
    }
  }

  lemma {:induction false} JoinCons(ts: seq<string>)
    requires |ts| > 1
    ensures JoinSpaced(ts) == ts[0] + ([' '] + JoinSpaced(ts[1..]))
  {
  }

  lemma {:induction false} SplitSingle(t: string)
    requires IsToken(t)
    ensures Split(t) == [t]
  {
    assert [] + t + [] == t;
    SplitPeel([], t, []);
    assert Split([]) == [];
  }

  /** A token followed by a space: the token is the first piece and
      splitting continues after the space. */
  lemma {:induction false} SplitJoinStep(t: string, inner: string)
    requires IsToken(t)
    ensures Split(t + ([' '] + inner)) == [t] + Split(inner)
  {
    assert [] + t + ([' '] + inner) == t + ([' '] + inner);
    SplitPeel([], t, [' '] + inner);
    SplitDropsSpace(' ', inner);
  }

  /** A leading whitespace character does not change the pieces. */
  lemma {:induction false} SplitDropsSpace(c: char, s: string)
    requires IsSpace(c)
    ensures Split([c] + s) == Split(s)
  {
    assert ([c] + s)[1..] == s;
    assert SkipSpace([c] + s) == SkipSpace(s);
  }
}
