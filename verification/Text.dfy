/** String primitives the harness relies on: Python's `t in s` substring test,
    `s.split(sep)` for a one-character separator, and `sep.join(pieces)`. */
module Text {

  /** `t` occurs in `s` as a contiguous block of characters. */
  ghost predicate IsInfix(t: string, s: string) {
    exists k :: OccursAt(t, s, k)
  }

  /** `t` occurs in `s` starting at position `k`. */
  predicate OccursAt(t: string, s: string, k: int) {
    0 <= k <= |s| - |t| && s[k..k + |t|] == t
  }

  /** `p` is a prefix of `s`. */
  predicate IsPrefix(p: string, s: string) {
    |p| <= |s| && s[..|p|] == p
  }

  /** `q` is a suffix of `s`. */
  predicate IsSuffix(q: string, s: string) {
    |q| <= |s| && s[|s| - |q|..] == q
  }

  /** Python's `t in s`: tries every start position from the left. */
  function Contains(s: string, t: string): (b: bool)
    ensures b <==> IsInfix(t, s)
    decreases |s|
  {
    if |t| > |s| then false
    else if s[..|t|] == t then
      assert OccursAt(t, s, 0);
      true
    else
      var b := Contains(s[1..], t);
      if b then
        var k :| OccursAt(t, s[1..], k);
        OccursShift(t, s, k + 1);
        true
      else
        assert !OccursAt(t, s, 0);
        forall k | 1 <= k ensures !OccursAt(t, s, k) {
          OccursShift(t, s, k);
        }
        false
  }

  /** An occurrence past the first character is an occurrence in the tail. */
  lemma OccursShift(t: string, s: string, k: int)
    requires 1 <= k && |s| >= 1
    ensures OccursAt(t, s, k) <==> OccursAt(t, s[1..], k - 1)
  {
    if 0 <= k - 1 <= |s[1..]| - |t| {
      var direct, shifted := s[k..k + |t|], s[1..][k - 1..k - 1 + |t|];
      forall n | 0 <= n < |t| ensures direct[n] == shifted[n] {
        assert shifted[n] == s[k + n];
      }
      assert direct == shifted;
    }
  }

  /** A block placed between two others is found by the substring test. */
  lemma InfixOfConcat(a: string, t: string, b: string)
    ensures IsInfix(t, a + t + b)
  {
    assert (a + t + b)[|a|..|a| + |t|] == t;
    assert OccursAt(t, a + t + b, |a|);
  }

  /** Infix is transitive: an occurrence inside an occurrence is an occurrence. */
  lemma InfixTransitive(t: string, u: string, s: string)
    requires IsInfix(t, u) && IsInfix(u, s)
    ensures IsInfix(t, s)
  {
    var i :| OccursAt(t, u, i);
    var j :| OccursAt(u, s, j);
    assert u[i..i + |t|] == s[j..j + |u|][i..i + |t|];
    var inner, direct := s[j..j + |u|][i..i + |t|], s[j + i..j + i + |t|];
    forall n | 0 <= n < |t| ensures inner[n] == direct[n] {
      assert inner[n] == s[j + i + n];
    }
    assert inner == direct;
    assert OccursAt(t, s, j + i);
  }

  /** A suffix of a suffix is a suffix. */
  lemma SuffixOfSuffix(q: string, r: string, s: string)
    requires IsSuffix(q, r) && IsSuffix(r, s)
    ensures IsSuffix(q, s)
  {
    assert s[|s| - |q|..] == s[|s| - |r|..][|r| - |q|..];
  }

  /** Small sequence facts, stated on plain sequences so that callers need not
      reason about the contents. */
  lemma DropDrop<T>(s: seq<T>, a: nat, b: nat)
    requires a + b <= |s|
    ensures s[a..][b..] == s[a + b..]
  {
  }

  lemma DropAt<T>(s: seq<T>, a: nat, i: nat)
    requires a + i < |s|
    ensures s[a..][i] == s[a + i]
  {
  }

  lemma TakeFront<T>(a: seq<T>, b: seq<T>, n: nat)
    requires n <= |a|
    ensures (a + b)[..n] == a[..n]
  {
  }

  lemma TakeAppend<T>(a: seq<T>, b: seq<T>, n: nat)
    requires n <= |b|
    ensures (a + b)[..|a| + n] == a + b[..n]
  {
  }

  /** `sep.join(pieces)`: the pieces with `sep` between neighbours. */
  function Join(pieces: seq<string>, sep: string): string
    decreases |pieces|
  {
    if |pieces| == 0 then ""
    else if |pieces| == 1 then pieces[0]
    else pieces[0] + sep + Join(pieces[1..], sep)
  }

  /** Every piece appears verbatim in the joined text. */
  lemma {:induction false} JoinHoldsPiece(pieces: seq<string>, sep: string, i: nat)
    requires i < |pieces|
    ensures IsInfix(pieces[i], Join(pieces, sep))
    decreases i
  {
    if |pieces| == 1 {
      InfixOfConcat("", pieces[0], "");
      assert "" + pieces[0] + "" == Join(pieces, sep);
    } else if i == 0 {
      InfixOfConcat("", pieces[0], sep + Join(pieces[1..], sep));
      assert "" + pieces[0] + (sep + Join(pieces[1..], sep)) == Join(pieces, sep);
    } else {
      JoinHoldsPiece(pieces[1..], sep, i - 1);
      InfixOfConcat(pieces[0] + sep, Join(pieces[1..], sep), "");
      assert pieces[0] + sep + Join(pieces[1..], sep) + "" == Join(pieces, sep);
      InfixTransitive(pieces[i], Join(pieces[1..], sep), Join(pieces, sep));
    }
  }

  /** The tail of a prefix occurs in the whole text, and so does its head. */
  lemma InfixOfPrefix(a: string, b: string, s: string)
    requires IsPrefix(a + b, s)
    ensures IsPrefix(a, s) && IsInfix(b, s)
  {
    assert s[..|a|] == (a + b)[..|a|];
    assert s[|a|..|a| + |b|] == (a + b)[|a|..];
    assert OccursAt(b, s, |a|);
  }

  /** `s.split(sep)` for a one-character separator: never empty, every separator
      in `s` cuts, and no piece contains the separator. */
  function Split(s: string, sep: char): (pieces: seq<string>)
    ensures |pieces| >= 1
    ensures Join(pieces, [sep]) == s
    ensures forall i :: 0 <= i < |pieces| ==> sep !in pieces[i]
    decreases |s|
  {
    if |s| == 0 then [""]
    else
      var rest := Split(s[1..], sep);
      if s[0] == sep then
        assert s == [sep] + s[1..];
        [""] + rest
      else
        var pieces := [[s[0]] + rest[0]] + rest[1..];
        assert pieces[1..] == rest[1..];
        assert s == [s[0]] + s[1..];
        pieces
  }

  /** Splitting undoes joining when no piece contains the separator. */
  lemma {:induction false} SplitJoin(pieces: seq<string>, sep: char)
    requires |pieces| >= 1
    requires forall i :: 0 <= i < |pieces| ==> sep !in pieces[i]
    ensures Split(Join(pieces, [sep]), sep) == pieces
    decreases |pieces|
  {
    if |pieces| == 1 {
      SplitPlain(pieces[0], sep);
    } else {
      var tail := Join(pieces[1..], [sep]);
      SplitJoin(pieces[1..], sep);
      SplitCut(pieces[0], tail, sep);
      assert [pieces[0]] + pieces[1..] == pieces;
    }
  }

  /** A text without the separator is a single piece. */
  lemma {:induction false} SplitPlain(p: string, sep: char)
    requires sep !in p
    ensures Split(p, sep) == [p]
    decreases |p|
  {
    if |p| > 0 {
      SplitPlain(p[1..], sep);
      assert [p[0]] + p[1..] == p;
    }
  }

  /** The first separator ends the first piece. */
  lemma {:induction false} SplitCut(p: string, rest: string, sep: char)
    requires sep !in p
    ensures Split(p + [sep] + rest, sep) == [p] + Split(rest, sep)
    decreases |p|
  {
    var s := p + [sep] + rest;
    if |p| == 0 {
      assert s[1..] == rest;
    } else {
      assert s[1..] == p[1..] + [sep] + rest;
      SplitCut(p[1..], rest, sep);
      assert [p[0]] + p[1..] == p;
    }
  }

  /** The pieces placed end to end. */
  function Concat(pieces: seq<string>): string
    decreases |pieces|
  {
    if pieces == [] then "" else Concat(pieces[..|pieces| - 1]) + pieces[|pieces| - 1]
  }

  /** `s * n` for a string and a count: `n` copies of `s`, back to back. */
  function Repeat(s: string, n: nat): string {
    Concat(seq(n, _ => s))
  }

  /** `s * 0` is empty and `s * (n + 1)` is `s * n` followed by one more copy. */
  lemma RepeatGrows(s: string, n: nat)
    ensures Repeat(s, 0) == ""
    ensures Repeat(s, n + 1) == Repeat(s, n) + s
  {
    assert seq(n + 1, _ => s)[..n] == seq(n, _ => s);
  }

  /** `s * n` is `n` times as long as `s`. */
  lemma {:induction false} RepeatLength(s: string, n: nat)
    ensures |Repeat(s, n)| == n * |s|
  {
    if n > 0 {
      RepeatLength(s, n - 1);
      RepeatGrows(s, n - 1);
    } else {
      RepeatGrows(s, 0);
    }
  }

  /** `s * (a + b)` is `s * a` followed by `s * b`. */
  lemma {:induction false} RepeatSplits(s: string, a: nat, b: nat)
    ensures Repeat(s, a + b) == Repeat(s, a) + Repeat(s, b)
    decreases b
  {
    if b > 0 {
      RepeatSplits(s, a, b - 1);
      RepeatGrows(s, a + b - 1);
      RepeatGrows(s, b - 1);
    } else {
      RepeatGrows(s, 0);
    }
  }

  /** Every copy sits at its place: copy `k` comes after `k` copies and
      before the remaining `n - k - 1`. */
  lemma RepeatCopy(s: string, n: nat, k: nat)
    requires k < n
    ensures Repeat(s, n) == Repeat(s, k) + s + Repeat(s, n - k - 1)
  {
    RepeatSplits(s, k, n - k);
    RepeatSplits(s, 1, n - k - 1);
    RepeatGrows(s, 0);
    assert Repeat(s, 1) == s;
  }
}
