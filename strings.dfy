/**
 * The JavaScript string operations the core relies on: `startsWith`,
 * `includes`, `trim`, `split(' ')`, `split(/\s+/)`, `join`, `slice` on word
 * arrays and ASCII `toLowerCase`, with the laws the rest of the model uses.
 */
module Strings {

  /** The characters of JavaScript's `\s` class, which `trim` also removes. */
  predicate IsSpace(c: char) {
    || c == ' ' || c == '\t' || c == '\n' || c == '\r' || c == '\U{B}' || c == '\U{C}'
    || c == '\U{A0}' || c == '\U{1680}' || ('\U{2000}' <= c <= '\U{200A}')
    || c == '\U{2028}' || c == '\U{2029}' || c == '\U{202F}' || c == '\U{205F}'
    || c == '\U{3000}' || c == '\U{FEFF}'
  }

  /** The characters a regular-expression `.` does not match. */
  predicate IsLineTerminator(c: char) {
    c == '\n' || c == '\r' || c == '\U{2028}' || c == '\U{2029}'
  }

  predicate StartsWith(s: string, p: string) {
    |p| <= |s| && s[..|p|] == p
  }

  predicate EndsWith(s: string, p: string) {
    |p| <= |s| && s[|s| - |p|..] == p
  }

  /** `s.includes(p)` */
  predicate Contains(s: string, p: string) {
    exists i | 0 <= i <= |s| - |p| :: OccursAt(s, p, i)
  }

  predicate OccursAt(s: string, p: string, i: int) {
    0 <= i <= |s| - |p| && s[i..i + |p|] == p
  }

  /** A string contains each of its prefixes. */
  lemma ContainsPrefix(p: string, s: string)
    ensures Contains(p + s, p)
  {
    assert OccursAt(p + s, p, 0);
  }

  /** `s.trimStart()` */
  function TrimStart(s: string): (r: string)
    ensures |r| <= |s| && r == s[|s| - |r|..]
    ensures r == [] || !IsSpace(r[0])
    ensures forall i :: 0 <= i < |s| - |r| ==> IsSpace(s[i])
  {
    if |s| > 0 && IsSpace(s[0]) then TrimStart(s[1..]) else s
  }

  /** `s.trimEnd()` */
  function TrimEnd(s: string): (r: string)
    ensures |r| <= |s| && r == s[..|r|]
    ensures r == [] || !IsSpace(r[|r| - 1])
    ensures forall i :: |r| <= i < |s| ==> IsSpace(s[i])
  {
    if |s| > 0 && IsSpace(s[|s| - 1]) then TrimEnd(s[..|s| - 1]) else s
  }

  /** `s.trim()`: empty exactly when `s` is all white space; otherwise every character comes from `s`. */
  function Trim(s: string): (r: string)
    ensures forall k :: 0 <= k < |r| ==> r[k] in s
    ensures r == [] <==> forall i :: 0 <= i < |s| ==> IsSpace(s[i])
  {
    var t := TrimStart(s);
    var r := TrimEnd(t);
    TrimKeepsOrder(s, t, r);
    TrimOfSpaces(s, t, r);
    r
  }

  lemma TrimKeepsOrder(s: string, t: string, r: string)
    requires t == TrimStart(s) && r == TrimEnd(t)
    ensures forall k :: 0 <= k < |r| ==> r[k] in s
  {
    var d := |s| - |t|;
    assert t == s[d..];
    assert r == t[..|r|];
    forall k | 0 <= k < |r| ensures r[k] in s {
      assert r[k] == t[k];
      assert t[k] == s[d + k];
    }
  }

  lemma TrimOfSpaces(s: string, t: string, r: string)
    requires t == TrimStart(s) && r == TrimEnd(t)
    ensures r == [] <==> forall i :: 0 <= i < |s| ==> IsSpace(s[i])
  {
  }

  /** `ws.join(sep)` */
  function Join(ws: seq<string>, sep: string): string {
    if |ws| == 0 then ""
    else if |ws| == 1 then ws[0]
    else ws[0] + sep + Join(ws[1..], sep)
  }

  /** `s.split(c)` for a one-character separator: always at least one piece, none containing `c`. */
  function Split(s: string, c: char): (r: seq<string>)
    ensures |r| >= 1
    ensures forall i :: 0 <= i < |r| ==> c !in r[i]
    decreases |s|
  {
    if |s| == 0 then [""]
    else
      var rest := Split(s[1..], c);
      if s[0] == c then [""] + rest
      else [[s[0]] + rest[0]] + rest[1..]
  }

  /** `s.split(/\s+/)`: maximal runs of white space separate the pieces, none of which holds white space. */
  function SplitSpaces(s: string): (r: seq<string>)
    ensures |r| >= 1
    ensures forall i, j :: 0 <= i < |r| && 0 <= j < |r[i]| ==> !IsSpace(r[i][j])
    decreases |s|
  {
    if |s| == 0 then [""]
    else if IsSpace(s[0]) then
      var t := TrimStart(s);
      assert |t| < |s|;
      [""] + SplitSpaces(t)
    else
      var rest := SplitSpaces(s[1..]);
      [[s[0]] + rest[0]] + rest[1..]
  }

  /** `words.slice(0, n)` */
  function Take<T>(ws: seq<T>, n: nat): (r: seq<T>)
    ensures |r| <= n && |r| <= |ws|
    ensures r == ws[..|r|]
    ensures |ws| <= n ==> r == ws
  {
    if |ws| <= n then ws else ws[..n]
  }

  /** ASCII case mapping of `toLowerCase`. */
  function LowerChar(c: char): char {
    if 'A' <= c <= 'Z' then (c as int + 32) as char else c
  }

  function ToLower(s: string): (r: string)
    ensures |r| == |s|
    ensures forall i :: 0 <= i < |s| ==> r[i] == LowerChar(s[i])
  {
    seq(|s|, i requires 0 <= i < |s| => LowerChar(s[i]))
  }

  /** Splitting on a character and joining with it gives the string back. */
  lemma {:induction false} JoinSplit(s: string, c: char)
    ensures Join(Split(s, c), [c]) == s
    decreases |s|
  {
    if |s| > 0 {
      var rest := Split(s[1..], c);
      JoinSplit(s[1..], c);
      if s[0] == c {
        assert ([""] + rest)[1..] == rest;
        assert s == [c] + s[1..];
      } else if |rest| == 1 {
        assert s == [s[0]] + s[1..];
      } else {
        var r := [[s[0]] + rest[0]] + rest[1..];
        assert r[1..] == rest[1..];
        assert Join(rest, [c]) == rest[0] + [c] + Join(rest[1..], [c]);
        assert s == [s[0]] + s[1..];
      }
    }
  }

  /** A piece free of the separator is split into itself. */
  lemma {:induction false} SplitWithoutSeparator(w: string, c: char)
    requires c !in w
    ensures Split(w, c) == [w]
    decreases |w|
  {
    if |w| > 0 {
      SplitWithoutSeparator(w[1..], c);
      assert [w[0]] + w[1..] == w;
    }
  }

  /** Splitting `w + c + t` cuts off exactly `w` when `w` is free of `c`. */
  lemma {:induction false} SplitAtSeparator(w: string, c: char, t: string)
    requires c !in w
    ensures Split(w + [c] + t, c) == [w] + Split(t, c)
    decreases |w|
  {
    var s := w + [c] + t;
    if |w| == 0 {
      assert s[1..] == t;
    } else {
      assert s[1..] == w[1..] + [c] + t;
      SplitAtSeparator(w[1..], c, t);
      assert [w[0]] + w[1..] == w;
    }
  }

  /** Joining separator-free pieces and splitting again gives the pieces back. */
  lemma {:induction false} SplitJoin(ws: seq<string>, c: char)
    requires |ws| >= 1
    requires forall i :: 0 <= i < |ws| ==> c !in ws[i]
    ensures Split(Join(ws, [c]), c) == ws
    decreases |ws|
  {
    if |ws| == 1 {
      SplitWithoutSeparator(ws[0], c);
    } else {
      SplitJoin(ws[1..], c);
      SplitAtSeparator(ws[0], c, Join(ws[1..], [c]));
      assert [ws[0]] + ws[1..] == ws;
    }
  }

  /** Joining the first `k` pieces gives a prefix of joining all of them. */
  lemma {:induction false} JoinTakeIsPrefix(ws: seq<string>, k: nat, sep: string)
    requires k <= |ws|
    ensures StartsWith(Join(ws, sep), Join(ws[..k], sep))
    decreases k
  {
    if k == 1 {
      assert ws[..1] == [ws[0]];
    } else if k > 1 {
      JoinTakeIsPrefix(ws[1..], k - 1, sep);
      assert ws[..k][1..] == ws[1..][..k - 1];
      var tail, all := Join(ws[1..][..k - 1], sep), Join(ws[1..], sep);
      assert all[..|tail|] == tail;
      assert Join(ws, sep) == ws[0] + sep + all;
      assert Join(ws[..k], sep) == ws[0] + sep + tail;
    }
  }
}
