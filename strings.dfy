/**
 * The few Python string built-ins the chatbot relies on: `str.isspace` on one
 * character, `str.strip()`, `"\n".join(...)`, slicing `s[:n]`, and, as the
 * inverse of the join, `str.split("\n")`.
 */
module Strings {

  /** Python's `str.isspace()` for a single character: exactly the 29 code points it accepts. */
  predicate IsSpace(c: char) {
    || ('\t' <= c <= '\r')
    || ('\U{1C}' <= c <= ' ')
    || c == '\U{85}' || c == '\U{A0}' || c == '\U{1680}'
    || ('\U{2000}' <= c <= '\U{200A}')
    || c == '\U{2028}' || c == '\U{2029}' || c == '\U{202F}' || c == '\U{205F}' || c == '\U{3000}'
  }

  /** A string with no whitespace at either end, which is what `strip()` always returns. */
  predicate IsStripped(s: string) {
    s == [] || (!IsSpace(s[0]) && !IsSpace(s[|s| - 1]))
  }

  /** `s.lstrip()`: drops the whitespace at the front and nothing else. */
  function TrimStart(s: string): (r: string)
    ensures |r| <= |s| && r == s[|s| - |r|..]
    ensures forall i :: 0 <= i < |s| - |r| ==> IsSpace(s[i])
    ensures r == [] || !IsSpace(r[0])
  {
    if s != [] && IsSpace(s[0]) then TrimStart(s[1..]) else s
  }

  /** `s.rstrip()`: drops the whitespace at the back and nothing else. */
  function TrimEnd(s: string): (r: string)
    ensures |r| <= |s| && r == s[..|r|]
    ensures forall i :: |r| <= i < |s| ==> IsSpace(s[i])
    ensures r == [] || !IsSpace(r[|r| - 1])
  {
    if s != [] && IsSpace(s[|s| - 1]) then TrimEnd(s[..|s| - 1]) else s
  }

  /** `s.strip()`. */
  function Strip(s: string): (r: string)
    ensures IsStripped(r)
    ensures |r| <= |s|
    ensures exists i: nat :: (OccursAt(r, s, i)
      && (forall k :: 0 <= k < i ==> IsSpace(s[k]))
      && (forall k :: i + |r| <= k < |s| ==> IsSpace(s[k])))
    ensures r == [] <==> forall i :: 0 <= i < |s| ==> IsSpace(s[i])
  {
    var t := TrimStart(s);
    var r := TrimEnd(t);
    var i := |s| - |t|;
    assert t == s[i..] && r == t[..|r|];
    assert OccursAt(r, s, i);
    r
  }

  /** Stripping what is already stripped changes nothing; in particular `strip()` is idempotent. */
  lemma StripOfStripped(s: string)
    requires IsStripped(s)
    ensures Strip(s) == s
  {
  }

  lemma StripIdempotent(s: string)
    ensures Strip(Strip(s)) == Strip(s)
  {
    StripOfStripped(Strip(s));
  }

  /** `"\n".join(lines)`. */
  function JoinLines(lines: seq<string>): (joined: string)
    ensures lines != [] ==> lines[0] <= joined
  {
    if lines == [] then ""
    else if |lines| == 1 then lines[0]
    else lines[0] + "\n" + JoinLines(lines[1..])
  }

  /** `t` occurs in `s` starting at index `k`. */
  ghost predicate OccursAt(t: string, s: string, k: nat) {
    k + |t| <= |s| && s[k..k + |t|] == t
  }

  /** `t in s` for strings: `t` occurs in `s` as a contiguous piece. */
  ghost predicate Occurs(t: string, s: string) {
    exists k: nat :: OccursAt(t, s, k)
  }

  /** Every line occurs in the join of the lines. */
  lemma {:induction false} JoinLinesContains(lines: seq<string>, i: nat)
    requires i < |lines|
    ensures Occurs(lines[i], JoinLines(lines))
  {
    var s := JoinLines(lines);
    if |lines| == 1 || i == 0 {
      assert s[..|lines[0]|] == lines[0];
      assert OccursAt(lines[0], s, 0);
    } else {
      var rest := JoinLines(lines[1..]);
      assert s == lines[0] + "\n" + rest;
      JoinLinesContains(lines[1..], i - 1);
      var t := lines[1..][i - 1];
      var k: nat :| OccursAt(t, rest, k);
      var off := |lines[0]| + 1;
      assert s[off + k..off + k + |t|] == rest[k..k + |t|];
      assert OccursAt(t, s, off + k);
    }
  }

  /** A piece of `c` is also a piece of any string that starts with `a + c`. */
  lemma OccursAfterPrefix(t: string, a: string, c: string, s: string)
    requires Occurs(t, c) && a + c <= s
    ensures Occurs(t, s)
  {
    var k: nat :| OccursAt(t, c, k);
    assert s[|a| + k..|a| + k + |t|] == (a + c)[|a| + k..|a| + k + |t|] == c[k..k + |t|];
    assert OccursAt(t, s, |a| + k);
  }

  /** The first index of `c` in `s`, or `|s|` when `c` does not occur. */
  function IndexOf(s: string, c: char): (i: nat)
    ensures i <= |s|
    ensures i < |s| ==> s[i] == c
    ensures forall k :: 0 <= k < i ==> s[k] != c
  {
    if s == [] then 0
    else if s[0] == c then 0
    else 1 + IndexOf(s[1..], c)
  }

  /** `s.split("\n")`: the pieces between newlines, one more than there are newlines. */
  function SplitLines(s: string): (pieces: seq<string>)
    ensures |pieces| >= 1
    decreases |s|
  {
    var i := IndexOf(s, '\n');
    if i == |s| then [s] else [s[..i]] + SplitLines(s[i + 1..])
  }

  /** Joining lines that hold no newline and splitting again gives the lines back. */
  lemma {:induction false} SplitJoinLines(lines: seq<string>)
    requires lines != []
    requires forall l :: l in lines ==> '\n' !in l
    ensures SplitLines(JoinLines(lines)) == lines
  {
    var head := lines[0];
    assert '\n' !in head;
    if |lines| == 1 {
      assert IndexOf(head, '\n') == |head|;
    } else {
      var rest := lines[1..];
      var s := JoinLines(lines);
      assert s == head + "\n" + JoinLines(rest);
      var i := IndexOf(s, '\n');
      assert s[|head|] == '\n';
      assert i == |head|;
      assert s[..i] == head;
      assert s[i + 1..] == JoinLines(rest);
      assert forall l :: l in rest ==> l in lines;
      SplitJoinLines(rest);
      assert lines == [head] + rest;
    }
  }

  /** A join of lines that are all non-empty is empty exactly when there are no lines. */
  lemma JoinLinesEmpty(lines: seq<string>)
    requires forall i :: 0 <= i < |lines| ==> lines[i] != ""
    ensures JoinLines(lines) == "" <==> lines == []
  {
  }

  /** `s[:n]`: at most the first `n` characters. */
  function Take(s: string, n: nat): (r: string)
    ensures |r| == if |s| <= n then |s| else n
    ensures r == s[..|r|]
  {
    if |s| <= n then s else s[..n]
  }
}
