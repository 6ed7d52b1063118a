/** What several models share: options, machine limits and plain text operations. */
module Basics {

  datatype Option<+T> = None | Some(value: T)

  const U64_MAX: nat := 0xffff_ffff_ffff_ffff

  /** usize on a 64-bit target. */
  const USIZE_MAX: nat := U64_MAX

  function Min(a: int, b: int): int { if a < b then a else b }

  /** ASCII case folding. */
  function LowerChar(c: char): char {
    if 'A' <= c <= 'Z' then ((c as int) + 32) as char else c
  }

  function Lower(s: string): string { seq(|s|, i requires 0 <= i < |s| => LowerChar(s[i])) }

  /** Space and tab: all that trimming can remove from a readable header value. */
  predicate IsBlank(c: char) { c == ' ' || c == '\t' }

  function Trim(s: string): (t: string)
    ensures forall c :: c in t ==> c in s
    decreases |s|
  {
    if s != "" && IsBlank(s[0]) then Trim(s[1..])
    else if s != "" && IsBlank(s[|s| - 1]) then Trim(s[..|s| - 1])
    else s
  }

  /** The length of the UTF-8 encoding. */
  function Utf8Octets(s: string): nat {
    if s == "" then 0
    else
      var c := s[|s| - 1] as int;
      Utf8Octets(s[..|s| - 1]) + if c < 0x80 then 1 else if c < 0x800 then 2 else if c < 0x1_0000 then 3 else 4
  }

  /** Index of the first `c`, or the length. */
  function IndexOf(s: string, c: char): (i: nat)
    ensures i <= |s|
    ensures i < |s| ==> s[i] == c
    ensures forall k :: 0 <= k < i ==> s[k] != c
  {
    if s == "" || s[0] == c then 0 else 1 + IndexOf(s[1..], c)
  }

  lemma FirstIndex(s: string, c: char, i: nat)
    requires i < |s| && s[i] == c && forall k :: 0 <= k < i ==> s[k] != c
    ensures IndexOf(s, c) == i
  {
  }

  /** The pieces between the occurrences of `c`. */
  function SplitAll(s: string, c: char): (parts: seq<string>)
    ensures |parts| >= 1
    decreases |s|
  {
    var i := IndexOf(s, c);
    if i == |s| then [s] else [s[..i]] + SplitAll(s[i + 1..], c)
  }

  function JoinWith(parts: seq<string>, c: char): string
    requires |parts| >= 1
  {
    if |parts| == 1 then parts[0] else parts[0] + [c] + JoinWith(parts[1..], c)
  }

  lemma {:induction false} PiecesLackSeparator(s: string, c: char)
    ensures forall i :: 0 <= i < |SplitAll(s, c)| ==> c !in SplitAll(s, c)[i]
    decreases |s|
  {
    var i := IndexOf(s, c);
    if i == |s| {
    } else {
      PiecesLackSeparator(s[i + 1..], c);
    }
  }

  lemma SplitAllCons(first: string, c: char, rest: string)
    requires c !in first
    ensures SplitAll(first + [c] + rest, c) == [first] + SplitAll(rest, c)
  {
    var s := first + [c] + rest;
    assert s[|first|] == c && forall k :: 0 <= k < |first| ==> s[k] == first[k];
    assert IndexOf(s, c) == |first|;
    assert s[..|first|] == first && s[|first| + 1..] == rest;
  }

  /** Splitting at `c` undoes joining pieces without `c`. */
  lemma {:induction false} SplitAllInvertsJoin(parts: seq<string>, c: char)
    requires |parts| >= 1 && forall i :: 0 <= i < |parts| ==> c !in parts[i]
    ensures SplitAll(JoinWith(parts, c), c) == parts
  {
    if |parts| == 1 {
      assert IndexOf(parts[0], c) == |parts[0]|;
    } else {
      SplitAllInvertsJoin(parts[1..], c);
      SplitAllCons(parts[0], c, JoinWith(parts[1..], c));
      assert parts == [parts[0]] + parts[1..];
    }
  }

  lemma {:induction false} JoinWithSnoc(parts: seq<string>, last: string, c: char)
    requires |parts| >= 1
    ensures JoinWith(parts + [last], c) == JoinWith(parts, c) + [c] + last
  {
    if |parts| == 1 {
      assert (parts + [last])[1..] == [last];
    } else {
      JoinWithSnoc(parts[1..], last, c);
      assert (parts + [last])[1..] == parts[1..] + [last];
      var front := JoinWith(parts[1..], c);
      assert parts[0] + [c] + (front + [c] + last) == parts[0] + [c] + front + [c] + last;
    }
  }

  /** Joining with `c` undoes splitting at `c`. */
  lemma {:induction false} JoinInvertsSplitAll(s: string, c: char)
    ensures JoinWith(SplitAll(s, c), c) == s
    decreases |s|
  {
    var i := IndexOf(s, c);
    if i == |s| {
    } else {
      JoinInvertsSplitAll(s[i + 1..], c);
      var rest := SplitAll(s[i + 1..], c);
      assert ([s[..i]] + rest)[1..] == rest;
      assert s == s[..i] + [c] + s[i + 1..];
    }
  }
}
