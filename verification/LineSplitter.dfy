/** Incremental CRLF/CR/LF line splitting over a chunked text
    (foghttp/_streaming/text/lines.py).

    `SplitLines` is the one-shot reference split of a whole text. The splitter sees the
    text in chunks, keeps an unfinished line, and defers a trailing CR because the next
    chunk may start with LF. The main result, the contract of `IterLines`, says that no
    chunking is observable: neither in the lines nor in where the length limit strikes. */
module LineSplitter {

  /** `max_line_chars`: None, or a bound on the characters of one line. */
  datatype Limit = Unlimited | AtMost(chars: int)

  /** What a consumer of the line iterator sees: the lines, and whether the iterator
      ended normally (`complete`) or raised the line-too-long error. */
  datatype Outcome = Outcome(lines: seq<string>, complete: bool)

  predicate IsBreak(c: char) { c == '\r' || c == '\n' }

  predicate BreakFree(s: string) { forall i :: 0 <= i < |s| ==> !IsBreak(s[i]) }

  /** The limit is checked only when a nonempty segment is appended, so an empty line
      never exceeds it. */
  predicate Overlong(limit: Limit, line: string) {
    limit.AtMost? && line != "" && |line| > limit.chars
  }

  // ----- Reference split -----

  function FirstBreak(s: string): (i: nat)
    ensures i <= |s|
    ensures BreakFree(s[..i])
    ensures i < |s| ==> IsBreak(s[i])
  {
    if s == "" then 0
    else if IsBreak(s[0]) then 0
    else 1 + FirstBreak(s[1..])
  }

  /** Number of characters of the line break at `i`: CRLF counts as one break. */
  function BreakLength(s: string, i: nat): (n: nat)
    requires i < |s|
    ensures 1 <= n <= 2 && i + n <= |s|
  {
    if s[i] == '\r' && i + 1 < |s| && s[i + 1] == '\n' then 2 else 1
  }

  /** The lines of a whole text; no empty line after a final break. */
  function SplitLines(s: string): seq<string>
    decreases |s|
  {
    var i := FirstBreak(s);
    if i == |s| then (if s == "" then [] else [s])
    else [s[..i]] + SplitLines(s[i + BreakLength(s, i)..])
  }

  /** The longest prefix of `lines` without an overlong line. */
  function Fitting(limit: Limit, lines: seq<string>): (fit: seq<string>)
    ensures fit <= lines
    ensures forall line :: line in fit ==> !Overlong(limit, line)
    ensures |fit| < |lines| ==> Overlong(limit, lines[|fit|])
  {
    if lines == [] || Overlong(limit, lines[0]) then []
    else [lines[0]] + Fitting(limit, lines[1..])
  }

  function Expected(limit: Limit, text: string): Outcome {
    var lines := SplitLines(text);
    var fit := Fitting(limit, lines);
    Outcome(fit, |fit| == |lines|)
  }

  function Prepend(lines: seq<string>, rest: Outcome): Outcome {
    Outcome(lines + rest.lines, rest.complete)
  }

  // ----- How much of the final outcome a consumed text has already decided -----

  /** The outcome of `before` followed by `rest`. */
  function Whole(limit: Limit, before: string, rest: string): Outcome { Expected(limit, before + rest) }

  /** Having consumed `before`, the iterator has yielded `lines` and what it still
      remembers is `after`: whatever text follows, the outcome is the same. */
  ghost predicate Continues(limit: Limit, before: string, lines: seq<string>, after: string) {
    forall rest: string :: Whole(limit, before, rest) == Prepend(lines, Whole(limit, after, rest))
  }

  /** Having consumed `before`, the iterator fails after `lines`, whatever follows. */
  ghost predicate Fails(limit: Limit, before: string, lines: seq<string>) {
    forall rest: string :: Whole(limit, before, rest) == Outcome(lines, false)
  }

  lemma ContinuesRefl(limit: Limit, text: string)
    ensures Continues(limit, text, [], text)
  {
    assert forall o: Outcome :: Prepend([], o).lines == o.lines;
  }

  lemma PrependTwice(l1: seq<string>, l2: seq<string>, rest: Outcome)
    ensures Prepend(l1, Prepend(l2, rest)) == Prepend(l1 + l2, rest)
  {
    assert l1 + (l2 + rest.lines) == l1 + l2 + rest.lines;
  }

  lemma ContinuesTrans(limit: Limit, a: string, l1: seq<string>, b: string, l2: seq<string>, c: string)
    requires Continues(limit, a, l1, b) && Continues(limit, b, l2, c)
    ensures Continues(limit, a, l1 + l2, c)
  {
    forall rest: string
      ensures Whole(limit, a, rest) == Prepend(l1 + l2, Whole(limit, c, rest))
    {
      PrependTwice(l1, l2, Whole(limit, c, rest));
      assert Whole(limit, b, rest) == Prepend(l2, Whole(limit, c, rest));
    }
  }

  lemma ContinuesFails(limit: Limit, a: string, l1: seq<string>, b: string, l2: seq<string>)
    requires Continues(limit, a, l1, b) && Fails(limit, b, l2)
    ensures Fails(limit, a, l1 + l2)
  {
  }

  lemma WholeShift(limit: Limit, a: string, more: string, rest: string)
    ensures Whole(limit, a + more, rest) == Whole(limit, a, more + rest)
  {
    assert a + more + rest == a + (more + rest);
  }

  lemma ContinuesAppend(limit: Limit, a: string, lines: seq<string>, b: string, more: string)
    requires Continues(limit, a, lines, b)
    ensures Continues(limit, a + more, lines, b + more)
  {
    forall rest: string
      ensures Whole(limit, a + more, rest) == Prepend(lines, Whole(limit, b + more, rest))
    {
      WholeShift(limit, a, more, rest);
      WholeShift(limit, b, more, rest);
    }
  }

  lemma FailsAppend(limit: Limit, a: string, lines: seq<string>, more: string)
    requires Fails(limit, a, lines)
    ensures Fails(limit, a + more, lines)
  {
    forall rest: string ensures Whole(limit, a + more, rest) == Outcome(lines, false) {
      WholeShift(limit, a, more, rest);
    }
  }

  lemma {:induction false} FirstBreakOf(head: string, tail: string)
    requires BreakFree(head)
    ensures FirstBreak(head + tail) == |head| + FirstBreak(tail)
  {
    if head == "" {
      assert head + tail == tail;
    } else {
      assert (head + tail)[0] == head[0];
      assert (head + tail)[1..] == head[1..] + tail;
      FirstBreakOf(head[1..], tail);
    }
  }

  /** A break whose end is already certain: LF, CRLF, or CR before a known non-LF. */
  predicate SettledBreak(brk: string, after: string) {
    brk == "\n" || brk == "\r\n" || (brk == "\r" && after != "" && after[0] != '\n')
  }

  lemma SplitAtBreak(head: string, brk: string, after: string)
    requires BreakFree(head)
    requires SettledBreak(brk, after) || (brk == "\r" && after == "")
    ensures SplitLines(head + brk + after) == [head] + SplitLines(after)
  {
    var s := head + brk + after;
    assert s == head + (brk + after);
    FirstBreakOf(head, brk + after);
    assert s[|head|] == brk[0];
    assert s[|head| + BreakLength(s, |head|)..] == after;
    assert s[..|head|] == head;
  }

  lemma ExpectedAtBreak(limit: Limit, head: string, brk: string, after: string)
    requires BreakFree(head) && !Overlong(limit, head) && SettledBreak(brk, after)
    ensures Expected(limit, head + brk + after) == Prepend([head], Expected(limit, after))
  {
    SplitAtBreak(head, brk, after);
    assert ([head] + SplitLines(after))[1..] == SplitLines(after);
  }

  lemma LineEnds(limit: Limit, head: string, brk: string, after: string)
    requires BreakFree(head) && !Overlong(limit, head) && SettledBreak(brk, after)
    ensures Continues(limit, head + brk + after, [head], after)
  {
    forall rest: string
      ensures Whole(limit, head + brk + after, rest) == Prepend([head], Whole(limit, after, rest))
    {
      ExpectedAtBreak(limit, head, brk, after + rest);
      WholeShift(limit, head + brk, after, rest);
    }
  }

  lemma LineTooLong(limit: Limit, head: string)
    requires BreakFree(head) && Overlong(limit, head)
    ensures Fails(limit, head, [])
  {
    forall rest: string ensures Whole(limit, head, rest) == Outcome([], false) {
      FirstBreakOf(head, rest);
      var lines := SplitLines(head + rest);
      assert |lines[0]| >= |head|;
    }
  }

  /** An unfinished last line, or nothing, is all that remains at the end of the text. */
  lemma SplitTail(head: string)
    requires BreakFree(head)
    ensures SplitLines(head) == if head == "" then [] else [head]
  {
    FirstBreakOf(head, "");
    assert head + "" == head;
  }

  lemma Regroup(a: string, b: string, c: string, d: string)
    ensures a + (b + c + d) == (a + b) + c + d == (a + b) + (c + d)
  {
    assert a + (b + c + d) == (a + b) + c + d;
    assert (a + b) + c + d == (a + b) + (c + d);
  }

  lemma Cut(text: string, a: nat, b: nat, c: nat)
    requires a <= b <= c <= |text|
    ensures text[a..] == text[a..b] + text[b..c] + text[c..]
  {
  }

  // ----- The splitter -----

  function Joined(parts: seq<string>): string {
    if parts == [] then "" else Joined(parts[..|parts| - 1]) + parts[|parts| - 1]
  }

  class Splitter {
    const maxLineChars: Limit
    var pendingParts: seq<string>
    var pendingChars: nat
    var deferredCr: bool

    ghost function Pending(): string
      reads this
    {
      Joined(pendingParts)
    }

    /** The consumed text that has not yet been yielded as a line. */
    ghost function Residual(): string
      reads this
    {
      Pending() + if deferredCr then "\r" else ""
    }

    ghost predicate Valid()
      reads this
    {
      && pendingChars == |Pending()|
      && BreakFree(Pending())
      && !Overlong(maxLineChars, Pending())
      && (pendingParts == [] <==> Pending() == "")
    }

    constructor (limit: Limit)
      ensures Valid() && Residual() == "" && maxLineChars == limit
    {
      maxLineChars := limit;
      pendingParts := [];
      pendingChars := 0;
      deferredCr := false;
    }

    method TakeLine() returns (line: string)
      requires Valid()
      modifies `pendingParts, `pendingChars
      ensures Valid() && line == old(Pending()) && Pending() == ""
    {
      line := Joined(pendingParts);
      pendingParts := [];
      pendingChars := 0;
    }

    /** False is the line-too-long error; the state is then as it was. */
    method AppendSegment(segment: string) returns (ok: bool)
      requires Valid() && BreakFree(segment)
      modifies `pendingParts, `pendingChars
      ensures Valid()
      ensures ok == !(segment != "" && Overlong(maxLineChars, old(Pending()) + segment))
      ensures Pending() == if ok then old(Pending()) + segment else old(Pending())
    {
      if segment == "" {
        assert Pending() + segment == Pending();
        return true;
      }
      var nextLineChars := pendingChars + |segment|;
      if maxLineChars.AtMost? && nextLineChars > maxLineChars.chars {
        return false;
      }
      assert (pendingParts + [segment])[..|pendingParts|] == pendingParts;
      pendingParts := pendingParts + [segment];
      pendingChars := nextLineChars;
      return true;
    }

    /** Index and end of the first break of `text` within [from, end), or `end` twice. */
    method NextBreak(text: string, from: nat, end: nat) returns (start: nat, stop: nat)
      requires from <= end <= |text|
      requires end == |text| || text[end] == '\r'
      requires end == |text| ==> text == "" || text[|text| - 1] != '\r'
      ensures from <= start <= stop <= end
      ensures BreakFree(text[from..start])
      ensures start == stop ==> start == end
      ensures start < stop ==> SettledBreak(text[start..stop], text[stop..])
    {
      start := from;
      while start < end && !IsBreak(text[start])
        invariant from <= start <= end
        invariant BreakFree(text[from..start])
      {
        assert text[from..start + 1] == text[from..start] + [text[start]];
        start := start + 1;
      }
      if start == end {
        stop := end;
      } else if text[start] == '\r' && start + 1 < end && text[start + 1] == '\n' {
        stop := start + 2;
        assert text[start..stop] == "\r\n";
      } else {
        stop := start + 1;
        assert text[start..stop] == [text[start]];
      }
    }

    /** A CR deferred from the previous chunk ends its line, together with a leading LF. */
    method ResolveDeferred(text: string) returns (lines: seq<string>, textStart: nat)
      requires Valid() && text != ""
      modifies this
      ensures Valid() && !deferredCr && textStart <= |text|
      ensures textStart == 0 || text[0] == '\n'
      ensures textStart <= 1
      ensures Continues(maxLineChars, old(Residual()) + text, lines, Pending() + text[textStart..])
    {
      lines, textStart := [], 0;
      ghost var head := Pending();
      if deferredCr {
        deferredCr := false;
        var line := TakeLine();
        lines := [line];
        if text[0] == '\n' {
          textStart := 1;
          assert head + "\r" + text == head + "\r\n" + text[1..];
          LineEnds(maxLineChars, head, "\r\n", text[1..]);
        } else {
          LineEnds(maxLineChars, head, "\r", text);
        }
        assert "" + text[textStart..] == text[textStart..];
      } else {
        ContinuesRefl(maxLineChars, head + text);
        assert head + "" + text == head + text[0..];
      }
    }

    /** The segment before a settled break completes a line. */
    method EndLine(segment: string, ghost brk: string, ghost after: string)
      returns (line: string, ok: bool)
      requires Valid() && !deferredCr && BreakFree(segment) && SettledBreak(brk, after)
      modifies `pendingParts, `pendingChars
      ensures !ok ==> Fails(maxLineChars, old(Pending()) + (segment + brk + after), [])
      ensures ok ==> Valid() && Pending() == ""
      ensures ok ==> Continues(maxLineChars, old(Pending()) + (segment + brk + after), [line], after)
    {
      ghost var head := Pending() + segment;
      Regroup(Pending(), segment, brk, after);
      ok := AppendSegment(segment);
      if !ok {
        LineTooLong(maxLineChars, head);
        FailsAppend(maxLineChars, head, [], brk + after);
        return "", false;
      }
      LineEnds(maxLineChars, head, brk, after);
      line := TakeLine();
    }

    /** The scanning loop: every line that ends inside the chunk. */
    method FeedLines(text: string, from: nat, scanEnd: nat)
      returns (lines: seq<string>, ok: bool, segmentStart: nat)
      requires Valid() && !deferredCr && from <= scanEnd <= |text|
      requires scanEnd == |text| || text[scanEnd] == '\r'
      requires scanEnd == |text| ==> text == "" || text[|text| - 1] != '\r'
      modifies `pendingParts, `pendingChars
      ensures !ok ==> Fails(maxLineChars, old(Pending()) + text[from..], lines)
      ensures ok ==> Valid() && from <= segmentStart <= scanEnd && BreakFree(text[segmentStart..scanEnd])
      ensures ok ==> Continues(maxLineChars, old(Pending()) + text[from..], lines,
                               Pending() + text[segmentStart..])
    {
      ghost var before := Pending() + text[from..];
      lines, segmentStart := [], from;
      ContinuesRefl(maxLineChars, before);
      var start, stop := NextBreak(text, segmentStart, scanEnd);
      while start < stop
        invariant from <= segmentStart <= start <= stop <= scanEnd
        invariant Valid() && !deferredCr
        invariant BreakFree(text[segmentStart..start])
        invariant start == stop ==> start == scanEnd
        invariant start < stop ==> SettledBreak(text[start..stop], text[stop..])
        invariant Continues(maxLineChars, before, lines, Pending() + text[segmentStart..])
        decreases scanEnd - segmentStart + if start < stop then 1 else 0
      {
        ghost var unread := Pending() + text[segmentStart..];
        Cut(text, segmentStart, start, stop);
        var line, fits := EndLine(text[segmentStart..start], text[start..stop], text[stop..]);
        if !fits {
          ContinuesFails(maxLineChars, before, lines, unread, []);
          assert lines + [] == lines;
          return lines, false, segmentStart;
        }
        ContinuesTrans(maxLineChars, before, lines, unread, [line], text[stop..]);
        lines := lines + [line];
        segmentStart := stop;
        assert "" + text[segmentStart..] == text[segmentStart..];
        start, stop := NextBreak(text, segmentStart, scanEnd);
      }
      ok := true;
    }

    /** One chunk. The yielded lines and the remembered residue account for everything
        consumed so far, under every continuation of the text. */
    method Feed(text: string) returns (lines: seq<string>, ok: bool)
      requires Valid()
      modifies this
      ensures ok ==> Valid() && Continues(maxLineChars, old(Residual()) + text, lines, Residual())
      ensures !ok ==> Fails(maxLineChars, old(Residual()) + text, lines)
    {
      ghost var before := Residual() + text;
      if text == "" {
        assert before == Residual();
        ContinuesRefl(maxLineChars, before);
        return [], true;
      }
      var first, textStart := ResolveDeferred(text);
      var scanEnd := if text[|text| - 1] == '\r' then |text| - 1 else |text|;
      ghost var unread := Pending() + text[textStart..];
      var more, fits, segmentStart := FeedLines(text, textStart, scanEnd);
      lines := first + more;
      if !fits {
        ContinuesFails(maxLineChars, before, first, unread, more);
        return lines, false;
      }
      ghost var tail := Pending() + text[segmentStart..];
      ContinuesTrans(maxLineChars, before, first, unread, more, tail);
      assert text[segmentStart..] == text[segmentStart..scanEnd] + text[scanEnd..];
      assert text[scanEnd..] == if scanEnd < |text| then "\r" else "";
      ok := EndChunk(text[segmentStart..scanEnd], text[scanEnd..]);
      if !ok {
        ContinuesFails(maxLineChars, before, lines, tail, []);
        assert lines + [] == lines;
      }
    }

    /** The unfinished line grows; a final CR is deferred. */
    method EndChunk(segment: string, last: string) returns (ok: bool)
      requires Valid() && !deferredCr && BreakFree(segment) && (last == "" || last == "\r")
      modifies this
      ensures !ok ==> Fails(maxLineChars, old(Pending()) + (segment + last), [])
      ensures ok ==> Valid() && Residual() == old(Pending()) + (segment + last)
    {
      ghost var head := Pending() + segment;
      assert Pending() + (segment + last) == head + last;
      ok := AppendSegment(segment);
      if !ok {
        LineTooLong(maxLineChars, head);
        FailsAppend(maxLineChars, head, [], last);
        return;
      }
      deferredCr := last == "\r";
    }

    method Flush() returns (lines: seq<string>)
      requires Valid()
      modifies this
      ensures Valid() && Residual() == ""
      ensures Outcome(lines, true) == Expected(maxLineChars, old(Residual()))
    {
      lines := [];
      ghost var head := Pending();
      SplitTail(head);
      SplitTail("");
      if deferredCr {
        deferredCr := false;
        SplitAtBreak(head, "\r", "");
        assert head + "\r" + "" == head + "\r";
        var line := TakeLine();
        lines := [line];
      } else {
        assert head + "" == head;
      }
      if pendingParts != [] {
        var line := TakeLine();
        lines := lines + [line];
      }
    }
  }

  // ----- The whole iterator -----

  function Concat(chunks: seq<string>): string {
    if chunks == [] then "" else Concat(chunks[..|chunks| - 1]) + chunks[|chunks| - 1]
  }

  lemma TextEnds(limit: Limit, text: string, lines: seq<string>, residue: string)
    requires Continues(limit, text, lines, residue)
    ensures Expected(limit, text) == Prepend(lines, Expected(limit, residue))
  {
    assert text + "" == text && residue + "" == residue;
    assert Whole(limit, text, "") == Prepend(lines, Whole(limit, residue, ""));
  }

  /** `iter_lines`: for every chunking, the lines are those of the whole text up to the
      first overlong one, and the error is raised iff there is an overlong one. */
  method IterLines(chunks: seq<string>, limit: Limit) returns (lines: seq<string>, ok: bool)
    ensures ok <==> forall line :: line in SplitLines(Concat(chunks)) ==> !Overlong(limit, line)
    ensures ok <==> limit.Unlimited? || forall line :: line in SplitLines(Concat(chunks)) ==>
                                                        line == "" || |line| <= limit.chars
    ensures ok ==> lines == SplitLines(Concat(chunks))
    ensures !ok ==> lines < SplitLines(Concat(chunks))
    ensures !ok ==> Overlong(limit, SplitLines(Concat(chunks))[|lines|])
    ensures forall line :: line in lines ==> !Overlong(limit, line)
  {
    var splitter := new Splitter(limit);
    lines, ok := [], true;
    ghost var text := Concat(chunks);
    ContinuesRefl(limit, "");
    for i := 0 to |chunks|
      invariant splitter.Valid() && splitter.maxLineChars == limit
      invariant Continues(limit, Concat(chunks[..i]), lines, splitter.Residual())
    {
      assert chunks[..i + 1][..i] == chunks[..i];
      ContinuesAppend(limit, Concat(chunks[..i]), lines, splitter.Residual(), chunks[i]);
      ghost var before := splitter.Residual() + chunks[i];
      var more, fed := splitter.Feed(chunks[i]);
      if !fed {
        ContinuesFails(limit, Concat(chunks[..i + 1]), lines, before, more);
        FailsEverywhere(limit, chunks, i + 1, lines + more);
        return lines + more, false;
      }
      ContinuesTrans(limit, Concat(chunks[..i + 1]), lines, before, more, splitter.Residual());
      lines := lines + more;
    }
    assert chunks[..|chunks|] == chunks;
    TextEnds(limit, text, lines, splitter.Residual());
    var more := splitter.Flush();
    lines := lines + more;
    assert Expected(limit, text) == Outcome(lines, true);
  }

  lemma {:induction false} FailsEverywhere(limit: Limit, chunks: seq<string>, i: nat, lines: seq<string>)
    requires i <= |chunks| && Fails(limit, Concat(chunks[..i]), lines)
    ensures Expected(limit, Concat(chunks)) == Outcome(lines, false)
    decreases |chunks| - i
  {
    if i == |chunks| {
      assert chunks[..i] == chunks;
      assert Concat(chunks) + "" == Concat(chunks);
      assert Whole(limit, Concat(chunks), "") == Outcome(lines, false);
    } else {
      assert chunks[..i + 1][..i] == chunks[..i];
      FailsAppend(limit, Concat(chunks[..i]), lines, chunks[i]);
      FailsEverywhere(limit, chunks, i + 1, lines);
    }
  }

  /** CR and LF are the only breaks: any other text is one line. */
  lemma OnlyCrAndLfBreak(s: string)
    requires '\r' !in s && '\n' !in s
    ensures BreakFree(s) && SplitLines(s) == if s == "" then [] else [s]
  {
    SplitTail(s);
  }

  /** CR, LF and CRLF each end one line, at the end of the text or before more of it. */
  lemma EachBreakEndsALine(line: string, more: string)
    requires '\r' !in line && '\n' !in line
    ensures SplitLines(line + "\n" + more) == [line] + SplitLines(more)
    ensures SplitLines(line + "\r\n" + more) == [line] + SplitLines(more)
    ensures more == "" || more[0] != '\n' ==> SplitLines(line + "\r" + more) == [line] + SplitLines(more)
  {
    OnlyCrAndLfBreak(line);
    SplitAtBreak(line, "\n", more);
    SplitAtBreak(line, "\r\n", more);
    if more == "" || more[0] != '\n' {
      SplitAtBreak(line, "\r", more);
    }
  }

  function Terminated(lines: seq<string>): string {
    if lines == [] then "" else lines[0] + "\n" + Terminated(lines[1..])
  }

  /** The reference split inverts writing every line with a terminator. */
  lemma {:induction false} SplitInvertsTermination(lines: seq<string>)
    requires forall line :: line in lines ==> '\r' !in line && '\n' !in line
    ensures SplitLines(Terminated(lines)) == lines
  {
    if lines == [] {
      SplitTail("");
    } else {
      var first, rest := lines[0], lines[1..];
      assert first in lines && lines == [first] + rest;
      SplitInvertsTermination(rest);
      EachBreakEndsALine(first, Terminated(rest));
    }
  }
}
