/** Quote-aware Content-Type splitting and the multipart boundary rewrite
    (foghttp/_multipart/content_type.py).

    `RawParts` cuts a header at the semicolons outside quoted strings. The character
    machine of the splitter computes it, joining undoes it, and the rewrite theorem says
    what a reader of the rewritten header recovers. */
module ContentType {
  import opened Basics

  datatype Error = HeaderValueUnsupported | ContentTypeUnsupported | BoundaryUnsupported

  datatype Result = Ok(header: string) | Err(error: Error)

  const BOUNDARY_PARAMETER: string := "boundary"
  const BOUNDARY_PREFIX: string := "foghttp-"
  const BOUNDARY_BYTES: nat := 16
  const HEX_DIGITS: string := "0123456789abcdef"
  const MULTIPART_FORM_DATA: string := "multipart/form-data"

  // ----- Quoting -----

  datatype Mode = Plain | Quoted | Escaped

  function Next(mode: Mode, c: char): Mode {
    match mode
    case Escaped => Quoted
    case Quoted => if c == '\\' then Escaped else if c == '"' then Plain else Quoted
    case Plain => if c == '"' then Quoted else Plain
  }

  function After(mode: Mode, s: string): Mode
    decreases |s|
  {
    if s == "" then mode else After(Next(mode, s[0]), s[1..])
  }

  /** Index of the first semicolon outside quotes, or the length. */
  function FirstCut(mode: Mode, s: string): (i: nat)
    ensures i <= |s|
    ensures i < |s| ==> s[i] == ';'
    decreases |s|
  {
    if s == "" then 0
    else if mode.Plain? && s[0] == ';' then 0
    else 1 + FirstCut(Next(mode, s[0]), s[1..])
  }

  /** No semicolon of `s` cuts it when reading starts in `mode`. */
  predicate Uncut(mode: Mode, s: string) { FirstCut(mode, s) == |s| }

  /** Quotes and escapes of `s` are closed, and no semicolon outside them. */
  predicate Clean(s: string) { Uncut(Plain, s) && After(Plain, s) == Plain }

  // ----- Reference split and join -----

  function RawParts(s: string): (parts: seq<string>)
    ensures |parts| >= 1
    decreases |s|
  {
    var i := FirstCut(Plain, s);
    if i == |s| then [s] else [s[..i]] + RawParts(s[i + 1..])
  }

  /** The header is accepted when every quote and escape is closed. */
  predicate Accepted(s: string) { After(Plain, s) == Plain }

  function Join(parts: seq<string>): string
    requires |parts| >= 1
  {
    if |parts| == 1 then parts[0] else parts[0] + ";" + Join(parts[1..])
  }

  lemma {:induction false} AfterConcat(mode: Mode, s: string, t: string)
    ensures After(mode, s + t) == After(After(mode, s), t)
    decreases |s|
  {
    if s == "" {
      assert s + t == t;
    } else {
      assert (s + t)[0] == s[0] && (s + t)[1..] == s[1..] + t;
      AfterConcat(Next(mode, s[0]), s[1..], t);
    }
  }

  lemma {:induction false} FirstCutConcat(mode: Mode, s: string, t: string)
    ensures FirstCut(mode, s + t) ==
            if Uncut(mode, s) then |s| + FirstCut(After(mode, s), t) else FirstCut(mode, s)
    decreases |s|
  {
    if s == "" {
      assert s + t == t;
    } else {
      assert (s + t)[0] == s[0] && (s + t)[1..] == s[1..] + t;
      FirstCutConcat(Next(mode, s[0]), s[1..], t);
    }
  }

  lemma {:induction false} CutPrefixUncut(mode: Mode, s: string)
    ensures Uncut(mode, s[..FirstCut(mode, s)])
    ensures FirstCut(mode, s) < |s| ==> After(mode, s[..FirstCut(mode, s)]) == Plain
    decreases |s|
  {
    if s == "" || (mode.Plain? && s[0] == ';') {
    } else {
      CutPrefixUncut(Next(mode, s[0]), s[1..]);
      var i := FirstCut(mode, s);
      assert s[..i][1..] == s[1..][..i - 1];
    }
  }

  /** Joining the raw split with ";" gives back every header; of an accepted header
      every raw part has its quotes closed and its semicolons quoted. */
  lemma {:induction false} JoinInvertsRawParts(s: string)
    ensures Join(RawParts(s)) == s
    ensures Accepted(s) ==> AllClean(RawParts(s))
    decreases |s|
  {
    var i := FirstCut(Plain, s);
    CutPrefixUncut(Plain, s);
    if i == |s| {
      assert s[..i] == s;
    } else {
      var parts := RawParts(s[i + 1..]);
      JoinInvertsRawParts(s[i + 1..]);
      assert s == s[..i] + ";" + s[i + 1..];
      assert ([s[..i]] + parts)[1..] == parts;
      AfterConcat(Plain, s[..i] + ";", s[i + 1..]);
      AfterConcat(Plain, s[..i], ";");
    }
  }

  lemma JoinCons(first: string, rest: seq<string>)
    requires |rest| >= 1
    ensures Join([first] + rest) == first + ";" + Join(rest)
  {
    assert ([first] + rest)[1..] == rest;
  }

  lemma RawPartsCons(first: string, tail: string)
    requires Clean(first)
    ensures RawParts(first + ";" + tail) == [first] + RawParts(tail)
  {
    var s := first + ";" + tail;
    assert s == first + (";" + tail);
    FirstCutConcat(Plain, first, ";" + tail);
    assert s[..|first|] == first && s[|first| + 1..] == tail;
  }

  predicate AllClean(parts: seq<string>) { forall i :: 0 <= i < |parts| ==> Clean(parts[i]) }

  lemma Reassoc(a: seq<string>, b: seq<string>, c: seq<string>)
    ensures a + (b + c) == a + b + c
  {
  }

  lemma AcceptedCons(first: string, tail: string)
    requires Clean(first)
    ensures Accepted(first + ";" + tail) == Accepted(tail)
  {
    AfterConcat(Plain, first + ";", tail);
    AfterConcat(Plain, first, ";");
  }

  /** Splitting inverts joining: clean parts followed by any last text. */
  lemma {:induction false} RawPartsInvertJoin(parts: seq<string>, last: string)
    requires AllClean(parts)
    ensures RawParts(Join(parts + [last])) == parts + RawParts(last)
    ensures Accepted(Join(parts + [last])) == Accepted(last)
  {
    if parts == [] {
      assert parts + [last] == [last];
      assert parts + RawParts(last) == RawParts(last);
    } else {
      var first, rest := parts[0], parts[1..];
      assert parts == [first] + rest;
      RawPartsInvertJoin(rest, last);
      Reassoc([first], rest, [last]);
      Reassoc([first], rest, RawParts(last));
      JoinCons(first, rest + [last]);
      RawPartsCons(first, Join(rest + [last]));
      AcceptedCons(first, Join(rest + [last]));
    }
  }

  /** A bare semicolon at `i` ends the part read so far. */
  lemma PartEnds(done: seq<string>, current: string, text: string, i: nat)
    requires i < |text| && text[i] == ';' && Clean(current)
    ensures done + RawParts(current + text[i..]) == done + [current] + RawParts("" + text[i + 1..])
    ensures After(Plain, text[i..]) == After(Plain, text[i + 1..])
  {
    var rest := text[i + 1..];
    var parts := RawParts(rest);
    assert text[i..] == ";" + rest;
    assert current + text[i..] == current + ";" + rest;
    RawPartsCons(current, rest);
    assert "" + rest == rest;
    Reassoc(done, [current], parts);
  }

  /** Any other character at `i` extends it. */
  lemma PartGrows(current: string, text: string, i: nat)
    requires i < |text|
    ensures current + text[i..] == current + [text[i]] + text[i + 1..]
    ensures After(After(Plain, current), text[i..]) == After(After(Plain, current + [text[i]]), text[i + 1..])
  {
    assert text[i..] == [text[i]] + text[i + 1..];
    AfterConcat(Plain, current, [text[i]]);
    AfterConcat(After(Plain, current), [text[i]], text[i + 1..]);
  }

  // ----- The splitter -----

  class Splitter {
    const contentType: string
    var parts: seq<string>
    var buffer: string
    var inQuote: bool
    var escape: bool

    ghost function ModeOf(): Mode
      reads this
    {
      if escape then Escaped else if inQuote then Quoted else Plain
    }

    /** The buffer is the current part, read up to the current quoting mode. */
    ghost predicate Valid()
      reads this
    {
      (escape ==> inQuote) && Uncut(Plain, buffer) && ModeOf() == After(Plain, buffer)
    }

    constructor (contentType: string)
      ensures Valid() && parts == [] && buffer == "" && this.contentType == contentType
    {
      this.contentType := contentType;
      parts, buffer, inQuote, escape := [], "", false, false;
    }

    method Append(c: char)
      requires Valid()
      modifies this
      ensures Valid()
      ensures if old(ModeOf()).Plain? && c == ';'
              then parts == old(parts) + [old(buffer)] && buffer == ""
              else parts == old(parts) && buffer == old(buffer) + [c]
    {
      FirstCutConcat(Plain, buffer, [c]);
      AfterConcat(Plain, buffer, [c]);
      if escape {
        buffer := buffer + [c];
        escape := false;
      } else if c == '\\' && inQuote {
        buffer := buffer + [c];
        escape := true;
      } else if c == '"' {
        inQuote := !inQuote;
        buffer := buffer + [c];
      } else if c == ';' && !inQuote {
        PushPart();
      } else {
        buffer := buffer + [c];
      }
    }

    method PushPart()
      modifies `parts, `buffer
      ensures parts == old(parts) + [old(buffer)] && buffer == ""
    {
      parts := parts + [buffer];
      buffer := "";
    }

    /** The whole split; None is the unsupported-header error. */
    method Split() returns (r: Option<seq<string>>)
      requires Valid() && parts == [] && buffer == ""
      modifies this
      ensures r == if Accepted(contentType) then Some(RawParts(contentType)) else None
    {
      assert "" + contentType[0..] == contentType;
      assert [] + RawParts(contentType) == RawParts(contentType);
      for i := 0 to |contentType|
        invariant Valid()
        invariant RawParts(contentType) == parts + RawParts(buffer + contentType[i..])
        invariant After(Plain, contentType) == After(ModeOf(), contentType[i..])
      {
        ghost var mode, done, current := ModeOf(), parts, buffer;
        Append(contentType[i]);
        if mode.Plain? && contentType[i] == ';' {
          PartEnds(done, current, contentType, i);
        } else {
          PartGrows(current, contentType, i);
        }
      }
      if inQuote || escape {
        return None;
      }
      assert buffer + contentType[|contentType|..] == buffer;
      PushPart();
      return Some(parts);
    }
  }

  // ----- Stripped parts -----

  /** The characters that str.strip removes. */
  predicate IsSpace(c: char) {
    var n := c as int;
    || 0x09 <= n <= 0x0d || 0x1c <= n <= 0x20 || n == 0x85 || n == 0xa0 || n == 0x1680
    || 0x2000 <= n <= 0x200a || n == 0x2028 || n == 0x2029 || n == 0x202f || n == 0x205f || n == 0x3000
  }

  function StripLeft(s: string): string {
    if s != "" && IsSpace(s[0]) then StripLeft(s[1..]) else s
  }

  function StripRight(s: string): string {
    if s != "" && IsSpace(s[|s| - 1]) then StripRight(s[..|s| - 1]) else s
  }

  function Strip(s: string): string { StripRight(StripLeft(s)) }

  /** The nonempty stripped parts, in order. */
  function StripAll(parts: seq<string>): seq<string> {
    if parts == [] then []
    else
      var last := Strip(parts[|parts| - 1]);
      StripAll(parts[..|parts| - 1]) + if last == "" then [] else [last]
  }

  function StrippedParts(s: string): Option<seq<string>> {
    if Accepted(s) then Some(StripAll(RawParts(s))) else None
  }

  method ComputeStrippedParts(contentType: string) returns (r: Option<seq<string>>)
    ensures r == StrippedParts(contentType)
  {
    var splitter := new Splitter(contentType);
    var raw := splitter.Split();
    if raw.None? {
      return None;
    }
    var parts := [];
    for i := 0 to |raw.value|
      invariant parts == StripAll(raw.value[..i])
    {
      assert raw.value[..i + 1][..i] == raw.value[..i];
      var stripped := Strip(raw.value[i]);
      if stripped != "" {
        parts := parts + [stripped];
      }
    }
    assert raw.value[..|raw.value|] == raw.value;
    return Some(parts);
  }

  predicate Trimmed(s: string) { s == "" || (!IsSpace(s[0]) && !IsSpace(s[|s| - 1])) }

  lemma {:induction false} StripLeftFacts(s: string)
    ensures var t := StripLeft(s); t == "" || !IsSpace(t[0])
    ensures |StripLeft(s)| <= |s|
    ensures Clean(s) ==> Clean(StripLeft(s))
  {
    if s == "" || !IsSpace(s[0]) {
    } else {
      assert Next(Plain, s[0]) == Plain;
      StripLeftFacts(s[1..]);
    }
  }

  lemma {:induction false} StripRightFacts(s: string)
    ensures StripRight(s) <= s
    ensures var t := StripRight(s); t == "" || !IsSpace(t[|t| - 1])
    ensures s != "" && !IsSpace(s[0]) ==> StripRight(s) != ""
    ensures Clean(s) ==> Clean(StripRight(s))
  {
    if s == "" || !IsSpace(s[|s| - 1]) {
    } else {
      var t := s[..|s| - 1];
      assert s == t + [s[|s| - 1]];
      AfterConcat(Plain, t, [s[|s| - 1]]);
      FirstCutConcat(Plain, t, [s[|s| - 1]]);
      StripRightFacts(t);
    }
  }

  lemma StripFacts(s: string)
    ensures Trimmed(Strip(s)) && |Strip(s)| <= |s|
    ensures Clean(s) ==> Clean(Strip(s))
  {
    StripLeftFacts(s);
    StripRightFacts(StripLeft(s));
  }

  lemma StripSpaced(s: string)
    requires Trimmed(s)
    ensures Strip(s) == s && Strip(" " + s) == s
  {
    assert (" " + s)[1..] == s;
  }

  predicate AllTidy(parts: seq<string>) {
    forall i :: 0 <= i < |parts| ==> parts[i] != "" && Trimmed(parts[i])
  }

  lemma {:induction false} StripAllFacts(parts: seq<string>)
    ensures AllTidy(StripAll(parts))
    ensures AllClean(parts) ==> AllClean(StripAll(parts))
  {
    if parts == [] {
    } else {
      StripAllFacts(parts[..|parts| - 1]);
      StripFacts(parts[|parts| - 1]);
    }
  }

  lemma {:induction false} StripAllConcat(a: seq<string>, b: seq<string>)
    ensures StripAll(a + b) == StripAll(a) + StripAll(b)
  {
    if b == [] {
      assert a + b == a;
    } else {
      assert (a + b)[..|a + b| - 1] == a + b[..|b| - 1];
      StripAllConcat(a, b[..|b| - 1]);
    }
  }

  // ----- The rewrite -----

  predicate IsHeaderValue(s: string) { forall i :: 0 <= i < |s| ==> 0x20 <= s[i] as int < 0x7f }

  function BeforeEquals(s: string): string {
    if s == "" || s[0] == '=' then "" else [s[0]] + BeforeEquals(s[1..])
  }

  function ParameterName(parameter: string): string { Lower(Strip(BeforeEquals(parameter))) }

  predicate NamesBoundary(parameter: string) { ParameterName(parameter) == BOUNDARY_PARAMETER }

  function BoundaryParameter(boundary: string): string { BOUNDARY_PARAMETER + "=" + boundary }

  /** "; ".join */
  function JoinSpaced(parts: seq<string>): string
    requires |parts| >= 1
  {
    if |parts| == 1 then parts[0] else parts[0] + "; " + JoinSpaced(parts[1..])
  }

  function WithBoundary(parts: seq<string>, boundary: string): string
    requires |parts| >= 1
  {
    JoinSpaced(parts + [BoundaryParameter(boundary)])
  }

  /** `explicit_content_type_with_boundary`, over the reference split. */
  function Rewrite(contentType: string, boundary: string): Result {
    if !IsHeaderValue(contentType) then Err(HeaderValueUnsupported)
    else match StrippedParts(contentType)
      case None => Err(ContentTypeUnsupported)
      case Some(parts) =>
        if parts == [] || Lower(parts[0]) != MULTIPART_FORM_DATA then Err(ContentTypeUnsupported)
        else if exists i :: 1 <= i < |parts| && NamesBoundary(parts[i]) then Err(BoundaryUnsupported)
        else Ok(WithBoundary(parts, boundary))
  }

  method ExplicitContentTypeWithBoundary(contentType: string, boundary: string) returns (r: Result)
    ensures r == Rewrite(contentType, boundary)
  {
    if !IsHeaderValue(contentType) {
      return Err(HeaderValueUnsupported);
    }
    var stripped := ComputeStrippedParts(contentType);
    if stripped.None? || stripped.value == [] {
      return Err(ContentTypeUnsupported);
    }
    var parts := stripped.value;
    if Lower(parts[0]) != MULTIPART_FORM_DATA {
      return Err(ContentTypeUnsupported);
    }
    for i := 1 to |parts|
      invariant forall j :: 1 <= j < i ==> !NamesBoundary(parts[j])
    {
      if NamesBoundary(parts[i]) {
        return Err(BoundaryUnsupported);
      }
    }
    return Ok(WithBoundary(parts, boundary));
  }

  /** "; ".join is ";".join with a space before every part but the first. */
  function Spaced(parts: seq<string>): seq<string> {
    seq(|parts|, i requires 0 <= i < |parts| => " " + parts[i])
  }

  lemma {:induction false} JoinSpacedIsJoin(parts: seq<string>)
    requires |parts| >= 1
    ensures JoinSpaced(parts) == Join(Headed(parts))
  {
    var qs := [parts[0]] + Spaced(parts[1..]);
    if |parts| == 1 {
      assert qs == [parts[0]];
    } else {
      JoinSpacedIsJoin(parts[1..]);
      var tail := parts[1..];
      var spaced := [tail[0]] + Spaced(tail[1..]);
      var shifted := qs[1..];
      assert shifted == [" " + tail[0]] + Spaced(tail[1..]);
      assert shifted[1..] == spaced[1..];
      assert Join(shifted) == " " + Join(spaced);
    }
  }

  lemma CleanSpaced(part: string)
    requires Clean(part)
    ensures Clean(" " + part)
  {
    assert (" " + part)[1..] == part;
  }

  lemma {:induction false} StripAllSpaced(parts: seq<string>)
    requires AllTidy(parts)
    ensures StripAll(Spaced(parts)) == parts && StripAll(parts) == parts
  {
    if parts == [] {
    } else {
      var n := |parts| - 1;
      assert Spaced(parts)[..n] == Spaced(parts[..n]);
      StripAllSpaced(parts[..n]);
      StripSpaced(parts[n]);
    }
  }

  function Headed(parts: seq<string>): seq<string>
    requires |parts| >= 1
  {
    [parts[0]] + Spaced(parts[1..])
  }

  lemma HeadedClean(parts: seq<string>)
    requires |parts| >= 1 && AllClean(parts)
    ensures AllClean(Headed(parts))
  {
    forall i | 0 <= i < |parts| ensures Clean(Headed(parts)[i]) {
      CleanSpaced(parts[i]);
    }
  }

  lemma HeadedReads(parts: seq<string>)
    requires |parts| >= 1 && AllTidy(parts) && AllClean(parts)
    ensures AllClean(Headed(parts)) && StripAll(Headed(parts)) == parts
  {
    HeadedClean(parts);
    StripAllConcat([parts[0]], Spaced(parts[1..]));
    StripAllSpaced(parts[1..]);
    StripAllSpaced([parts[0]]);
    assert [parts[0]] + parts[1..] == parts;
  }

  /** Reading the rewritten header: the old parts, then whatever the boundary parameter
      itself splits into. */
  lemma ResplitWithBoundary(parts: seq<string>, boundary: string)
    requires |parts| >= 1 && AllTidy(parts) && AllClean(parts)
    ensures var last := " " + BoundaryParameter(boundary);
            && Accepted(WithBoundary(parts, boundary)) == Accepted(last)
            && StripAll(RawParts(WithBoundary(parts, boundary))) == parts + StripAll(RawParts(last))
  {
    var parameter := BoundaryParameter(boundary);
    var last := " " + parameter;
    JoinSpacedIsJoin(parts + [parameter]);
    assert Headed(parts + [parameter]) == Headed(parts) + [last];
    HeadedReads(parts);
    RawPartsInvertJoin(Headed(parts), last);
    StripAllConcat(Headed(parts), RawParts(last));
  }

  /** A boundary that reads back as itself: quotes closed, no bare semicolon, and no
      trailing space for the reader to strip. */
  predicate ReadableBoundary(boundary: string) {
    Clean(boundary) && (boundary == "" || !IsSpace(boundary[|boundary| - 1]))
  }

  lemma PrefixTransparent(lead: string, s: string)
    requires '"' !in lead && ';' !in lead
    ensures After(Plain, lead + s) == After(Plain, s) && Uncut(Plain, lead + s) == Uncut(Plain, s)
  {
    PlainText(lead);
    AfterConcat(Plain, lead, s);
    FirstCutConcat(Plain, lead, s);
  }

  lemma {:induction false} PlainText(s: string)
    requires '"' !in s && ';' !in s
    ensures Clean(s)
  {
    if s == "" {
    } else {
      PlainText(s[1..]);
    }
  }

  /** A last parameter `lead + value`, with a harmless nonblank lead, reads back as one part. */
  lemma ParameterReads(lead: string, value: string)
    requires '"' !in lead && ';' !in lead && lead != "" && Trimmed(lead)
    ensures var last := " " + (lead + value);
            (Accepted(last) && StripAll(RawParts(last)) == [lead + value]) <==> ReadableBoundary(value)
  {
    var parameter := lead + value;
    var last := " " + parameter;
    PrefixTransparent(lead, value);
    assert last[1..] == parameter;
    var i := FirstCut(Plain, last);
    if i < |last| {
      FirstPieceShort(last, i, parameter);
    } else {
      StripOne(last);
      StripFacts(last);
      if ReadableBoundary(value) {
        StripSpaced(parameter);
      }
    }
  }

  lemma StripOne(s: string)
    ensures StripAll([s]) == if Strip(s) == "" then [] else [Strip(s)]
  {
    assert [s][..0] == [];
  }

  /** If a bare semicolon cuts the parameter, the first piece read is too short. */
  lemma FirstPieceShort(s: string, i: nat, p: string)
    requires i == FirstCut(Plain, s) < |s|
    requires 2 <= i <= |p| && s[0] == ' ' && !IsSpace(s[1])
    ensures StripAll(RawParts(s)) != [p]
  {
    var piece := s[..i];
    var rest := StripAll(RawParts(s[i + 1..]));
    StripAllConcat([piece], RawParts(s[i + 1..]));
    StripOne(piece);
    StripPiece(piece);
    assert ([Strip(piece)] + rest)[0] == Strip(piece) != p;
  }

  lemma StripPiece(piece: string)
    requires |piece| >= 2 && piece[0] == ' ' && !IsSpace(piece[1])
    ensures Strip(piece) != "" && |Strip(piece)| < |piece|
  {
    assert StripLeft(piece) == piece[1..];
    StripRightFacts(piece[1..]);
  }

  lemma BoundaryReads(boundary: string)
    ensures var last := " " + BoundaryParameter(boundary);
            (Accepted(last) && StripAll(RawParts(last)) == [BoundaryParameter(boundary)])
            <==> ReadableBoundary(boundary)
  {
    ParameterReads(BOUNDARY_PARAMETER + "=", boundary);
  }

  lemma PartsReadBack(parts: seq<string>, boundary: string)
    requires |parts| >= 1 && AllTidy(parts) && AllClean(parts)
    ensures (StrippedParts(WithBoundary(parts, boundary)) == Some(parts + [BoundaryParameter(boundary)]))
            <==> ReadableBoundary(boundary)
  {
    var parameter := BoundaryParameter(boundary);
    BoundaryReads(boundary);
    ResplitWithBoundary(parts, boundary);
    AppendCancel(parts, StripAll(RawParts(" " + parameter)), [parameter]);
  }

  /** Main result: a rewritten header reads back as the original media type and stripped
      parameters, in order, plus one trailing boundary parameter, exactly when the boundary
      is readable; and then that parameter is the only one naming a boundary. */
  lemma RewriteReadsBack(contentType: string, boundary: string)
    requires Rewrite(contentType, boundary).Ok?
    ensures var parts := StrippedParts(contentType).value;
            && StrippedParts(contentType).Some? && |parts| >= 1
            && ((StrippedParts(Rewrite(contentType, boundary).header)
                 == Some(parts + [BoundaryParameter(boundary)])) <==> ReadableBoundary(boundary))
            && NamesBoundary(BoundaryParameter(boundary))
            && forall i :: 1 <= i < |parts| ==> !NamesBoundary(parts[i])
  {
    var parts := StrippedParts(contentType).value;
    JoinInvertsRawParts(contentType);
    StripAllFacts(RawParts(contentType));
    PartsReadBack(parts, boundary);
    BoundaryName(boundary);
  }

  lemma PlainHeader(s: string)
    requires '"' !in s && ';' !in s && s != "" && Trimmed(s)
    ensures StrippedParts(s) == Some([s])
  {
    PlainText(s);
    StripOne(s);
    StripSpaced(s);
  }

  /** Lower case letters, a slash and a hyphen: what can become one of these is harmless. */
  predicate IsMediaChar(c: char) { 'a' <= c <= 'z' || c == '/' || c == '-' }

  lemma FormDataChars()
    ensures |MULTIPART_FORM_DATA| > 0
    ensures forall i :: 0 <= i < |MULTIPART_FORM_DATA| ==> IsMediaChar(MULTIPART_FORM_DATA[i])
  {
  }

  lemma MediaTypeChars(media: string)
    requires Lower(media) == MULTIPART_FORM_DATA
    ensures media != "" && IsHeaderValue(media)
    ensures forall i :: 0 <= i < |media| ==> media[i] != '"' && media[i] != ';' && !IsSpace(media[i])
  {
    FormDataChars();
    forall i | 0 <= i < |media| ensures IsMediaChar(LowerChar(media[i])) {
      assert Lower(media)[i] == LowerChar(media[i]);
    }
  }

  /** The bare media type, in any casing, is accepted with every boundary. */
  lemma MediaTypeAccepted(media: string, boundary: string)
    requires Lower(media) == MULTIPART_FORM_DATA
    ensures StrippedParts(media) == Some([media]) && Rewrite(media, boundary).Ok?
  {
    MediaTypeChars(media);
    PlainHeader(media);
  }

  lemma SemicolonUnreadable()
    ensures !ReadableBoundary(";")
  {
  }

  /** A boundary with a bare semicolon is accepted and does not read back. */
  lemma SemicolonIsLost(media: string)
    requires Lower(media) == MULTIPART_FORM_DATA
    ensures Rewrite(media, ";").Ok?
    ensures StrippedParts(Rewrite(media, ";").header) != Some([media] + [BoundaryParameter(";")])
  {
    MediaTypeAccepted(media, ";");
    SemicolonUnreadable();
    RewriteReadsBack(media, ";");
  }

  /** `generate_boundary`: the prefix and hexadecimal digits. */
  predicate IsGenerated(boundary: string) {
    && BOUNDARY_PREFIX <= boundary
    && |boundary| == |BOUNDARY_PREFIX| + 2 * BOUNDARY_BYTES
    && forall i :: |BOUNDARY_PREFIX| <= i < |boundary| ==> boundary[i] in HEX_DIGITS
  }

  lemma GeneratedReadable(boundary: string)
    requires IsGenerated(boundary)
    ensures ReadableBoundary(boundary)
  {
    forall i | 0 <= i < |boundary| ensures boundary[i] in BOUNDARY_PREFIX + HEX_DIGITS {
      assert i < |BOUNDARY_PREFIX| ==> boundary[i] == BOUNDARY_PREFIX[i];
    }
    assert forall c :: c in BOUNDARY_PREFIX + HEX_DIGITS ==> c != '"' && c != ';' && !IsSpace(c);
    PlainText(boundary);
  }

  /** With a boundary the program generates, every rewritten header reads back. */
  lemma GeneratedReadsBack(contentType: string, boundary: string)
    requires Rewrite(contentType, boundary).Ok? && IsGenerated(boundary)
    ensures StrippedParts(contentType).Some?
    ensures StrippedParts(Rewrite(contentType, boundary).header)
            == Some(StrippedParts(contentType).value + [BoundaryParameter(boundary)])
  {
    GeneratedReadable(boundary);
    RewriteReadsBack(contentType, boundary);
  }

  lemma AppendCancel(a: seq<string>, b: seq<string>, c: seq<string>)
    ensures a + b == a + c <==> b == c
  {
    assert (a + b)[|a|..] == b && (a + c)[|a|..] == c;
  }

  lemma BoundaryName(boundary: string)
    ensures NamesBoundary(BoundaryParameter(boundary))
  {
    BeforeEqualsOf("boundary", boundary);
    assert BoundaryParameter(boundary) == "boundary" + "=" + boundary;
    StripSpaced("boundary");
    assert Lower("boundary") == "boundary";
  }

  lemma {:induction false} BeforeEqualsOf(name: string, value: string)
    requires '=' !in name
    ensures BeforeEquals(name + "=" + value) == name
  {
    if name == "" {
    } else {
      assert (name + "=" + value)[1..] == name[1..] + "=" + value;
      BeforeEqualsOf(name[1..], value);
    }
  }

  /** A form-data media type without a boundary parameter. */
  predicate Rewritable(parts: seq<string>) {
    && parts != [] && Lower(parts[0]) == MULTIPART_FORM_DATA
    && forall i :: 1 <= i < |parts| ==> !NamesBoundary(parts[i])
  }

  lemma {:induction false} PartsAreTheSplit(parts: seq<string>)
    requires |parts| >= 1 && AllClean(parts)
    ensures Accepted(Join(parts)) && RawParts(Join(parts)) == parts
  {
    var first := parts[0];
    if |parts| == 1 {
      CleanIsOnePart(first);
    } else {
      var rest := parts[1..];
      PartsAreTheSplit(rest);
      RawPartsCons(first, Join(rest));
      AcceptedCons(first, Join(rest));
      assert [first] + rest == parts;
    }
  }

  lemma CleanIsOnePart(s: string)
    requires Clean(s)
    ensures RawParts(s) == [s] && Accepted(s)
  {
  }

  /** A header is rewritten iff it is printable ASCII and consists of parts, with semicolons
      between them and their own quotes closed and semicolons quoted, of which the first that
      is not blank is the form-data media type and no later one names a boundary. */
  lemma RewriteOkIff(contentType: string, boundary: string)
    ensures Rewrite(contentType, boundary).Ok? <==>
            (&& IsHeaderValue(contentType)
             && exists parts: seq<string> ::
                  |parts| >= 1 && AllClean(parts) && Join(parts) == contentType && Rewritable(StripAll(parts)))
  {
    if Rewrite(contentType, boundary).Ok? {
      JoinInvertsRawParts(contentType);
      var parts := RawParts(contentType);
      assert |parts| >= 1 && AllClean(parts) && Join(parts) == contentType && Rewritable(StripAll(parts));
    }
    if parts: seq<string> :|
       |parts| >= 1 && AllClean(parts) && Join(parts) == contentType && Rewritable(StripAll(parts)) {
      PartsAreTheSplit(parts);
    }
  }

  /** Any other media type is refused, whatever its parameters. */
  lemma OtherMediaRefused(media: string, rest: string, boundary: string)
    requires '"' !in media && ';' !in media && media != "" && Trimmed(media) && Lower(media) != MULTIPART_FORM_DATA
    requires (rest == "" || rest[0] == ';') && IsHeaderValue(media + rest)
    ensures Rewrite(media + rest, boundary) == Err(ContentTypeUnsupported)
  {
    if rest == "" {
      PlainHeader(media);
      assert media + rest == media;
    } else {
      var tail := rest[1..];
      PlainText(media);
      RawPartsCons(media, tail);
      assert media + ";" + tail == media + rest;
      StripAllConcat([media], RawParts(tail));
      StripOne(media);
      StripSpaced(media);
    }
  }

  /** A parameter called boundary, in any casing and with space around the name, counts. */
  lemma BoundaryAnyCasing(name: string, value: string)
    requires '=' !in name
    ensures NamesBoundary(name + "=" + value) <==> Lower(Strip(name)) == BOUNDARY_PARAMETER
  {
    BeforeEqualsOf(name, value);
  }

  // ----- Quoted strings -----

  /** A backslash before every quote and every backslash. */
  function Escape(text: string): string {
    if text == "" then ""
    else (if text[0] == '"' || text[0] == '\\' then ['\\', text[0]] else [text[0]]) + Escape(text[1..])
  }

  function Quote(text: string): string { ['"'] + Escape(text) + ['"'] }

  lemma {:induction false} EscapedStaysQuoted(text: string, rest: string)
    ensures After(Quoted, Escape(text) + rest) == After(Quoted, rest)
    ensures FirstCut(Quoted, Escape(text) + rest) == |Escape(text)| + FirstCut(Quoted, rest)
  {
    if text == "" {
      assert "" + rest == rest;
    } else {
      var tail := Escape(text[1..]) + rest;
      EscapedStaysQuoted(text[1..], rest);
      if text[0] == '"' || text[0] == '\\' {
        assert Escape(text) + rest == ['\\', text[0]] + tail;
        TwoChars(Quoted, '\\', text[0], tail);
      } else {
        assert Escape(text) + rest == [text[0]] + tail;
        OneChar(Quoted, text[0], tail);
      }
    }
  }

  lemma OneChar(mode: Mode, c: char, tail: string)
    ensures After(mode, [c] + tail) == After(Next(mode, c), tail)
    ensures !(mode.Plain? && c == ';') ==> FirstCut(mode, [c] + tail) == 1 + FirstCut(Next(mode, c), tail)
  {
    assert ([c] + tail)[1..] == tail;
  }

  lemma TwoChars(mode: Mode, c: char, d: char, tail: string)
    requires mode.Quoted?
    ensures After(mode, [c, d] + tail) == After(Next(Next(mode, c), d), tail)
    ensures Next(mode, c) != Plain ==> FirstCut(mode, [c, d] + tail) == 2 + FirstCut(Next(Next(mode, c), d), tail)
  {
    assert [c, d] + tail == [c] + ([d] + tail);
    OneChar(mode, c, [d] + tail);
    OneChar(Next(mode, c), d, tail);
  }

  /** Any text at all, semicolons, quotes and backslashes included, is safe in a quoted string. */
  lemma QuotedIsClean(text: string)
    ensures Clean(Quote(text))
  {
    var body := Escape(text) + ['"'];
    assert Quote(text) == ['"'] + body;
    OneChar(Plain, '"', body);
    EscapedStaysQuoted(text, ['"']);
    OneChar(Quoted, '"', "");
    assert ['"'] + "" == ['"'];
  }

  /** A quoted string that is not closed makes the header unacceptable. */
  lemma UnclosedIsRefused(lead: string, text: string)
    requires '"' !in lead
    ensures !Accepted(lead + ['"'] + Escape(text))
  {
    var body := ['"'] + Escape(text);
    assert lead + ['"'] + Escape(text) == lead + body;
    AfterConcat(Plain, lead, body);
    NoQuoteStaysPlain(lead);
    OneChar(Plain, '"', Escape(text));
    EscapedStaysQuoted(text, "");
    assert Escape(text) + "" == Escape(text);
  }

  lemma {:induction false} NoQuoteStaysPlain(s: string)
    requires '"' !in s
    ensures After(Plain, s) == Plain
  {
    if s == "" {
    } else {
      NoQuoteStaysPlain(s[1..]);
    }
  }

  /** A quoted parameter value, whatever it contains, is one part of the header. */
  lemma QuotedParameterIsOnePart(media: string, name: string, text: string)
    requires '"' !in media && ';' !in media && media != "" && Trimmed(media)
    requires '"' !in name && ';' !in name && name != "" && !IsSpace(name[0])
    ensures StrippedParts(media + ";" + (" " + name + "=" + Quote(text)))
            == Some([media, name + "=" + Quote(text)])
  {
    var parameter := name + "=" + Quote(text);
    assert " " + name + "=" + Quote(text) == " " + parameter;
    QuotedParameter(name, text);
    TwoPartsRead(media, parameter);
  }

  lemma QuotedParameter(name: string, text: string)
    requires '"' !in name && ';' !in name && name != "" && !IsSpace(name[0])
    ensures var parameter := name + "=" + Quote(text);
            Clean(parameter) && parameter != "" && Trimmed(parameter)
  {
    var parameter := name + "=" + Quote(text);
    assert parameter == (name + "=") + Quote(text);
    QuotedIsClean(text);
    PrefixTransparent(name + "=", Quote(text));
    assert parameter[|parameter| - 1] == '"';
  }

  lemma TwoPartsRead(media: string, parameter: string)
    requires '"' !in media && ';' !in media && media != "" && Trimmed(media)
    requires Clean(parameter) && parameter != "" && Trimmed(parameter)
    ensures StrippedParts(media + ";" + (" " + parameter)) == Some([media, parameter])
  {
    var last := " " + parameter;
    CleanSpaced(parameter);
    PlainText(media);
    CleanIsOnePart(last);
    RawPartsCons(media, last);
    AcceptedCons(media, last);
    StripAllConcat([media], [last]);
    StripOne(media);
    StripOne(last);
    StripSpaced(media);
    StripSpaced(parameter);
    assert media + ";" + last == media + ";" + (" " + parameter);
    assert [media] + [parameter] == [media, parameter];
  }

  /** In a header value the space is the only character that stripping removes. */
  lemma OnlySpaceIsSpace(s: string, i: nat)
    requires IsHeaderValue(s) && i < |s|
    ensures IsSpace(s[i]) <==> s[i] == ' '
  {
  }

  /** A header that already carries a boundary, such as a rewritten one, is refused. */
  lemma RewriteIsNotRepeatable(contentType: string, boundary: string, again: string)
    requires Rewrite(contentType, boundary).Ok? && ReadableBoundary(boundary)
    requires IsHeaderValue(Rewrite(contentType, boundary).header)
    ensures Rewrite(Rewrite(contentType, boundary).header, again) == Err(BoundaryUnsupported)
  {
    RewriteReadsBack(contentType, boundary);
    var parts := StrippedParts(Rewrite(contentType, boundary).header).value;
    assert NamesBoundary(parts[|parts| - 1]);
  }
}
