/** Buffered response bodies: collection, layered decompression and the byte reservation
    that follows them (src/core/response/body.rs, budget.rs and decompression.rs).

    A codec is an abstract reader: nonempty blocks, then end of input or an error. What
    the shared byte counter stands at when a reservation is decided depends on the other
    reservations, so it is an arbitrary sequence of values; module ByteBudget models that
    counter and gives its answers. */
module ResponseBody {
  import opened Basics
  import ByteBudget

  const DECODE_BUFFER_SIZE: nat := 8192

  type Usize = n: nat | n <= USIZE_MAX

  type Byte = b: int | 0 <= b < 256
  type Bytes = seq<Byte>

  datatype ContentCoding = Gzip | Deflate | Brotli

  datatype BodyError =
    | TooLarge(limit: nat)
    | BudgetExceeded(limit: nat)
    | CounterOverflow
    | ReservationOverflow
    | ReservationUnderflow
    | DecodeReservationOverflow
    | DecodeFailed(coding: ContentCoding)

  datatype Outcome<+T> = Ok(value: T) | Err(error: BodyError)

  // ----- Reservation -----

  /** How a reservation's answer is reported. */
  function Report(limit: Option<Usize>, verdict: ByteBudget.Verdict): Outcome<()> {
    match verdict
    case Admitted => Ok(())
    case HeldOverflow => Err(ReservationOverflow)
    case CounterOverflow => Err(BodyError.CounterOverflow)
    case LimitExceeded => Err(BudgetExceeded(if limit.Some? then limit.value else 0))
  }

  class BufferedBodyReservation {
    const limit: Option<Usize>
    const seen: nat -> Usize  // the shared counter when the k-th request is decided
    var asked: nat
    var reservedBytes: nat
    ghost var charged: int  // net effect of this reservation on the shared counter

    ghost predicate Valid()
      reads this
    {
      reservedBytes <= USIZE_MAX && charged == reservedBytes
    }

    constructor (limit: Option<Usize>, seen: nat -> Usize)
      ensures Valid() && reservedBytes == 0
      ensures this.seen == seen && this.limit == limit
    {
      this.limit, this.seen := limit, seen;
      asked, reservedBytes, charged := 0, 0, 0;
    }

    method ReserveBytes(n: nat) returns (r: Outcome<()>)
      modifies `asked, `charged
      ensures charged == if r.Ok? then old(charged) + n else old(charged)
      ensures asked == if n == 0 then old(asked) else old(asked) + 1
      ensures r == Report(limit, ByteBudget.Decide(limit, seen(old(asked)), n))
    {
      if n == 0 {
        return Ok(());
      }
      var next := seen(asked) + n;
      asked := asked + 1;
      if next > USIZE_MAX {
        return Err(CounterOverflow);
      }
      if limit.Some? && next > limit.value {
        return Err(BudgetExceeded(limit.value));
      }
      charged := charged + n;
      return Ok(());
    }

    method ReserveChunk(n: nat) returns (r: Outcome<()>)
      requires Valid()
      modifies this
      ensures Valid()
      ensures reservedBytes == if r.Ok? then old(reservedBytes) + n else old(reservedBytes)
      ensures r == Report(limit, ByteBudget.DecideChunk(limit, seen(old(asked)), old(reservedBytes), n))
      ensures r.Err? ==> ReserveError(this, old(reservedBytes), n, r.error)
    {
      if reservedBytes + n > USIZE_MAX {
        return Err(ReservationOverflow);
      }
      r := ReserveBytes(n);
      if r.Ok? {
        reservedBytes := reservedBytes + n;
      }
    }

    method ReleaseChunk(n: nat) returns (r: Outcome<()>)
      requires Valid()
      modifies this
      ensures Valid()
      ensures r == if n <= old(reservedBytes) then Ok(()) else Err(ReservationUnderflow)
      ensures reservedBytes == if r.Ok? then old(reservedBytes) - n else old(reservedBytes)
    {
      if n == 0 {
        return Ok(());
      }
      if reservedBytes < n {
        return Err(ReservationUnderflow);
      }
      charged := charged - n;
      reservedBytes := reservedBytes - n;
      return Ok(());
    }

    /** Dropping gives everything back to the shared counter. */
    method Drop()
      requires Valid()
      modifies this
      ensures Valid() && reservedBytes == 0 && charged == 0
    {
      charged := charged - reservedBytes;
      reservedBytes := 0;
    }
  }

  /** Why reserving up to `n` more bytes is refused: the reservation's own count would overflow,
      or the shared counter, at some moment, would exceed the limit or overflow. */
  ghost predicate ReserveError(reservation: BufferedBodyReservation, held: nat, n: nat, e: BodyError) {
    match e
    case ReservationOverflow => held + n > USIZE_MAX
    case BudgetExceeded(limit) => reservation.limit == Some(limit) && exists k :: reservation.seen(k) + n > limit
    case CounterOverflow => exists k :: reservation.seen(k) + n > USIZE_MAX
    case _ => false
  }

  // ----- Collection -----

  predicate Fits(maxSize: Option<Usize>, size: nat) { maxSize.Some? ==> size <= maxSize.value }

  function EnforceLimit(current: nat, chunk: nat, maxSize: Option<Usize>): (r: Outcome<()>)
    ensures r.Ok? <==> Fits(maxSize, current + chunk)
    ensures r.Ok? <==> maxSize.None? || current + chunk <= maxSize.value
    ensures r.Err? ==> maxSize.Some? && r.error == TooLarge(maxSize.value)
  {
    if maxSize.None? then Ok(())
    else if current + chunk > USIZE_MAX || current + chunk > maxSize.value then Err(TooLarge(maxSize.value))
    else Ok(())
  }

  class BufferedBodyCollector {
    var content: Bytes
    const reservation: BufferedBodyReservation
    const maxSize: Option<Usize>

    ghost predicate Valid()
      reads this, reservation
    {
      reservation.Valid() && reservation.reservedBytes == |content|
    }

    constructor (reservation: BufferedBodyReservation, maxSize: Option<Usize>)
      requires reservation.Valid() && reservation.reservedBytes == 0
      ensures Valid() && content == []
      ensures this.reservation == reservation && this.maxSize == maxSize
    {
      content := [];
      this.reservation := reservation;
      this.maxSize := maxSize;
    }

    /** The reservation keeps pace with the content, and a refused chunk changes neither. */
    method PushData(data: Bytes) returns (r: Outcome<()>)
      requires Valid()
      modifies this, reservation
      ensures Valid()
      ensures content == if r.Ok? then old(content) + data else old(content)
      ensures r.Ok? ==> Fits(maxSize, |content|)
      ensures !Fits(maxSize, |old(content)| + |data|) ==> r == Err(TooLarge(maxSize.value))
      ensures r.Err? && Fits(maxSize, |old(content)| + |data|) ==>
                ReserveError(reservation, |old(content)|, |data|, r.error)
    {
      r := EnforceLimit(|content|, |data|, maxSize);
      if r.Err? {
        return;
      }
      r := reservation.ReserveChunk(|data|);
      if r.Ok? {
        content := content + data;
      }
    }
  }

  // ----- One decode attempt -----

  type Block = b: Bytes | 0 < |b| <= DECODE_BUFFER_SIZE witness [0]

  /** What a decoder over some encoded content yields, read by read. */
  datatype Reader = Reader(blocks: seq<Block>, eof: bool)

  function Flatten(blocks: seq<Block>): Bytes {
    if blocks == [] then [] else Flatten(blocks[..|blocks| - 1]) + blocks[|blocks| - 1]
  }

  /** Why an attempt is refused: the output is over the size limit, or some prefix of it
      cannot be reserved. Neither underflow nor an overflow of the attempt's own count. */
  ghost predicate AttemptError(reservation: BufferedBodyReservation, held: nat, reader: Reader,
                               maxSize: Option<Usize>, e: BodyError) {
    if e.TooLarge? then maxSize == Some(e.limit) && !Fits(maxSize, |Flatten(reader.blocks)|)
    else ReserveError(reservation, held, |Flatten(reader.blocks)|, e)
  }

  datatype Attempt = Decoded(content: Bytes) | ReadFailed | RuntimeFailed(error: BodyError)

  /** The read loop of one attempt. A successful attempt adds exactly the decoded bytes to
      the reservation; a failed one, for whatever reason, leaves the reservation as it was
      before the attempt. */
  method DecodeReaderResult(reader: Reader, maxSize: Option<Usize>, reservation: BufferedBodyReservation)
    returns (r: Attempt)
    requires reservation.Valid()
    modifies reservation
    ensures reservation.Valid()
    ensures r.Decoded? ==> reader.eof && r.content == Flatten(reader.blocks) && Fits(maxSize, |r.content|)
    ensures r.Decoded? ==> reservation.reservedBytes == old(reservation.reservedBytes) + |r.content|
    ensures !r.Decoded? ==> reservation.reservedBytes == old(reservation.reservedBytes)
    ensures r.ReadFailed? ==> !reader.eof
    ensures r.RuntimeFailed? ==>
              AttemptError(reservation, old(reservation.reservedBytes), reader, maxSize, r.error)
  {
    var decoded: Bytes := [];
    var attemptReserved := 0;
    ghost var before := reservation.reservedBytes;
    var i := 0;
    while i < |reader.blocks|
      invariant 0 <= i <= |reader.blocks|
      invariant reservation.Valid()
      invariant decoded == Flatten(reader.blocks[..i]) && attemptReserved == |decoded|
      invariant reservation.reservedBytes == before + attemptReserved
      invariant Fits(maxSize, |decoded|)
    {
      var block := reader.blocks[i];
      assert reader.blocks[..i + 1][..i] == reader.blocks[..i];
      FlattenGrows(reader.blocks, i + 1);
      var size := EnforceLimit(|decoded|, |block|, maxSize);
      if size.Err? {
        var release := reservation.ReleaseChunk(attemptReserved);
        if release.Err? {
          assert false;  // never more than this attempt reserved
        }
        return RuntimeFailed(size.error);
      }
      var reserve := reservation.ReserveChunk(|block|);
      if reserve.Err? {
        var release := reservation.ReleaseChunk(attemptReserved);
        if release.Err? {
          assert false;  // never more than this attempt reserved
        }
        return RuntimeFailed(reserve.error);
      }
      if attemptReserved + |block| > USIZE_MAX {
        assert false;  // the attempt's bytes are part of the reservation
      }
      attemptReserved := attemptReserved + |block|;
      decoded := decoded + block;
      i := i + 1;
    }
    assert reader.blocks[..i] == reader.blocks;
    if !reader.eof {
      var release := reservation.ReleaseChunk(attemptReserved);
      if release.Err? {
        assert false;  // never more than this attempt reserved
      }
      return ReadFailed;
    }
    return Decoded(decoded);
  }

  lemma {:induction false} FlattenGrows(blocks: seq<Block>, i: nat)
    requires i <= |blocks|
    ensures Flatten(blocks[..i]) <= Flatten(blocks)
    decreases |blocks| - i
  {
    if i == |blocks| {
      assert blocks[..i] == blocks;
    } else {
      assert blocks[..i + 1][..i] == blocks[..i];
      FlattenGrows(blocks, i + 1);
    }
  }

  // ----- One layer -----

  datatype Decoder = MultiGz | Zlib | RawDeflate | BrotliDecompressor

  type Codecs = (Decoder, Bytes) -> Reader

  /** The whole output of one decoder, or None when it ends in an error. */
  function ReadAll(reader: Reader): Option<Bytes> {
    if reader.eof then Some(Flatten(reader.blocks)) else None
  }

  /** Undoing one coding; deflate accepts the zlib form first and then the raw form. */
  function Undo(codecs: Codecs, coding: ContentCoding, content: Bytes): Option<Bytes> {
    match coding
    case Gzip => ReadAll(codecs(MultiGz, content))
    case Brotli => ReadAll(codecs(BrotliDecompressor, content))
    case Deflate =>
      var zlib := ReadAll(codecs(Zlib, content));
      if zlib.Some? then zlib else ReadAll(codecs(RawDeflate, content))
  }

  function DecodersOf(coding: ContentCoding): set<Decoder> {
    match coding
    case Gzip => {MultiGz}
    case Deflate => {Zlib, RawDeflate}
    case Brotli => {BrotliDecompressor}
  }

  /** Why a layer fails: no decoder of the coding reads to the end, or one of them yields
      more than may be kept. */
  ghost predicate LayerError(codecs: Codecs, coding: ContentCoding, content: Bytes, maxSize: Option<Usize>,
                             reservation: BufferedBodyReservation, held: nat, e: BodyError) {
    if e.DecodeFailed? then e.coding == coding && Undo(codecs, coding, content) == None
    else exists d :: d in DecodersOf(coding) && AttemptError(reservation, held, codecs(d, content), maxSize, e)
  }

  method DecodeReader(coding: ContentCoding, reader: Reader, maxSize: Option<Usize>,
                      reservation: BufferedBodyReservation) returns (r: Outcome<Bytes>)
    requires reservation.Valid()
    modifies reservation
    ensures reservation.Valid()
    ensures r.Ok? ==> ReadAll(reader) == Some(r.value) && Fits(maxSize, |r.value|)
    ensures r.Ok? ==> reservation.reservedBytes == old(reservation.reservedBytes) + |r.value|
    ensures r.Err? ==> reservation.reservedBytes == old(reservation.reservedBytes)
    ensures r.Err? ==> if r.error.DecodeFailed? then r.error.coding == coding && ReadAll(reader) == None
                       else AttemptError(reservation, old(reservation.reservedBytes), reader, maxSize, r.error)
  {
    var attempt := DecodeReaderResult(reader, maxSize, reservation);
    match attempt
    case Decoded(content) => return Ok(content);
    case ReadFailed => return Err(DecodeFailed(coding));
    case RuntimeFailed(e) => return Err(e);
  }

  method DecodeDeflate(codecs: Codecs, content: Bytes, maxSize: Option<Usize>,
                       reservation: BufferedBodyReservation) returns (r: Outcome<Bytes>)
    requires reservation.Valid()
    modifies reservation
    ensures reservation.Valid()
    ensures r.Ok? ==> Undo(codecs, Deflate, content) == Some(r.value) && Fits(maxSize, |r.value|)
    ensures r.Ok? && codecs(Zlib, content).eof ==> r.value == Flatten(codecs(Zlib, content).blocks)
    ensures r.Ok? && !codecs(Zlib, content).eof ==>
              codecs(RawDeflate, content).eof && r.value == Flatten(codecs(RawDeflate, content).blocks)
    ensures r.Err? && r.error.DecodeFailed? ==> !codecs(Zlib, content).eof && !codecs(RawDeflate, content).eof
    ensures r.Ok? ==> reservation.reservedBytes == old(reservation.reservedBytes) + |r.value|
    ensures r.Err? ==> reservation.reservedBytes == old(reservation.reservedBytes)
    ensures r.Err? ==>
              LayerError(codecs, Deflate, content, maxSize, reservation, old(reservation.reservedBytes), r.error)
  {
    var attempt := DecodeReaderResult(codecs(Zlib, content), maxSize, reservation);
    match attempt
    case Decoded(decoded) => return Ok(decoded);
    case ReadFailed => r := DecodeReader(Deflate, codecs(RawDeflate, content), maxSize, reservation);
    case RuntimeFailed(e) => return Err(e);
  }

  /** Decoding one layer and giving back its encoded bytes: between layers the reservation
      is exactly the current content, and a failed layer leaves it at the encoded size. */
  method DecodeLayer(codecs: Codecs, coding: ContentCoding, content: Bytes, maxSize: Option<Usize>,
                     reservation: BufferedBodyReservation) returns (r: Outcome<Bytes>)
    requires reservation.Valid() && reservation.reservedBytes == |content|
    modifies reservation
    ensures reservation.Valid()
    ensures reservation.reservedBytes == if r.Ok? then |r.value| else |content|
    ensures r.Ok? ==> Undo(codecs, coding, content) == Some(r.value) && Fits(maxSize, |r.value|)
    ensures r.Ok? && coding.Gzip? ==> r.value == Flatten(codecs(MultiGz, content).blocks)
    ensures r.Ok? && coding.Brotli? ==> r.value == Flatten(codecs(BrotliDecompressor, content).blocks)
    ensures r.Err? ==> LayerError(codecs, coding, content, maxSize, reservation, |content|, r.error)
  {
    match coding {
      case Gzip => r := DecodeReader(coding, codecs(MultiGz, content), maxSize, reservation);
      case Deflate => r := DecodeDeflate(codecs, content, maxSize, reservation);
      case Brotli => r := DecodeReader(coding, codecs(BrotliDecompressor, content), maxSize, reservation);
    }
    if r.Ok? {
      var release := reservation.ReleaseChunk(|content|);
      if release.Err? {
        assert false;  // the encoded bytes are still reserved here
      }
    }
  }

  // ----- All layers -----

  /** Undoing the listed codings from the last listed to the first. */
  function Peel(codecs: Codecs, codings: seq<ContentCoding>, content: Bytes): Option<Bytes>
    decreases |codings|
  {
    if codings == [] then Some(content)
    else
      var n := |codings| - 1;
      var inner := Undo(codecs, codings[n], content);
      if inner.None? then None else Peel(codecs, codings[..n], inner.value)
  }

  /** The error of the first layer, from the last listed coding, that fails. */
  ghost predicate PeelError(codecs: Codecs, codings: seq<ContentCoding>, content: Bytes, maxSize: Option<Usize>,
                            reservation: BufferedBodyReservation, e: BodyError)
    decreases |codings|
  {
    codings != [] &&
    var n := |codings| - 1;
    var inner := Undo(codecs, codings[n], content);
    || LayerError(codecs, codings[n], content, maxSize, reservation, |content|, e)
    || (inner.Some? && PeelError(codecs, codings[..n], inner.value, maxSize, reservation, e))
  }

  /** All layers: the result is the peeled content, the reservation is exactly its size, and
      after an error everything has been given back. */
  method DecodeSupportedBody(codecs: Codecs, content: Bytes, codings: seq<ContentCoding>,
                             maxSize: Option<Usize>, reservation: BufferedBodyReservation)
    returns (r: Outcome<Bytes>)
    requires reservation.Valid() && reservation.reservedBytes == |content|
    modifies reservation
    ensures reservation.Valid()
    ensures r.Ok? ==> Peel(codecs, codings, content) == Some(r.value)
    ensures r.Ok? && codings != [] ==> Fits(maxSize, |r.value|)
    ensures reservation.reservedBytes == if r.Ok? then |r.value| else 0
    ensures r.Err? ==> PeelError(codecs, codings, content, maxSize, reservation, r.error)
  {
    var current := content;
    var i := |codings|;
    assert codings[..i] == codings;
    while i > 0
      invariant 0 <= i <= |codings|
      invariant reservation.Valid() && reservation.reservedBytes == |current|
      invariant Peel(codecs, codings[..i], current) == Peel(codecs, codings, content)
      invariant i < |codings| ==> Fits(maxSize, |current|)
      invariant forall e :: PeelError(codecs, codings[..i], current, maxSize, reservation, e) ==>
                  PeelError(codecs, codings, content, maxSize, reservation, e)
    {
      i := i - 1;
      assert codings[..i + 1][..i] == codings[..i];
      var layer := DecodeLayer(codecs, codings[i], current, maxSize, reservation);
      if layer.Err? {
        reservation.Drop();
        return layer;
      }
      current := layer.value;
    }
    return Ok(current);
  }

  /** The sender applies the codings in the order listed (section 8.4 of RFC 9110). */
  function EncodeAll(encode: (ContentCoding, Bytes) -> Bytes, codings: seq<ContentCoding>, plain: Bytes): Bytes {
    if codings == [] then plain
    else encode(codings[|codings| - 1], EncodeAll(encode, codings[..|codings| - 1], plain))
  }

  /** Whatever the codecs, if undoing inverts each single coding then peeling inverts the
      whole listed stack: the layers are undone in reverse listed order. */
  lemma {:induction false} PeelInvertsEncoding(codecs: Codecs, encode: (ContentCoding, Bytes) -> Bytes,
                                               codings: seq<ContentCoding>, plain: Bytes)
    requires forall coding, x :: Undo(codecs, coding, encode(coding, x)) == Some(x)
    ensures Peel(codecs, codings, EncodeAll(encode, codings, plain)) == Some(plain)
  {
    if codings == [] {
    } else {
      PeelInvertsEncoding(codecs, encode, codings[..|codings| - 1], plain);
    }
  }

  // ----- The decoding plan -----

  datatype Plan = Decode(codings: seq<ContentCoding>) | LeaveEncoded

  datatype Item = Skipped | Unknown | Supported(coding: ContentCoding)

  function Classify(item: string): Item {
    var coding := Lower(Trim(item));
    if coding == "" || coding == "identity" then Skipped
    else if coding == "gzip" || coding == "x-gzip" then Supported(Gzip)
    else if coding == "deflate" then Supported(Deflate)
    else if coding == "br" then Supported(Brotli)
    else Unknown
  }

  /** All list items of all field lines, in order; None for a value that is not readable. */
  function Listed(values: seq<Option<string>>): (items: seq<Item>) {
    if values == [] then []
    else Listed(values[..|values| - 1]) + ItemsOf(values[|values| - 1])
  }

  function ItemsOf(value: Option<string>): seq<Item> {
    match value
    case None => [Unknown]
    case Some(v) => ClassifyAll(SplitAll(v, ','))
  }

  function ClassifyAll(items: seq<string>): (r: seq<Item>)
    ensures |r| == |items|
    ensures forall i :: 0 <= i < |items| ==> r[i] == Classify(items[i])
  {
    seq(|items|, i requires 0 <= i < |items| => Classify(items[i]))
  }

  function Codings(items: seq<Item>): seq<ContentCoding> {
    if items == [] then []
    else
      var last := items[|items| - 1];
      Codings(items[..|items| - 1]) + if last.Supported? then [last.coding] else []
  }

  lemma {:induction false} CodingsConcat(a: seq<Item>, b: seq<Item>)
    ensures Codings(a + b) == Codings(a) + Codings(b)
  {
    if b == [] {
      assert a + b == a;
    } else {
      assert (a + b)[..|a + b| - 1] == a + b[..|b| - 1];
      CodingsConcat(a, b[..|b| - 1]);
    }
  }

  lemma {:induction false} ListedGrows(values: seq<Option<string>>, i: nat)
    requires i <= |values|
    ensures Listed(values[..i]) <= Listed(values)
    decreases |values| - i
  {
    if i == |values| {
      assert values[..i] == values;
    } else {
      assert values[..i + 1][..i] == values[..i];
      ListedGrows(values, i + 1);
    }
  }

  predicate AllBlank(s: string) { forall i :: 0 <= i < |s| ==> IsBlank(s[i]) }

  lemma {:induction false} TrimBlanks(a: string, w: string, b: string)
    requires AllBlank(a) && AllBlank(b) && w != "" && !IsBlank(w[0]) && !IsBlank(w[|w| - 1])
    ensures Trim(a + w + b) == w
    decreases |a| + |b|
  {
    var s := a + w + b;
    if a != "" {
      TrimBlanks(a[1..], w, b);
      assert s[0] == a[0] && s[1..] == a[1..] + w + b;
    } else if b != "" {
      TrimBlanks(a, w, b[..|b| - 1]);
      assert s[0] == w[0] && s[|s| - 1] == b[|b| - 1] && s[..|s| - 1] == a + w + b[..|b| - 1];
    } else {
      assert s == w;
    }
  }

  /** `item` is `word` in some casing, with blanks around it. */
  ghost predicate Spells(item: string, word: string) {
    exists a, w, b :: item == a + w + b && AllBlank(a) && AllBlank(b) && Lower(w) == word
  }

  lemma SpelledIsClassified(item: string, word: string)
    requires Spells(item, word) && word != "" && !IsBlank(word[0]) && !IsBlank(word[|word| - 1])
    ensures Lower(Trim(item)) == word
  {
    var a, w, b :| item == a + w + b && AllBlank(a) && AllBlank(b) && Lower(w) == word;
    assert |w| == |word| && LowerChar(w[0]) == word[0] && LowerChar(w[|w| - 1]) == word[|word| - 1];
    TrimBlanks(a, w, b);
  }

  /** What the tokens name, in any casing and with blanks around them. */
  lemma TokensName(item: string)
    ensures Spells(item, "gzip") ==> Classify(item) == Supported(Gzip)
    ensures Spells(item, "x-gzip") ==> Classify(item) == Supported(Gzip)
    ensures Spells(item, "deflate") ==> Classify(item) == Supported(Deflate)
    ensures Spells(item, "br") ==> Classify(item) == Supported(Brotli)
    ensures Spells(item, "identity") ==> Classify(item) == Skipped
  {
    assert "gzip"[0] == 'g' && "x-gzip"[0] == 'x' && "deflate"[0] == 'd' && "br"[0] == 'b' && "identity"[0] == 'i';
    if Spells(item, "gzip") { SpelledIsClassified(item, "gzip"); }
    if Spells(item, "x-gzip") { SpelledIsClassified(item, "x-gzip"); }
    if Spells(item, "deflate") { SpelledIsClassified(item, "deflate"); }
    if Spells(item, "br") { SpelledIsClassified(item, "br"); }
    if Spells(item, "identity") { SpelledIsClassified(item, "identity"); }
  }

  /** And any other token names nothing that is supported. */
  lemma OtherTokensAreUnknown(item: string, word: string)
    requires Spells(item, word) && word != "" && !IsBlank(word[0]) && !IsBlank(word[|word| - 1])
    requires word !in {"gzip", "x-gzip", "deflate", "br", "identity"}
    ensures Classify(item) == Unknown
  {
    SpelledIsClassified(item, word);
  }

  /** One field line: tokens joined by commas are read as the codings they name, in order. */
  lemma {:induction false} TokensReadBack(items: seq<string>, codings: seq<ContentCoding>)
    requires |items| == |codings|
    requires forall i :: 0 <= i < |items| ==> Classify(items[i]) == Supported(codings[i])
    ensures Codings(ClassifyAll(items)) == codings && Unknown !in ClassifyAll(items)
  {
    if items == [] {
    } else {
      var n := |items| - 1;
      TokensReadBack(items[..n], codings[..n]);
      assert ClassifyAll(items)[..n] == ClassifyAll(items[..n]);
      assert codings == codings[..n] + [codings[n]];
    }
  }

  lemma LineReadsBack(items: seq<string>, codings: seq<ContentCoding>)
    requires |items| == |codings| >= 1
    requires forall i :: 0 <= i < |items| ==> Classify(items[i]) == Supported(codings[i]) && ',' !in items[i]
    ensures Codings(ItemsOf(Some(JoinWith(items, ',')))) == codings
    ensures Unknown !in ItemsOf(Some(JoinWith(items, ',')))
  {
    SplitAllInvertsJoin(items, ',');
    TokensReadBack(items, codings);
  }

  function Concatenated(lines: seq<seq<ContentCoding>>): seq<ContentCoding> {
    if lines == [] then [] else Concatenated(lines[..|lines| - 1]) + lines[|lines| - 1]
  }

  /** Several field lines are read in order, like one. */
  lemma {:induction false} LinesReadBack(values: seq<Option<string>>, lines: seq<seq<ContentCoding>>)
    requires |values| == |lines|
    requires forall k :: 0 <= k < |values| ==>
               Codings(ItemsOf(values[k])) == lines[k] && Unknown !in ItemsOf(values[k])
    ensures Codings(Listed(values)) == Concatenated(lines) && Unknown !in Listed(values)
  {
    if values == [] {
    } else {
      var n := |values| - 1;
      LinesReadBack(values[..n], lines[..n]);
      CodingsConcat(Listed(values[..n]), ItemsOf(values[n]));
    }
  }

  /** What one more field line adds. */
  lemma NextLine(values: seq<Option<string>>, i: nat)
    requires i < |values|
    ensures Codings(Listed(values[..i + 1])) == Codings(Listed(values[..i])) + Codings(ItemsOf(values[i]))
    ensures Unknown in Listed(values[..i + 1]) <==> Unknown in Listed(values[..i]) || Unknown in ItemsOf(values[i])
    ensures Unknown in ItemsOf(values[i]) ==> Unknown in Listed(values)
  {
    ListedNext(values, i);
    CodingsConcat(Listed(values[..i]), ItemsOf(values[i]));
    ListedGrows(values, i + 1);
    PrefixMembers(Listed(values[..i + 1]), Listed(values));
  }

  lemma ListedNext(values: seq<Option<string>>, i: nat)
    requires i < |values|
    ensures Listed(values[..i + 1]) == Listed(values[..i]) + ItemsOf(values[i])
  {
    assert values[..i + 1][..i] == values[..i];
  }

  lemma PrefixMembers(a: seq<Item>, b: seq<Item>)
    requires a <= b
    ensures forall x :: x in a ==> x in b
  {
  }

  /** A body is decoded iff some coding is listed and none is unknown or unreadable; the
      plan is then the listed codings in order. */
  method ContentCodingPlan(values: seq<Option<string>>) returns (plan: Plan)
    ensures plan.Decode? <==> (Unknown !in Listed(values) && Codings(Listed(values)) != [])
    ensures plan.Decode? ==> plan.codings == Codings(Listed(values))
  {
    var codings := [];
    for i := 0 to |values|
      invariant Unknown !in Listed(values[..i]) && codings == Codings(Listed(values[..i]))
    {
      NextLine(values, i);
      if values[i].None? {
        assert Unknown in ItemsOf(values[i]);
        return LeaveEncoded;
      }
      var more := CodingsOf(values[i].value);
      if more.None? {
        assert Unknown in ItemsOf(values[i]);
        return LeaveEncoded;
      }
      codings := codings + more.value;
    }
    assert values[..|values|] == values;
    if codings == [] {
      return LeaveEncoded;
    }
    return Decode(codings);
  }

  /** The items of one field line; None at the first unknown one. */
  method CodingsOf(value: string) returns (r: Option<seq<ContentCoding>>)
    ensures r.None? <==> Unknown in ClassifyAll(SplitAll(value, ','))
    ensures r.Some? ==> r.value == Codings(ClassifyAll(SplitAll(value, ',')))
  {
    var items := SplitAll(value, ',');
    var codings := [];
    ghost var classes := ClassifyAll(items);
    for j := 0 to |items|
      invariant Unknown !in classes[..j] && codings == Codings(classes[..j])
    {
      assert classes[..j + 1][..j] == classes[..j];
      var item := Classify(items[j]);
      if item.Unknown? {
        assert classes[j] == Unknown;
        return None;
      }
      if item.Supported? {
        codings := codings + [item.coding];
      }
    }
    assert classes[..|items|] == classes;
    return Some(codings);
  }
}
