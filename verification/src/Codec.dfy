/**
 * The frame codec (muxado/src/codec.rs): bit-packed headers, an incremental decoder that keeps a
 * decoded header while the body is still arriving, and a reference parser it is proved against.
 *
 * Bit fields are written with division and remainder: `(x & 0xFFFFFF00) >> 8` is `x / 256`,
 * `x as u8` is `x % 256`, and so on.
 */
module Codec {
  import opened Wrappers
  import opened Frames

  // ----- Integers in network order -----

  function PutU32(x: U32): (bs: seq<Byte>)
    ensures |bs| == 4
  {
    [x / 0x100_0000, x / 0x1_0000 % 0x100, x / 0x100 % 0x100, x % 0x100]
  }

  function GetU32(bs: seq<Byte>): U32
    requires |bs| >= 4
  {
    (bs[0] as int) * 0x100_0000 + (bs[1] as int) * 0x1_0000 + (bs[2] as int) * 0x100 + (bs[3] as int)
  }

  // ----- Headers -----

  function DecodeHeader(bs: seq<Byte>): Header
    requires |bs| == 8
  {
    var lengthTypeFlags := GetU32(bs[..4]);
    var typeFlags := lengthTypeFlags % 0x100;
    Header(
      lengthTypeFlags / 0x100,
      HeaderTypeOf(typeFlags / 0x10),
      // from_bits_truncate: only FIN and SYN are kept of the four flag bits
      Flags(typeFlags % 2 == 1, typeFlags / 2 % 2 == 1),
      Mask31(GetU32(bs[4..])))
  }

  function FlagBits(f: Flags): Byte {
    (if f.fin then 1 else 0) + (if f.syn then 2 else 0)
  }

  function EncodeHeader(h: Header): (bs: seq<Byte>)
    ensures |bs| == 8
  {
    var typeFlags := HeaderTypeByte(h.typ) % 0x10 * 0x10 + FlagBits(h.flags);
    PutU32(h.length * 0x100 + typeFlags) + PutU32(h.streamId)
  }

  function ExpectLength(h: Header, length: Length): Option<InvalidHeader> {
    if h.length != length then Some(WrongLength(length, h.length)) else None
  }

  /** `validate_header`: None when the header is acceptable. */
  function ValidateHeader(h: Header): Option<InvalidHeader> {
    match h.typ
    case Rst => if h.streamId == 0 then Some(ZeroStreamID) else ExpectLength(h, 4)
    case Data => if h.streamId == 0 then Some(ZeroStreamID) else None
    case WndInc => if h.streamId == 0 then Some(ZeroStreamID) else ExpectLength(h, 4)
    case GoAway =>
      if h.streamId != 0 then Some(NonZeroStreamID(h.streamId))
      else if h.length < 8 then Some(MinLength(8, h.length))
      else None
    case Invalid(t) => Some(BadType(t))
  }

  // ----- Bodies -----

  /** `decode_frame`. The caller has split off exactly the declared number of bytes. */
  function DecodeFrame(h: Header, body: seq<Byte>): (f: Frame)
    requires |body| == h.length
    ensures f.header == h
    ensures f.body.Invalid? <==> ValidateHeader(h).Some?
  {
    match ValidateHeader(h)
    case Some(reason) => Frame(h, Body.Invalid(reason, body))
    case None =>
      match h.typ
      case Rst => Frame(h, Body.Rst(ErrorOf(GetU32(body))))
      case Data => Frame(h, Body.Data(body))
      case WndInc => Frame(h, Body.WndInc(Mask31(GetU32(body))))
      case GoAway =>
        Frame(h, Body.GoAway(Mask31(GetU32(body)), ErrorOf(GetU32(body[4..])), body[8..]))
  }

  function EncodeBody(b: Body): seq<Byte> {
    match b
    case Rst(e) => PutU32(ErrorCode(e))
    case Data(bs) => bs
    case WndInc(inc) => PutU32(inc)
    case GoAway(last, e, message) => PutU32(last) + PutU32(ErrorCode(e)) + message
    case Invalid(_, raw) => raw
  }

  /** `Encoder::encode`: the bytes appended to the output, or the reason for refusing. */
  function Encode(f: Frame): Result<seq<Byte>, InvalidHeader> {
    match ValidateHeader(f.header)
    case Some(reason) => Err(reason)
    case None => Ok(EncodeHeader(f.header) + EncodeBody(f.body))
  }

  // ----- Reference parser: whole buffer, no cached state -----

  datatype Parsed = Parsed(frame: Frame, rest: seq<Byte>)

  /** The first complete frame of a buffer, and what follows it. */
  function ParseOne(bs: seq<Byte>): (r: Option<Parsed>)
    ensures r.Some? ==> |r.value.rest| + 8 + r.value.frame.header.length == |bs|
  {
    if |bs| < 8 then None
    else
      var h := DecodeHeader(bs[..8]);
      if |bs| < 8 + h.length then None
      else Some(Parsed(DecodeFrame(h, bs[8..8 + h.length]), bs[8 + h.length..]))
  }

  datatype ParseResult = ParseResult(frames: seq<Frame>, rest: seq<Byte>)

  /** Every complete frame of a buffer, and the incomplete tail. */
  function ParseAll(bs: seq<Byte>): ParseResult
    decreases |bs|
  {
    match ParseOne(bs)
    case None => ParseResult([], bs)
    case Some(p) =>
      var tail := ParseAll(p.rest);
      ParseResult([p.frame] + tail.frames, tail.rest)
  }

  // ----- The incremental decoder -----

  datatype Decoder = Decoder(inputHeader: Option<Header>, buf: seq<Byte>)

  const FRESH_DECODER := Decoder(None, [])

  /** What one call of `decode` does to the decoder, and the frame it returns. */
  function DecodeStep(d: Decoder): (Decoder, Option<Frame>) {
    if d.inputHeader.None? && |d.buf| < 8 then (d, None)
    else
      var d1 := if d.inputHeader.Some? then d
                else Decoder(Some(DecodeHeader(d.buf[..8])), d.buf[8..]);
      var h := d1.inputHeader.value;
      if |d1.buf| < h.length then (d1, None)
      else (Decoder(None, d1.buf[h.length..]), Some(DecodeFrame(h, d1.buf[..h.length])))
  }

  /** The decoder stands for the unparsed bytes `raw`: a cached header is their first eight. */
  ghost predicate Represents(d: Decoder, raw: seq<Byte>) {
    match d.inputHeader
    case None => raw == d.buf
    case Some(h) => |raw| >= 8 && h == DecodeHeader(raw[..8]) && raw[8..] == d.buf
  }

  lemma StepRefinesParse(d: Decoder, raw: seq<Byte>)
    requires Represents(d, raw)
    ensures var (d', out) := DecodeStep(d);
      match ParseOne(raw)
      case None => out == None && Represents(d', raw)
      case Some(p) => out == Some(p.frame) && Represents(d', p.rest)
  {
    if |raw| >= 8 {
      var h := DecodeHeader(raw[..8]);
      if |raw| >= 8 + h.length {
        assert raw[8..][..h.length] == raw[8..8 + h.length];
        assert raw[8..][h.length..] == raw[8 + h.length..];
      }
    }
  }

  lemma ParseOneAppend(a: seq<Byte>, b: seq<Byte>)
    requires ParseOne(a).Some?
    ensures ParseOne(a + b) == Some(Parsed(ParseOne(a).value.frame, ParseOne(a).value.rest + b))
  {
    var h := DecodeHeader(a[..8]);
    assert (a + b)[..8] == a[..8];
    assert (a + b)[8..8 + h.length] == a[8..8 + h.length];
    assert (a + b)[8 + h.length..] == a[8 + h.length..] + b;
  }

  /** Bytes reach the decoder in chunks of any size; calls of `decode` come at any time. */
  datatype Event = Arrive(chunk: seq<Byte>) | Call

  function Arrived(events: seq<Event>): seq<Byte> {
    if events == [] then []
    else (if events[0].Arrive? then events[0].chunk else []) + Arrived(events[1..])
  }

  function RunDecoder(d: Decoder, events: seq<Event>): (Decoder, seq<Frame>)
    decreases |events|
  {
    if events == [] then (d, [])
    else
      match events[0]
      case Arrive(chunk) => RunDecoder(d.(buf := d.buf + chunk), events[1..])
      case Call =>
        var (d1, out) := DecodeStep(d);
        var (d2, outs) := RunDecoder(d1, events[1..]);
        (d2, (if out.Some? then [out.value] else []) + outs)
  }

  lemma ArriveRepresents(d: Decoder, raw: seq<Byte>, chunk: seq<Byte>)
    requires Represents(d, raw)
    ensures Represents(d.(buf := d.buf + chunk), raw + chunk)
  {
    if d.inputHeader.Some? {
      assert (raw + chunk)[..8] == raw[..8];
      assert (raw + chunk)[8..] == raw[8..] + chunk;
    }
  }

  lemma ParseAllStep(a: seq<Byte>, b: seq<Byte>)
    requires ParseOne(a).Some?
    ensures var p := ParseOne(a).value;
      && ParseAll(a + b).frames == [p.frame] + ParseAll(p.rest + b).frames
      && ParseAll(a + b).rest == ParseAll(p.rest + b).rest
  {
    ParseOneAppend(a, b);
  }

  /** `out` was returned on the way from `total` unparsed bytes to `raw`. */
  ghost predicate Accounts(out: seq<Frame>, raw: seq<Byte>, total: seq<Byte>) {
    && ParseAll(total).frames == out + ParseAll(raw).frames
    && ParseAll(total).rest == ParseAll(raw).rest
  }

  lemma AccountsCons(f: Frame, out: seq<Frame>, raw: seq<Byte>, rest: seq<Byte>, total: seq<Byte>)
    requires Accounts(out, raw, rest)
    requires ParseAll(total).frames == [f] + ParseAll(rest).frames
    requires ParseAll(total).rest == ParseAll(rest).rest
    ensures Accounts([f] + out, raw, total)
  {
    assert [f] + (out + ParseAll(raw).frames) == [f] + out + ParseAll(raw).frames;
  }

  /** The bytes left once `decode` has been called on a decoder that stands for `raw`. */
  function AfterCall(raw: seq<Byte>): seq<Byte> {
    if ParseOne(raw).Some? then ParseOne(raw).value.rest else raw
  }

  lemma CallRepresents(d: Decoder, raw: seq<Byte>)
    requires Represents(d, raw)
    ensures Represents(DecodeStep(d).0, AfterCall(raw))
  {
    StepRefinesParse(d, raw);
  }

  /** `raw'` is what is left unparsed when `d`, which stands for `raw`, has gone through `events`. */
  ghost predicate Leaves(d: Decoder, raw: seq<Byte>, events: seq<Event>, raw': seq<Byte>) {
    && Represents(RunDecoder(d, events).0, raw')
    && Accounts(RunDecoder(d, events).1, raw', raw + Arrived(events))
  }

  lemma LeavesAfterArrival(d: Decoder, raw: seq<Byte>, events: seq<Event>, raw': seq<Byte>, chunk: seq<Byte>)
    requires events != [] && events[0] == Arrive(chunk)
    requires Leaves(d.(buf := d.buf + chunk), raw + chunk, events[1..], raw')
    ensures Leaves(d, raw, events, raw')
  {
    assert raw + Arrived(events) == raw + chunk + Arrived(events[1..]);
  }

  lemma AccountsAfterCall(d: Decoder, raw: seq<Byte>, rest: seq<Event>, raw': seq<Byte>, out: seq<Frame>)
    requires Represents(d, raw) && Accounts(out, raw', AfterCall(raw) + Arrived(rest))
    ensures Accounts((if DecodeStep(d).1.Some? then [DecodeStep(d).1.value] else []) + out, raw', raw + Arrived(rest))
  {
    StepRefinesParse(d, raw);
    if ParseOne(raw).Some? {
      var p := ParseOne(raw).value;
      ParseAllStep(raw, Arrived(rest));
      AccountsCons(p.frame, out, raw', p.rest + Arrived(rest), raw + Arrived(rest));
    } else {
      assert [] + out == out;
    }
  }

  lemma RunCall(d: Decoder, events: seq<Event>)
    requires events != [] && events[0].Call?
    ensures var out, then' := DecodeStep(d).1, RunDecoder(DecodeStep(d).0, events[1..]);
      RunDecoder(d, events) == (then'.0, (if out.Some? then [out.value] else []) + then'.1)
    ensures Arrived(events) == Arrived(events[1..])
  {}

  lemma LeavesAfterCall(d: Decoder, raw: seq<Byte>, events: seq<Event>, raw': seq<Byte>)
    requires events != [] && events[0].Call? && Represents(d, raw)
    requires Leaves(DecodeStep(d).0, AfterCall(raw), events[1..], raw')
    ensures Leaves(d, raw, events, raw')
  {
    AccountsAfterCall(d, raw, events[1..], raw', RunDecoder(DecodeStep(d).0, events[1..]).1);
    RunCall(d, events);
  }

  /**
   * Chunking invariance: the frames returned so far, followed by those still parsable from the
   * bytes the decoder stands for, are the frames of a one-shot parse of everything received.
   */
  lemma {:induction false} DecoderRefinesParser(d: Decoder, raw: seq<Byte>, events: seq<Event>)
    returns (raw': seq<Byte>)
    requires Represents(d, raw)
    ensures Leaves(d, raw, events, raw')
    decreases |events|
  {
    if events == [] {
      raw' := raw;
      assert raw + Arrived(events) == raw;
    } else {
      match events[0]
      case Arrive(chunk) =>
        ArriveRepresents(d, raw, chunk);
        raw' := DecoderRefinesParser(d.(buf := d.buf + chunk), raw + chunk, events[1..]);
        LeavesAfterArrival(d, raw, events, raw', chunk);
      case Call =>
        CallRepresents(d, raw);
        raw' := DecoderRefinesParser(DecodeStep(d).0, AfterCall(raw), events[1..]);
        LeavesAfterCall(d, raw, events, raw');
    }
  }

  /** Once `decode` has nothing more to give, exactly the one-shot parse has been returned. */
  lemma {:induction false} ChunkingInvariance(events: seq<Event>)
    ensures var (d, out) := RunDecoder(FRESH_DECODER, events);
      var whole := ParseAll(Arrived(events));
      && out <= whole.frames
      && (DecodeStep(d).1 == None ==> out == whole.frames && Represents(DecodeStep(d).0, whole.rest))
  {
    var raw' := DecoderRefinesParser(FRESH_DECODER, [], events);
    assert [] + Arrived(events) == Arrived(events);
    var (d, out) := RunDecoder(FRESH_DECODER, events);
    StepRefinesParse(d, raw');
  }

  // ----- Round trips -----

  lemma U32RoundTrip(x: U32, tail: seq<Byte>)
    ensures GetU32(PutU32(x)) == x
    ensures GetU32(PutU32(x) + tail) == x
  {
    assert x == x / 0x100_0000 * 0x100_0000 + x % 0x100_0000;
    assert x % 0x100_0000 == x / 0x1_0000 % 0x100 * 0x1_0000 + x % 0x1_0000;
    assert x % 0x1_0000 == x / 0x100 % 0x100 * 0x100 + x % 0x100;
    var bs := PutU32(x);
    assert (bs + tail)[0] == bs[0] && (bs + tail)[1] == bs[1]
        && (bs + tail)[2] == bs[2] && (bs + tail)[3] == bs[3];
  }

  /** The type fits its four bits and is read back as itself. */
  predicate TypeFits(t: HeaderType) {
    HeaderTypeByte(t) < 0x10 && HeaderTypeOf(HeaderTypeByte(t)) == t
  }

  lemma HeaderRoundTrip(h: Header)
    requires TypeFits(h.typ)
    ensures DecodeHeader(EncodeHeader(h)) == h
  {
    var typeFlags := HeaderTypeByte(h.typ) % 0x10 * 0x10 + FlagBits(h.flags);
    var x := h.length * 0x100 + typeFlags;
    var bs := EncodeHeader(h);
    assert bs[..4] == PutU32(x) && bs[4..] == PutU32(h.streamId);
    U32RoundTrip(x, []);
    U32RoundTrip(h.streamId, []);
    assert x % 0x100 == typeFlags && x / 0x100 == h.length;
    assert typeFlags / 0x10 == HeaderTypeByte(h.typ);
    assert typeFlags % 0x10 == FlagBits(h.flags);
  }

  /** An acceptable header of the body's own type, declaring the body's encoded length. */
  predicate WellFormed(f: Frame) {
    && ValidateHeader(f.header).None?
    && f.header.typ == f.body.Type()
    && f.header.length == |EncodeBody(f.body)|
  }

  lemma BodyRoundTrip(f: Frame)
    requires WellFormed(f)
    ensures DecodeFrame(f.header, EncodeBody(f.body)) == f
  {
    match f.body
    case Rst(e) =>
      U32RoundTrip(ErrorCode(e), []);
      ErrorCodeRoundTrip(e);
    case Data(_) =>
    case WndInc(inc) =>
      U32RoundTrip(inc, []);
    case GoAway(last, e, message) =>
      var bs := EncodeBody(f.body);
      U32RoundTrip(last, PutU32(ErrorCode(e)) + message);
      assert bs == PutU32(last) + (PutU32(ErrorCode(e)) + message);
      U32RoundTrip(ErrorCode(e), message);
      assert bs[4..] == PutU32(ErrorCode(e)) + message;
      assert bs[8..] == message;
      ErrorCodeRoundTrip(e);
  }

  lemma EncodedFrameParses(f: Frame, tail: seq<Byte>)
    requires WellFormed(f)
    ensures Encode(f).Ok?
    ensures ParseOne(Encode(f).value + tail) == Some(Parsed(f, tail))
  {
    var bs := Encode(f).value + tail;
    HeaderRoundTrip(f.header);
    BodyRoundTrip(f);
    assert bs[..8] == EncodeHeader(f.header);
    assert bs[8..8 + f.header.length] == EncodeBody(f.body);
    assert bs[8 + f.header.length..] == tail;
  }

  function EncodeAll(fs: seq<Frame>): seq<Byte> {
    if fs == [] then []
    else (match Encode(fs[0]) case Ok(bs) => bs case Err(_) => []) + EncodeAll(fs[1..])
  }

  /** Decoding the concatenated encodings gives back exactly the frames, with nothing left over. */
  lemma {:induction false} StreamRoundTrip(fs: seq<Frame>)
    requires forall f :: f in fs ==> WellFormed(f)
    ensures ParseAll(EncodeAll(fs)) == ParseResult(fs, [])
  {
    if fs == [] {
      assert ParseOne([]) == None;
    } else {
      EncodedFrameParses(fs[0], EncodeAll(fs[1..]));
      StreamRoundTrip(fs[1..]);
    }
  }

  lemma DecodedIsWellFormed(h: Header, body: seq<Byte>)
    requires |body| == h.length
    requires ValidateHeader(h).None?
    ensures WellFormed(DecodeFrame(h, body))
  {}

  lemma ParsedIsWellFormed(bs: seq<Byte>)
    requires ParseOne(bs).Some?
    ensures var f := ParseOne(bs).value.frame;
      f.body.Invalid? <==> ValidateHeader(f.header).Some?
    ensures var f := ParseOne(bs).value.frame;
      !f.body.Invalid? ==> WellFormed(f)
  {
    var h := DecodeHeader(bs[..8]);
    if ValidateHeader(h).None? {
      DecodedIsWellFormed(h, bs[8..8 + h.length]);
    }
  }

  /** A single frame survives the wire exactly when it is well formed. */
  lemma RoundTripsExactlyWhenWellFormed(f: Frame)
    ensures (Encode(f).Ok? && ParseAll(Encode(f).value) == ParseResult([f], [])) <==> WellFormed(f)
  {
    if WellFormed(f) {
      EncodedFrameParses(f, []);
      assert Encode(f).value + [] == Encode(f).value;
      assert ParseAll([]) == ParseResult([], []);
    } else if Encode(f).Ok? {
      var bs := Encode(f).value;
      if ParseOne(bs).Some? {
        ParsedIsWellFormed(bs);
        assert ParseAll(bs).frames[0] == ParseOne(bs).value.frame;
      }
    }
  }

  // ----- Normal form -----

  /**
   * Whatever the bytes, a frame decoded from them that is not Invalid re-encodes to the same
   * number of bytes, and decoding those gives the same frame: reserved flag bits, top id bits and
   * unknown error codes are normalised once and for all.
   */
  lemma NormalForm(bs: seq<Byte>)
    requires ParseOne(bs).Some? && !ParseOne(bs).value.frame.body.Invalid?
    ensures var p := ParseOne(bs).value;
      && Encode(p.frame).Ok?
      && |Encode(p.frame).value| + |p.rest| == |bs|
      && ParseOne(Encode(p.frame).value) == Some(Parsed(p.frame, []))
  {
    ParsedIsWellFormed(bs);
    var f := ParseOne(bs).value.frame;
    EncodedFrameParses(f, []);
    assert Encode(f).value + [] == Encode(f).value;
  }

  // ----- GoAway frames -----

  /**
   * The declared length of a GoAway frame omits its eight fixed bytes. With fewer than eight bytes
   * of message the frame cannot be encoded at all; with eight or more the receiver loses the last
   * eight bytes of the message and takes them for the start of the next frame.
   */
  lemma GoAwayLosesItsTail(last: StreamID, error: Error, message: seq<Byte>, tail: seq<Byte>)
    ensures var f := GoAwayFrame(last, error, message);
      var m := f.body.message;
      && (Encode(f).Ok? <==> |m| >= 8)
      && !WellFormed(f)
      && (|m| >= 8 ==>
        ParseOne(Encode(f).value + tail)
          == Some(Parsed(f.(body := Body.GoAway(last, error, m[..|m| - 8])), m[|m| - 8..] + tail)))
  {
    var f := GoAwayFrame(last, error, message);
    var m := f.body.message;
    assert |m| == f.header.length;
    if |m| >= 8 {
      var cut := f.(body := Body.GoAway(last, error, m[..|m| - 8]));
      assert WellFormed(cut);
      EncodedFrameParses(cut, m[|m| - 8..] + tail);
      assert m == m[..|m| - 8] + m[|m| - 8..];
      assert Encode(f).value + tail == Encode(cut).value + (m[|m| - 8..] + tail);
    }
  }

  // ----- The codec object -----

  /** The growable buffer shared by the transport and the codec. */
  class BytesMut {
    var data: seq<Byte>

    constructor ()
      ensures data == []
    {
      data := [];
    }

    method SplitTo(n: nat) returns (front: seq<Byte>)
      requires n <= |data|
      modifies this
      ensures front + data == old(data) && |front| == n
    {
      front := data[..n];
      data := data[n..];
    }
  }

  class FrameCodec {
    var inputHeader: Option<Header>

    ghost function View(b: BytesMut): Decoder
      reads this, b
    {
      Decoder(inputHeader, b.data)
    }

    constructor ()
      ensures inputHeader == None
    {
      inputHeader := None;
    }

    /** One call of the decoder, for any unparsed bytes `raw` the codec and buffer stand for. */
    method DecodeNext(b: BytesMut, ghost raw: seq<Byte>) returns (r: Option<Frame>)
      requires Represents(View(b), raw)
      modifies this, b
      ensures (View(b), r) == DecodeStep(old(View(b)))
      ensures match ParseOne(raw)
        case None => r == None && Represents(View(b), raw)
        case Some(p) => r == Some(p.frame) && Represents(View(b), p.rest)
    {
      StepRefinesParse(View(b), raw);
      var header;
      if inputHeader.Some? {
        header := inputHeader.value;
      } else {
        if |b.data| < 8 {
          return None;
        }
        var front := b.SplitTo(8);
        assert front == old(b.data)[..8] && b.data == old(b.data)[8..];
        header := DecodeHeader(front);
        inputHeader := Some(header);
      }
      if |b.data| < header.length {
        return None;
      }
      ghost var before := b.data;
      var body := b.SplitTo(header.length);
      assert body == before[..header.length] && b.data == before[header.length..];
      inputHeader := None;
      return Some(DecodeFrame(header, body));
    }

    /** The transport's loop: append what was read, then decode until nothing more is complete. */
    method Feed(b: BytesMut, chunk: seq<Byte>, ghost raw: seq<Byte>)
      returns (frames: seq<Frame>, ghost raw': seq<Byte>)
      requires Represents(View(b), raw)
      modifies this, b
      ensures frames == ParseAll(raw + chunk).frames
      ensures raw' == ParseAll(raw + chunk).rest && Represents(View(b), raw')
    {
      ArriveRepresents(View(b), raw, chunk);
      b.data := b.data + chunk;
      frames, raw' := [], raw + chunk;
      var more := true;
      while more
        invariant Represents(View(b), raw')
        invariant ParseAll(raw + chunk).frames == frames + ParseAll(raw').frames
        invariant ParseAll(raw + chunk).rest == ParseAll(raw').rest
        invariant !more ==> ParseOne(raw') == None
        decreases more, |raw'|
      {
        var r := DecodeNext(b, raw');
        match r {
          case None => more := false;
          case Some(f) =>
            var p := ParseOne(raw').value;
            assert frames + ([f] + ParseAll(p.rest).frames) == frames + [f] + ParseAll(p.rest).frames;
            frames := frames + [f];
            raw' := p.rest;
        }
      }
    }

    /** Appends the encoding of a frame, or refuses it and leaves the buffer alone. */
    method EncodeFrame(f: Frame, b: BytesMut) returns (r: Result<(), InvalidHeader>)
      modifies b
      ensures match Encode(f)
        case Ok(bs) => r == Ok(()) && b.data == old(b.data) + bs
        case Err(e) => r == Err(e) && b.data == old(b.data)
    {
      var check := ValidateHeader(f.header);
      if check.Some? {
        return Err(check.value);
      }
      b.data := b.data + EncodeHeader(f.header);
      b.data := b.data + EncodeBody(f.body);
      assert b.data == old(b.data) + (EncodeHeader(f.header) + EncodeBody(f.body));
      return Ok(());
    }
  }
}
