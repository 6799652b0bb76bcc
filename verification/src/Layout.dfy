/**
 * The bytes on the wire, one by one (muxado/src/codec.rs, muxado/PROTOCOL.md): what two
 * implementations have to agree on, and no round trip can tell.
 */
module Layout {
  import opened Wrappers
  import opened Frames
  import Codec

  // ----- Headers -----

  /** The number of each frame type. */
  predicate Numbered(t: HeaderType, n: nat) {
    match t
    case Rst => n == 0
    case Data => n == 1
    case WndInc => n == 2
    case GoAway => n == 3
    case Invalid(b) => 4 <= n < 16 && n == b
  }

  lemma EveryNumberIsAType(n: nat)
    requires n < 16
    ensures Numbered(HeaderTypeOf(n), n)
  {}

  lemma PackedBytes(length: nat, low: nat)
    requires length < 0x100_0000 && low < 256
    ensures var x := length * 256 + low;
      && x / 16777216 == length / 65536 && x / 65536 % 256 == length / 256 % 256
      && x / 256 % 256 == length % 256 && x % 256 == low
  {
    var x := length * 256 + low;
    assert x / 256 == length && x % 256 == low;
    assert x / 65536 == length / 256;
    assert x / 16777216 == length / 65536;
  }

  /** Twenty-four bits of length, four of type, four of flags, and a stream id whose top bit is zero. */
  lemma HeaderLayout(h: Header, n: nat)
    requires Numbered(h.typ, n)
    ensures Codec.EncodeHeader(h) == [
      h.length / 65536, h.length / 256 % 256, h.length % 256,
      16 * n + (if h.flags.syn then 2 else 0) + (if h.flags.fin then 1 else 0),
      h.streamId / 16777216, h.streamId / 65536 % 256, h.streamId / 256 % 256, h.streamId % 256]
  {
    var flags := (if h.flags.syn then 2 else 0) + (if h.flags.fin then 1 else 0);
    assert HeaderTypeByte(h.typ) % 16 == n;
    PackedBytes(h.length, 16 * n + flags);
  }

  /** What a reader finds in any eight bytes: two flag bits and the top bit of the id do not matter. */
  lemma HeaderMeaning(bs: seq<Byte>)
    requires |bs| == 8
    ensures var h := Codec.DecodeHeader(bs);
      && h.length == (bs[0] as nat) * 65536 + (bs[1] as nat) * 256 + (bs[2] as nat)
      && Numbered(h.typ, bs[3] / 16)
      && (h.flags.fin <==> bs[3] % 2 == 1) && (h.flags.syn <==> bs[3] / 2 % 2 == 1)
      && h.streamId
           == (bs[4] as nat) % 128 * 16777216 + (bs[5] as nat) * 65536 + (bs[6] as nat) * 256 + (bs[7] as nat)
  {
    var low := (bs[1] as nat) * 65536 + (bs[2] as nat) * 256 + (bs[3] as nat);
    var x := Codec.GetU32(bs[..4]);
    assert x == (bs[0] as nat) * 16777216 + low;
    assert x / 256 == (bs[0] as nat) * 65536 + (bs[1] as nat) * 256 + (bs[2] as nat);
    assert x % 256 == bs[3];
    EveryNumberIsAType(bs[3] / 16);
    var tail := bs[4..];
    var id := Codec.GetU32(tail);
    assert id == (bs[4] as nat) * 16777216 + (bs[5] as nat) * 65536 + (bs[6] as nat) * 256 + (bs[7] as nat);
  }

  /** Which headers are acceptable, and what is wrong with the others. */
  lemma HeadersAccepted(h: Header)
    ensures Codec.ValidateHeader(h).None? <==>
      match h.typ
      case Rst => h.streamId > 0 && h.length == 4
      case Data => h.streamId > 0
      case WndInc => h.streamId > 0 && h.length == 4
      case GoAway => h.streamId == 0 && h.length >= 8
      case Invalid(_) => false
    ensures var stream := h.typ.Rst? || h.typ.Data? || h.typ.WndInc?;
      match Codec.ValidateHeader(h)
      case None => true
      case Some(ZeroStreamID) => stream && h.streamId == 0
      case Some(NonZeroStreamID(id)) => h.typ.GoAway? && id == h.streamId != 0
      case Some(WrongLength(expected, actual)) =>
        (h.typ.Rst? || h.typ.WndInc?) && h.streamId != 0 && expected == 4 && actual == h.length != 4
      case Some(MinLength(expected, actual)) => h.typ.GoAway? && expected == 8 && actual == h.length < 8
      case Some(BadType(t)) => h.typ == HeaderType.Invalid(t)
  {}

  // ----- Bodies -----

  /** The number of each error. */
  predicate Coded(e: Error, n: nat) {
    match e
    case NoError => n == 0
    case Protocol => n == 1
    case Internal => n == 2
    case FlowControl => n == 3
    case StreamClosed => n == 4
    case StreamRefused => n == 5
    case StreamCancelled => n == 6
    case StreamReset => n == 7
    case FrameSizeError => n == 8
    case AcceptQueueFull => n == 9
    case EnhanceYourCalm => n == 10
    case RemoteGoneAway => n == 11
    case StreamsExhausted => n == 12
    case WriteTimeout => n == 13
    case SessionClosed => n == 14
    case PeerEOF => n == 15
    case ErrorUnknown => n > 15
  }

  /** Four bytes, the most significant first. */
  predicate InOrder(bs: seq<Byte>, n: nat) {
    |bs| == 4 && n == (bs[0] as nat) * 16777216 + (bs[1] as nat) * 65536 + (bs[2] as nat) * 256 + (bs[3] as nat)
  }

  lemma NumberLayout(n: U32)
    ensures InOrder(Codec.PutU32(n), n)
  {
    Codec.U32RoundTrip(n, []);
  }

  /** An error nobody knows goes out with all bits set. */
  lemma BodyLayout(b: Body)
    ensures var bs := Codec.EncodeBody(b);
      match b
      case Rst(e) => exists n: nat :: InOrder(bs, n) && Coded(e, n) && (e == ErrorUnknown ==> n == 0xFFFF_FFFF)
      case Data(data) => bs == data
      case WndInc(n) => InOrder(bs, n)
      case GoAway(last, e, message) =>
        && |bs| == 8 + |message| && InOrder(bs[..4], last)
        && (exists n: nat :: InOrder(bs[4..8], n) && Coded(e, n) && (e == ErrorUnknown ==> n == 0xFFFF_FFFF))
        && bs[8..] == message
      case Invalid(_, raw) => bs == raw
  {
    match b
    case Rst(e) => NumberLayout(ErrorCode(e));
    case WndInc(n) => NumberLayout(n);
    case GoAway(last, e, message) =>
      NumberLayout(last);
      NumberLayout(ErrorCode(e));
      var bs := Codec.EncodeBody(b);
      assert bs[..4] == Codec.PutU32(last) && bs[4..8] == Codec.PutU32(ErrorCode(e)) && bs[8..] == message;
    case _ =>
  }

  lemma EveryCodeIsAnError(n: U32)
    ensures Coded(ErrorOf(n), n)
  {}

  /** What a reader finds in a body whose header is acceptable: the top bit of a 31-bit number does not matter. */
  lemma BodyMeaning(h: Header, bs: seq<Byte>)
    requires |bs| == h.length && Codec.ValidateHeader(h).None?
    ensures var f := Codec.DecodeFrame(h, bs);
      && f.header == h
      && match h.typ
         case Rst => |bs| == 4 && f.body.Rst? && exists n: nat :: InOrder(bs, n) && Coded(f.body.error, n)
         case Data => f.body == Body.Data(bs)
         case WndInc => |bs| == 4 && f.body.WndInc?
           && exists n: nat :: InOrder(bs, n) && f.body.inc == n % 0x8000_0000
         case GoAway => |bs| >= 8 && f.body.GoAway? && f.body.message == bs[8..]
           && (exists n: nat :: InOrder(bs[..4], n) && f.body.lastStreamId == n % 0x8000_0000)
           && (exists n: nat :: InOrder(bs[4..8], n) && Coded(f.body.code, n))
         case Invalid(_) => true
  {
    match h.typ
    case Rst =>
      assert InOrder(bs, Codec.GetU32(bs));
      EveryCodeIsAnError(Codec.GetU32(bs));
    case WndInc => assert InOrder(bs, Codec.GetU32(bs));
    case GoAway =>
      assert InOrder(bs[..4], Codec.GetU32(bs)) && InOrder(bs[4..8], Codec.GetU32(bs[4..]));
      EveryCodeIsAnError(Codec.GetU32(bs[4..]));
    case _ =>
  }
}
