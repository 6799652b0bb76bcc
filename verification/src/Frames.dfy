/**
 * Frames, headers, bodies, error codes and the bounded integers they are made of
 * (muxado/src/frame.rs, muxado/src/errors.rs, muxado/src/constrained.rs).
 */
module Frames {
  import opened Wrappers

  const STREAMID_MAX: int := 0x7FFF_FFFF
  const WNDINC_MAX: int := 0x7FFF_FFFF
  const LENGTH_MAX: int := 0x00FF_FFFF
  const U32_MAX: int := 0xFFFF_FFFF

  type Byte = b: int | 0 <= b < 0x100
  type U32 = x: int | 0 <= x <= U32_MAX
  type StreamID = x: int | 0 <= x <= STREAMID_MAX
  type WndInc = x: int | 0 <= x <= WNDINC_MAX
  type Length = x: int | 0 <= x <= LENGTH_MAX

  /** A `usize` narrowed with `as u32`: the high bits are dropped. */
  function Truncate(n: nat): (r: U32)
    ensures n <= U32_MAX ==> r == n
  {
    n % (U32_MAX + 1)
  }

  /** `clamp`: values above the range become its largest member. */
  function Clamp(value: U32, max: U32): (r: U32)
    ensures r <= max && r <= value
    ensures r == value || r == max
  {
    if value > max then max else value
  }

  /** `mask` for the 31-bit numbers: keeps the low 31 bits of a larger value. */
  function Mask31(value: U32): (r: StreamID)
    ensures value <= STREAMID_MAX ==> r == value
    ensures value > STREAMID_MAX ==> r == value - (STREAMID_MAX + 1)
  {
    if value > STREAMID_MAX then value % (STREAMID_MAX + 1) else value
  }

  datatype Error =
    | NoError | Protocol | Internal | FlowControl | StreamClosed | StreamRefused
    | StreamCancelled | StreamReset | FrameSizeError | AcceptQueueFull | EnhanceYourCalm
    | RemoteGoneAway | StreamsExhausted | WriteTimeout | SessionClosed | PeerEOF | ErrorUnknown

  function ErrorCode(e: Error): U32 {
    match e
    case NoError => 0x00
    case Protocol => 0x01
    case Internal => 0x02
    case FlowControl => 0x03
    case StreamClosed => 0x04
    case StreamRefused => 0x05
    case StreamCancelled => 0x06
    case StreamReset => 0x07
    case FrameSizeError => 0x08
    case AcceptQueueFull => 0x09
    case EnhanceYourCalm => 0x0A
    case RemoteGoneAway => 0x0B
    case StreamsExhausted => 0x0C
    case WriteTimeout => 0x0D
    case SessionClosed => 0x0E
    case PeerEOF => 0x0F
    case ErrorUnknown => U32_MAX
  }

  function ErrorOf(code: U32): Error {
    match code
    case 0x00 => NoError
    case 0x01 => Protocol
    case 0x02 => Internal
    case 0x03 => FlowControl
    case 0x04 => StreamClosed
    case 0x05 => StreamRefused
    case 0x06 => StreamCancelled
    case 0x07 => StreamReset
    case 0x08 => FrameSizeError
    case 0x09 => AcceptQueueFull
    case 0x0A => EnhanceYourCalm
    case 0x0B => RemoteGoneAway
    case 0x0C => StreamsExhausted
    case 0x0D => WriteTimeout
    case 0x0E => SessionClosed
    case 0x0F => PeerEOF
    case _ => ErrorUnknown
  }

  datatype InvalidHeader =
    | ZeroStreamID
    | NonZeroStreamID(id: StreamID)
    | WrongLength(expected: Length, actual: Length)
    | MinLength(expected: Length, actual: Length)
    | BadType(t: Byte)

  datatype HeaderType = Rst | Data | WndInc | GoAway | Invalid(t: Byte)

  function HeaderTypeOf(t: Byte): HeaderType {
    match t
    case 0 => HeaderType.Rst
    case 1 => HeaderType.Data
    case 2 => HeaderType.WndInc
    case 3 => HeaderType.GoAway
    case _ => HeaderType.Invalid(t)
  }

  function HeaderTypeByte(t: HeaderType): Byte {
    match t
    case Rst => 0
    case Data => 1
    case WndInc => 2
    case GoAway => 3
    case Invalid(b) => b
  }

  datatype Flags = Flags(fin: bool, syn: bool)

  datatype Header = Header(length: Length, typ: HeaderType, flags: Flags, streamId: StreamID)

  datatype Body =
    | Rst(error: Error)
    | Data(bytes: seq<Byte>)
    | WndInc(inc: WndInc)
    | GoAway(lastStreamId: StreamID, code: Error, message: seq<Byte>)
    | Invalid(reason: InvalidHeader, raw: seq<Byte>)
  {
    function Type(): HeaderType {
      match this
      case Data(_) => HeaderType.Data
      case GoAway(_, _, _) => HeaderType.GoAway
      case WndInc(_) => HeaderType.WndInc
      case Rst(_) => HeaderType.Rst
      case Invalid(_, _) => HeaderType.Invalid(0xFF)
    }

    /** `Body::len`: 8 for every GoAway, whatever its message. */
    function Len(): nat {
      match this
      case Data(bs) => |bs|
      case GoAway(_, _, _) => 8
      case WndInc(_) => 4
      case Rst(_) => 4
      case Invalid(_, raw) => |raw|
    }

    function ClampLen(): Body {
      match this
      case Data(bs) => Body.Data(bs[..Min(LENGTH_MAX, |bs|)])
      case Invalid(reason, raw) => Body.Invalid(reason, raw[..Min(LENGTH_MAX, |raw|)])
      case _ => this
    }
  }

  const NO_FLAGS := Flags(false, false)

  datatype Frame = Frame(header: Header, body: Body) {
    predicate IsFin() { header.flags.fin }
    predicate IsSyn() { header.flags.syn }

    function Fin(): Frame { this.(header := header.(flags := header.flags.(fin := true))) }
    function Syn(): Frame { this.(header := header.(flags := header.flags.(syn := true))) }
    function WithId(id: StreamID): Frame { this.(header := header.(streamId := id)) }

    /** The bytes a frame carries for the application. */
    function Payload(): seq<Byte> {
      if body.Data? then body.bytes else []
    }

    /** The credit a frame returns to the sender. */
    function Credit(): nat {
      if body.WndInc? then body.inc else 0
    }

    /** The empty FIN is the one data frame whose failed delivery is not an error. */
    predicate IsEmptyFin() { IsFin() && body.Len() == 0 }
  }

  /** `From<Body> for Frame`: stream id 0, no flags, the length of the clamped body. */
  function FrameFrom(body: Body): (f: Frame)
    ensures f.header.typ == f.body.Type() && f.header.length == f.body.Len()
    ensures f.header.streamId == 0 && f.header.flags == NO_FLAGS
    ensures body.Len() <= LENGTH_MAX ==> f.body == body
    ensures body.Data? ==> f.body.Data? && f.body.bytes <= body.bytes
    ensures body.Len() > LENGTH_MAX ==> f.header.length == LENGTH_MAX
  {
    var b := body.ClampLen();
    Frame(Header(Clamp(Truncate(b.Len()), LENGTH_MAX), body.Type(), NO_FLAGS, 0), b)
  }

  function RstFrame(id: StreamID, error: Error): Frame {
    Frame(Header(4, HeaderType.Rst, NO_FLAGS, id), Body.Rst(error))
  }

  /** `Frame::goaway`: the declared length counts the message only. */
  function GoAwayFrame(last: StreamID, error: Error, message: seq<Byte>): Frame {
    var length := Clamp(Truncate(|message|), LENGTH_MAX);
    Frame(Header(length, HeaderType.GoAway, NO_FLAGS, 0), Body.GoAway(last, error, message[..length]))
  }

  /** The frame sent by `poll_shutdown`, and by the manager when a stream is dropped. */
  function FinFrame(): Frame {
    FrameFrom(Body.Data([])).Fin()
  }

  lemma ErrorCodeRoundTrip(e: Error)
    ensures ErrorOf(ErrorCode(e)) == e
    ensures ErrorCode(e) == 0 <==> e == NoError
  {}
}
