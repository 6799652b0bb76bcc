/**
 * Two endpoints, a client and a server with the same window, joined by two reliable byte streams
 * (muxado/src/session.rs): the reader and writer tasks, the managers, and the applications at both
 * ends. Each locked region of a manager, and each poll of a stream, is one step. A byte stream is
 * represented by the frames on it.
 */
module Sessions {
  import opened Wrappers
  import opened Frames
  import opened Flows
  import opened StreamOutput
  import opened Windows
  import opened Streams
  import opened Managers
  import opened Links

  // ----- State -----

  /** The reader task, between two locked regions. */
  datatype Reader =
    | Resting
    | Admitting(frame: Frame)
    | Routing(parcel: Parcel)
    | Finishing(id: StreamID)
    | Resetting(id: StreamID, error: Error)
    | Ended

  /**
   * One side of the session. `slots` has every stream this side has known, with or without handle;
   * `wire` holds the frames written towards the other side.
   */
  datatype Endpoint = Endpoint(
    client: bool,
    streamLimit: nat,
    slots: map<StreamID, Slot>,
    lastLocalId: StreamID,
    lastRemoteId: StreamID,
    sentAway: bool,
    sys: seq<Frame>,
    wire: seq<Frame>,
    reader: Reader,
    lastProcessed: StreamID)

  datatype Session = Session(window: nat, client: Endpoint, server: Endpoint)

  function NewEndpoint(client: bool, streamLimit: nat): Endpoint {
    Endpoint(client, streamLimit, map[], InitialLocalId(client), InitialRemoteId(client), false,
             [], [], Resting, 0)
  }

  function NewSession(window: nat, clientLimit: nat, serverLimit: nat): Session {
    Session(window, NewEndpoint(true, clientLimit), NewEndpoint(false, serverLimit))
  }

  function SlotOf(e: Endpoint, id: StreamID): Slot {
    if id in e.slots then e.slots[id] else BLANK
  }

  /** The keys of the manager's map. */
  function LiveIds(e: Endpoint): set<StreamID> {
    set id | id in e.slots && e.slots[id].entry.Some?
  }

  // ----- The reader -----

  /** The reader ends: every stream in the map sees the end of its incoming channel. */
  function EndReader(me: Endpoint): Endpoint {
    me.(reader := Ended, slots := map id | id in me.slots :: SlotEndInput(me.slots[id]))
  }

  /** A GOAWAY empties the map and closes every sink in it. */
  function HandleGoAway(me: Endpoint): Endpoint {
    me.(sentAway := true, reader := Ended,
        slots := map id | id in me.slots ::
          var s := me.slots[id];
          if s.entry.None? then s
          else s.(code := GoneCode(s.code), entry := None, inbox := s.inbox.CloseSender()))
  }

  const INVALID_FRAME: seq<Byte> := [105, 110, 118, 97, 108, 105, 100, 32, 102, 114, 97, 109, 101]

  function NewRouting(f: Frame): Reader {
    if Routable(f) then Routing(NewParcel(f)) else Resetting(f.header.streamId, Internal)
  }

  /** What `Reader::handle_frame` makes of a frame in its `match` on the frame type. */
  datatype Verdict = GoingAway | Panicking | Complaining | Handling(reader: Reader)

  function VerdictOn(f: Frame): Verdict {
    match f.header.typ
    case GoAway => if f.body.GoAway? then GoingAway else Panicking
    case Invalid(_) => Complaining
    case _ => Handling(NewRouting(f))
  }

  /** Where the reader goes from one poll of the delivery of `f`. */
  function ReaderAfter(f: Frame, poll: Poll<Result<(), Error>>, p: Parcel): Reader {
    match poll
    case Pending => Routing(p)
    case Ready(Ok(_)) => if f.IsFin() then Finishing(f.header.streamId) else Resting
    case Ready(Err(e)) => Resetting(f.header.streamId, e)
  }

  function Dispatch(me: Endpoint, f: Frame): Endpoint {
    match VerdictOn(f)
    case GoingAway => HandleGoAway(me)
    case Panicking => me.(reader := Ended)
    case Complaining =>
      me.(reader := Resting, sys := me.sys + [GoAwayFrame(me.lastProcessed, Protocol, INVALID_FRAME)])
    case Handling(r) => me.(reader := r)
  }

  /** The next frame from the other side; a SYN first creates a stream. */
  function TakeNext(me: Endpoint, peer: Endpoint, window: nat): (Endpoint, Endpoint) {
    if me.reader != Resting || peer.wire == [] then (me, peer)
    else
      var f := peer.wire[0];
      var id := f.header.streamId;
      (if f.IsSyn() then
         if |LiveIds(me)| == me.streamLimit then EndReader(me)
         else me.(slots := me.slots[id := NewSlot(window, false)], lastRemoteId := id, reader := Admitting(f))
       else Dispatch(me, f),
       peer.(wire := peer.wire[1..]))
  }

  /** The new stream is queued for the application, or the queue is gone and the reader ends. */
  function Admit(me: Endpoint, ok: bool): Endpoint {
    if !me.reader.Admitting? then me
    else
      var f := me.reader.frame;
      if ok then Dispatch(me, f)
      else EndReader(me.(slots := me.slots[f.header.streamId := SlotDrop(SlotOf(me, f.header.streamId))]))
  }

  /** One poll of `send_to_stream`. */
  function Route(me: Endpoint, full: bool): Endpoint {
    if !me.reader.Routing? then me
    else
      var p := me.reader.parcel;
      var id := p.frame.header.streamId;
      var s := SlotOf(me, id);
      var d := Deliver(p, s.entry, s.code, s.inbox, full);
      var me1 := if id in me.slots then me.(slots := me.slots[id := SlotDeliver(s, p, full)]) else me;
      me1.(reader := ReaderAfter(p.frame, d.poll, d.parcel),
           lastProcessed := if d.poll.Ready? && d.poll.value.Ok? then id else me1.lastProcessed)
  }

  /** After a FIN the handle is closed for writing; after a refusal an RST is queued. */
  function Conclude(me: Endpoint): Endpoint {
    match me.reader
    case Finishing(id) =>
      var me1 := if id in me.slots then me.(slots := me.slots[id := SlotWriteClosed(me.slots[id])]) else me;
      me1.(reader := Resting)
    case Resetting(id, e) => me.(reader := Resting, sys := me.sys + [RstFrame(id, e)])
    case _ => me
  }

  // ----- The writer -----

  /** A local open request. */
  function OpenLocal(me: Endpoint, window: nat): Endpoint {
    if |LiveIds(me)| == me.streamLimit then me
    else
      var id := NextLocalId(me.lastLocalId);
      me.(lastLocalId := id, slots := me.slots[id := NewSlot(window, true)])
  }

  /** The next frame of the manager is written: a system frame, or one of the ready stream `pick`. */
  function WriteNext(me: Endpoint, pick: StreamID): (r: Endpoint)
    ensures me.wire <= r.wire
  {
    if me.sentAway then me
    else if me.sys != [] then me.(sys := me.sys[1..], wire := me.wire + [me.sys[0]])
    else if pick in me.slots && CanEmit(me.slots[pick]) then
      var f := EmissionOf(me.slots[pick], pick).frame;
      me.(slots := me.slots[pick := SlotEmit(me.slots[pick], pick)],
          wire := me.wire + if f.Some? then [f.value] else [])
    else me
  }

  // ----- Steps and runs -----

  datatype Op =
    | OpenStream
    | ReadStream(id: StreamID, remaining: nat, full: bool)
    | WriteStream(id: StreamID, buf: seq<Byte>, full: bool)
    | ShutStream(id: StreamID, full: bool, blocked: bool)
    | ReleaseStream(id: StreamID)
    | PollManager(pick: StreamID)
    | NextFrame
    | Admission(ok: bool)
    | PollDelivery(full: bool)
    | FinishFrame
    | EndOfInput

  function Update(me: Endpoint, id: StreamID, s: Slot): Endpoint {
    if id in me.slots then me.(slots := me.slots[id := s]) else me
  }

  /** One step of side `me`; the other side only loses the frame that is taken from its wire. */
  function SideStep(me: Endpoint, peer: Endpoint, window: nat, op: Op): (Endpoint, Endpoint) {
    match op
    case OpenStream => (OpenLocal(me, window), peer)
    case ReadStream(id, remaining, full) => (Update(me, id, SlotRead(SlotOf(me, id), remaining, full)), peer)
    case WriteStream(id, buf, full) => (Update(me, id, SlotWrite(SlotOf(me, id), buf, full)), peer)
    case ShutStream(id, full, blocked) => (Update(me, id, SlotShutdown(SlotOf(me, id), full, blocked)), peer)
    case ReleaseStream(id) => (Update(me, id, SlotDrop(SlotOf(me, id))), peer)
    case PollManager(pick) => (WriteNext(me, pick), peer)
    case NextFrame => TakeNext(me, peer, window)
    case Admission(ok) => (Admit(me, ok), peer)
    case PollDelivery(full) => (Route(me, full), peer)
    case FinishFrame => (Conclude(me), peer)
    case EndOfInput => (if me.reader == Resting then EndReader(me) else me, peer)
  }

  datatype SessionStep = ByClient(op: Op) | ByServer(op: Op)

  function StepSession(s: Session, step: SessionStep): Session {
    match step
    case ByClient(op) =>
      var (c, v) := SideStep(s.client, s.server, s.window, op);
      s.(client := c, server := v)
    case ByServer(op) =>
      var (v, c) := SideStep(s.server, s.client, s.window, op);
      s.(client := c, server := v)
  }

  function RunSession(s: Session, steps: seq<SessionStep>): Session
    decreases |steps|
  {
    if steps == [] then s else RunSession(StepSession(s, steps[0]), steps[1..])
  }

  /** There is a local id left; a caller can look at the last one before opening. */
  predicate IdSpaceLeft(e: Endpoint) {
    e.lastLocalId + 2 <= STREAMID_MAX
  }

  /** No stream is opened on a side that has used up its ids. */
  predicate IdsSuffice(s: Session, steps: seq<SessionStep>)
    decreases |steps|
  {
    steps != [] ==>
      && (match steps[0]
          case ByClient(op) => op.OpenStream? ==> IdSpaceLeft(s.client)
          case ByServer(op) => op.OpenStream? ==> IdSpaceLeft(s.server))
      && IdsSuffice(StepSession(s, steps[0]), steps[1..])
  }

  // ----- One stream of a session -----

  predicate IsReset(f: Frame) {
    f.body.Rst?
  }

  /** The data and credit of one stream among the frames on a byte stream. */
  function StreamFrames(fs: seq<Frame>, id: StreamID): seq<Frame> {
    if fs == [] then []
    else (if fs[0].header.streamId == id && !IsReset(fs[0]) then [fs[0]] else []) + StreamFrames(fs[1..], id)
  }

  function ResetCount(fs: seq<Frame>, id: StreamID): nat {
    if fs == [] then 0
    else (if fs[0].header.streamId == id && IsReset(fs[0]) then 1 else 0) + ResetCount(fs[1..], id)
  }

  function PhaseOf(r: Reader, id: StreamID): Phase {
    match r
    case Admitting(f) => if f.header.streamId == id then Accepting(f) else Idle
    case Routing(p) => if p.frame.header.streamId == id && !IsReset(p.frame) then Sending(p) else Idle
    case Finishing(i) => if i == id then Closing else Idle
    case _ => Idle
  }

  /** RST frames for a stream that `me` has decided on and `peer` has not handled. */
  function ResetsUnderWay(me: Endpoint, peer: Endpoint, id: StreamID): nat {
    ResetCount(me.sys, id) + ResetCount(me.wire, id)
    + (if me.reader.Resetting? && me.reader.id == id then 1 else 0)
    + (if peer.reader.Routing? && IsReset(peer.reader.parcel.frame) && peer.reader.parcel.frame.header.streamId == id
       then 1 else 0)
  }

  function EndOf(me: Endpoint, peer: Endpoint, id: StreamID): End {
    End(SlotOf(me, id), StreamFrames(peer.wire, id), PhaseOf(me.reader, id),
        ResetsUnderWay(me, peer, id), me.reader.Ended?)
  }

  /** Odd ids belong to streams opened by the client. */
  predicate OpensHere(e: Endpoint, id: StreamID) {
    e.client <==> id % 2 == 1
  }
}
