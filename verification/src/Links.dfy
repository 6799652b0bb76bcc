/**
 * One stream seen from both of its ends: the two stream objects, their handles, the channels in
 * between, and the frames of this stream on the byte stream. Every step is built from the functions
 * the classes are proved against (Streams, Managers). Histories of what was accepted, emitted,
 * delivered and read are kept beside the state.
 */
module Links {
  import opened Wrappers
  import opened Frames
  import opened Flows
  import opened StreamOutput
  import opened Windows
  import opened Streams
  import opened Managers

  // ----- One end of a stream -----

  /**
   * `entry` is the manager's handle, `app` the stream object; either may be gone.
   * Histories: bytes accepted by `poll_write`, frames handed to the byte stream by `poll_next`,
   * bytes put into the stream's channel by the reader, bytes returned by `poll_read`, and whether
   * a FIN has been put into the channel.
   */
  datatype Slot = Slot(
    known: bool,
    entry: Option<Entry>,
    app: Option<App>,
    code: U32,
    inbox: Chan,
    outbox: Chan,
    accepted: seq<Byte>,
    emitted: seq<Frame>,
    delivered: seq<Byte>,
    read: seq<Byte>,
    finDelivered: bool)
  {
    function State(): StreamState
      requires app.Some?
    {
      StreamState(app.value, code, inbox, outbox)
    }

    function With(s: StreamState): Slot {
      this.(app := Some(s.app), code := s.code, inbox := s.inbox, outbox := s.outbox)
    }

    /** Everything emitted and everything waiting to be. */
    function Output(): seq<Frame> { emitted + outbox.queue }
  }

  const BLANK := Slot(false, None, None, 0, OPEN_CHAN, OPEN_CHAN, [], [], [], [], false)

  function NewSlot(window: nat, needsSyn: bool): Slot {
    Slot(true, Some(NewEntry(window)), Some(NewApp(window, needsSyn)), 0, OPEN_CHAN, OPEN_CHAN,
         [], [], [], [], false)
  }

  /** The application can be polled. A frame of a kind streams never receive would make it panic. */
  predicate Pollable(s: Slot) {
    s.app.Some? && AllStreamFrames(s.inbox.queue)
  }

  /** The bytes a read returns. */
  function Returned(s: Slot, remaining: nat, full: bool): seq<Byte> {
    if !Pollable(s) then []
    else
      var r := Read(s.State(), remaining, full).0;
      if r.Ready? then r.value else []
  }

  function SlotRead(s: Slot, remaining: nat, full: bool): Slot {
    if !Pollable(s) then s
    else s.With(Read(s.State(), remaining, full).1).(read := s.read + Returned(s, remaining, full))
  }

  /** The bytes a write accepts. */
  function Accepted(s: Slot, buf: seq<Byte>, full: bool): seq<Byte> {
    if !Pollable(s) then []
    else
      var r := Write(s.State(), buf, full).0;
      if r.Ready? && r.value.Ok? then buf[..r.value.value] else []
  }

  function SlotWrite(s: Slot, buf: seq<Byte>, full: bool): Slot {
    if !Pollable(s) then s
    else s.With(Write(s.State(), buf, full).1).(accepted := s.accepted + Accepted(s, buf, full))
  }

  function SlotShutdown(s: Slot, full: bool, blocked: bool): Slot {
    if s.app.None? then s else s.With(Shutdown(s.State(), full, blocked).1)
  }

  function SlotDrop(s: Slot): Slot {
    if s.app.None? then s
    else s.(app := None, inbox := s.inbox.DropReceiver(), outbox := s.outbox.CloseSender())
  }

  predicate CanEmit(s: Slot) {
    s.entry.Some? && s.outbox.HasNext()
  }

  function EmissionOf(s: Slot, id: StreamID): Emission
    requires CanEmit(s)
  {
    Emit(id, s.entry.value, s.code, s.outbox)
  }

  function SlotEmit(s: Slot, id: StreamID): Slot
    requires CanEmit(s)
  {
    var e := EmissionOf(s, id);
    s.(
      entry := e.entry,
      outbox := e.outbox,
      inbox := if e.entry.Some? then s.inbox else s.inbox.CloseSender(),
      emitted := s.emitted + if e.frame.Some? then [e.frame.value] else [])
  }

  /** One poll of the delivery of a frame; a frame that enters the channel is recorded. */
  function SlotDeliver(s: Slot, p: Parcel, full: bool): Slot {
    var d := Deliver(p, s.entry, s.code, s.inbox, full);
    var entered := |d.inbox.queue| > |s.inbox.queue|;
    s.(
      entry := d.entry,
      code := d.code,
      inbox := d.inbox,
      delivered := s.delivered + if entered then p.frame.Payload() else [],
      finDelivered := s.finDelivered || (entered && p.frame.IsFin()))
  }

  function SlotReset(s: Slot, e: Error): Slot {
    if s.entry.None? then s
    else s.(code := CloseCode(s.code, e), entry := Some(s.entry.value.Reset()))
  }

  function SlotWriteClosed(s: Slot): Slot {
    if s.entry.None? then s else s.(entry := Some(s.entry.value.(dataWriteClosed := true)))
  }

  function SlotEndInput(s: Slot): Slot {
    if s.entry.None? then s else s.(inbox := s.inbox.CloseSender())
  }

  // ----- Both ends -----

  /** What the reader is doing with a frame of this stream, between two locked regions. */
  datatype Phase =
    | Idle
    | Accepting(frame: Frame)
    | Sending(parcel: Parcel)
    | Closing

  /**
   * `incoming`: data and credit on the byte stream towards this end. `resets`: RST frames this end
   * has generated that have not been handled yet. `stopped`: the reader has ended.
   */
  datatype End = End(slot: Slot, incoming: seq<Frame>, phase: Phase, resets: nat, stopped: bool)

  const NEW_END := End(BLANK, [], Idle, 0, false)

  /** The steps of one end; `ok`, `full`, `blocked` and the sizes are the environment's choices. */
  datatype Act =
    | Open
    | ReadBytes(remaining: nat, full: bool)
    | WriteBytes(buf: seq<Byte>, full: bool)
    | ShutDown(full: bool, blocked: bool)
    | DropStream
    | EmitNext
    | Receive(ok: bool)
    | Accept(ok: bool)
    | Attempted(full: bool)
    | CloseWrite
    | HandleReset
    | Stop

  function Stopped(me: End): End {
    me.(slot := SlotEndInput(me.slot), stopped := true, phase := Idle)
  }

  /** The reader takes the next frame of this stream; `ok` says whether a new stream was allowed. */
  function ReceiveNext(me: End, window: nat, ok: bool): End {
    if me.phase != Idle || me.stopped || me.incoming == [] then me
    else
      var f := me.incoming[0];
      var me1 := me.(incoming := me.incoming[1..]);
      if f.IsSyn() then
        if ok then me1.(slot := NewSlot(window, false), phase := Accepting(f)) else Stopped(me1)
      else me1.(phase := Sending(NewParcel(f)))
  }

  function AcceptNext(me: End, ok: bool): End {
    if !me.phase.Accepting? then me
    else if ok then me.(phase := Sending(NewParcel(me.phase.frame)))
    else Stopped(me.(slot := SlotDrop(me.slot)))
  }

  function DeliverNext(me: End, full: bool): End {
    if !me.phase.Sending? then me
    else
      var p := me.phase.parcel;
      var d := Deliver(p, me.slot.entry, me.slot.code, me.slot.inbox, full);
      var me1 := me.(slot := SlotDeliver(me.slot, p, full));
      match d.poll
      case Pending => me1.(phase := Sending(d.parcel))
      case Ready(Ok(_)) => me1.(phase := if p.frame.IsFin() then Closing else Idle)
      case Ready(Err(_)) => me1.(phase := Idle, resets := me.resets + 1)
  }

  /** One step of end `me`, whose other end is `peer`; both results in the same order. */
  function Step(id: StreamID, window: nat, me: End, peer: End, opener: bool, act: Act): (End, End) {
    match act
    case Open =>
      (if opener && !me.slot.known then me.(slot := NewSlot(window, true)) else me, peer)
    case ReadBytes(remaining, full) => (me.(slot := SlotRead(me.slot, remaining, full)), peer)
    case WriteBytes(buf, full) => (me.(slot := SlotWrite(me.slot, buf, full)), peer)
    case ShutDown(full, blocked) => (me.(slot := SlotShutdown(me.slot, full, blocked)), peer)
    case DropStream => (me.(slot := SlotDrop(me.slot)), peer)
    case EmitNext =>
      if !CanEmit(me.slot) then (me, peer)
      else
        var f := EmissionOf(me.slot, id).frame;
        (me.(slot := SlotEmit(me.slot, id)),
         peer.(incoming := peer.incoming + if f.Some? then [f.value] else []))
    case Receive(ok) => (ReceiveNext(me, window, ok), peer)
    case Accept(ok) => (AcceptNext(me, ok), peer)
    case Attempted(full) => (DeliverNext(me, full), peer)
    case CloseWrite =>
      (if me.phase == Closing then me.(slot := SlotWriteClosed(me.slot), phase := Idle) else me, peer)
    case HandleReset =>
      if peer.resets == 0 then (me, peer)
      else (me.(slot := SlotReset(me.slot, StreamClosed)), peer.(resets := peer.resets - 1))
    case Stop => (if me.phase == Idle then Stopped(me) else me, peer)
  }

  // ----- The grammar of an end's output -----

  datatype Kind = SynKind | DataKind | CreditKind | FinKind

  function KindOf(f: Frame): Kind {
    if f.body.WndInc? then CreditKind
    else if f.IsFin() then FinKind
    else if f.IsSyn() then SynKind
    else DataKind
  }

  /**
   * An opener sends nothing, or a lone FIN, or one SYN first; the other side sends no SYN. After a
   * FIN there is only credit, so there is at most one FIN and no data behind it.
   */
  ghost predicate Grammar(fs: seq<Frame>, opener: bool) {
    && (forall i | 0 <= i < |fs| :: KindOf(fs[i]) == SynKind ==> i == 0 && opener)
    && (forall i, j | 0 <= i < j < |fs| :: KindOf(fs[i]) == FinKind ==> KindOf(fs[j]) == CreditKind)
    && (opener && fs != [] ==> KindOf(fs[0]) == SynKind || (|fs| == 1 && KindOf(fs[0]) == FinKind))
  }

  /** The shape of the frames the streams of this implementation produce. */
  predicate Sound(f: Frame) {
    && StreamFrame(f)
    && f.header.length == f.body.Len()
    && (f.IsFin() ==> f.body.Data? && f.body.bytes == [] && !f.IsSyn())
    && (f.IsSyn() ==> f.body.Data?)
  }

  predicate AllSound(fs: seq<Frame>) {
    forall f :: f in fs ==> Sound(f)
  }

  // ----- Invariants -----

  /** The frame the reader holds, if any. */
  function Held(e: End): seq<Frame> {
    match e.phase
    case Accepting(f) => [f]
    case Sending(p) => [p.frame]
    case _ => []
  }

  /** The frames of this stream sent to `e` and not handled yet. */
  function InTransit(e: End): seq<Frame> {
    Held(e) + e.incoming
  }

  /** The size of the held frame as far as it has been taken off the window. */
  function Shrunk(e: End): nat {
    if e.phase.Sending? && e.phase.parcel.shrink <= |e.phase.parcel.frame.Payload()|
    then |e.phase.parcel.frame.Payload()| - e.phase.parcel.shrink
    else 0
  }

  /** Data arriving at this end will be refused from now on. */
  predicate Blocked(e: End) {
    e.stopped || (e.slot.known && (e.slot.entry.None? || e.slot.entry.value.dataWriteClosed))
  }

  /** The reader runs, and the application still holds the stream if it ever had it. */
  predicate HealthyEnd(e: End) {
    !e.stopped && (e.slot.known ==> e.slot.app.Some?)
  }

  predicate Healthy(x: End, y: End) {
    HealthyEnd(x) && HealthyEnd(y)
  }

  /** Who holds which end of the channels. */
  ghost predicate Wiring(e: End) {
    var s := e.slot;
    && (!s.known ==> s == BLANK)
    && (s.known && s.app.None? ==> s.outbox.txClosed && s.inbox.rxClosed && s.inbox.queue == [])
    && (s.app.Some? ==> s.known && !s.outbox.txClosed && !s.inbox.rxClosed)
    && (s.app.Some? && s.app.value.dataReadClosed ==> s.app.value.finSeen || s.inbox.txClosed)
    && (s.entry.Some? ==> s.known && !s.outbox.rxClosed && (s.inbox.txClosed ==> e.stopped))
    && (s.known && s.entry.None? ==> s.outbox.rxClosed && s.outbox.queue == [] && s.inbox.txClosed)
    && (e.stopped ==> e.phase == Idle)
  }

  /** Everything in transit has the shape streams produce. */
  ghost predicate Shapes(e: End) {
    && AllSound(e.slot.emitted) && AllSound(e.slot.outbox.queue) && AllSound(e.slot.inbox.queue)
    && AllSound(InTransit(e))
    && (e.phase.Accepting? ==> e.phase.frame.IsSyn() && e.slot.known)
    && (e.phase.Sending? ==>
          e.phase.parcel.shrink == 0 || e.phase.parcel.shrink == |e.phase.parcel.frame.Payload()|)
  }

  /** The outgoing half of an end: what was accepted is what was emitted and what waits. */
  ghost predicate Outgoing(e: End, opener: bool) {
    var s := e.slot;
    && Grammar(s.Output(), opener)
    && PayloadOf(s.emitted) <= s.accepted
    && (s.entry.Some? || s.code == 0 ==> PayloadOf(s.emitted) + PayloadOf(s.outbox.queue) == s.accepted)
    && (HasFin(s.emitted) ==> PayloadOf(s.emitted) == s.accepted)
    // a closed sink needs no FIN; an open one needs it exactly while none was emitted
    && (s.entry.Some? && s.code != 0 ==> !s.entry.value.needsFin && s.entry.value.dataWriteClosed)
    && (s.entry.Some? && s.code == 0 ==> (s.entry.value.needsFin <==> !HasFin(s.emitted)))
    && (s.known && s.entry.None? && s.code == 0 ==> s.app.None? && HasFin(s.emitted))
    // a stream open for writing
    && (s.app.Some? && s.app.value.writeClosed.None? ==>
          && !HasFin(s.emitted) && !HasFin(s.outbox.queue)
          && (s.app.value.needsSyn ==> opener && s.Output() == [])
          && (s.entry.Some? && opener && !s.app.value.needsSyn ==> s.Output() != []))
    // one closed for writing without an error has sent its FIN
    && (s.app.Some? && s.app.value.writeClosed.Some? && s.code == 0 ==>
          HasFin(s.emitted) || HasFin(s.outbox.queue))
  }

  /** The incoming half of an end: what was delivered is what was read and what is buffered. */
  ghost predicate Incoming(e: End, window: nat) {
    var s := e.slot;
    && s.read <= s.delivered
    && (s.app.Some? ==>
          && s.delivered == s.read + s.app.value.readBuf + PayloadOf(s.inbox.queue)
          && (s.app.value.finSeen || HasFin(s.inbox.queue) <==> s.finDelivered)
          && (s.app.value.finSeen ==> s.app.value.dataReadClosed)
          && Quiet(s.app.value.finSeen, s.inbox.queue)
          && s.app.value.window.maxSize == window
          && s.app.value.window.size <= window)
    && CreditOf(s.emitted) + CreditOf(s.outbox.queue) <= |s.read|
    && (s.entry.Some? && s.code == 0 ==>
          s.entry.value.window + |s.delivered| + Shrunk(e) == window + CreditOf(s.emitted))
  }

  ghost predicate EndInv(e: End, opener: bool, window: nat) {
    Wiring(e) && Shapes(e) && Outgoing(e, opener) && Incoming(e, window)
  }

  /** How much of `x`'s output `y` has finished with. */
  function Handled(x: End, y: End): nat
    requires |InTransit(y)| <= |x.slot.emitted|
  {
    |x.slot.emitted| - |InTransit(y)|
  }

  /** `y` handles the output of `x` in order; after a FIN it closes its handle for writing. */
  ghost predicate InOrder(x: End, y: End) {
    && IsSuffix(InTransit(y), x.slot.emitted)
    && (y.phase == Closing ==> FinWithin(x.slot.emitted, Handled(x, y)))
  }

  /** Bytes on their way from `x` to `y`. */
  ghost predicate Conserved(x: End, y: End) {
    && y.slot.delivered <= PayloadOf(x.slot.emitted)
    && (Healthy(x, y) || !Blocked(y) ==>
          y.slot.delivered + PayloadOf(InTransit(y)) == PayloadOf(x.slot.emitted))
    && (y.slot.finDelivered ==>
          HasFin(x.slot.emitted) && y.slot.delivered == PayloadOf(x.slot.emitted))
  }

  ghost predicate Transfer(x: End, y: End) {
    InOrder(x, y) && Conserved(x, y)
  }

  /** Credit for bytes from `x` to `y`, returned by `y`. */
  ghost predicate Crediting(x: End, y: End, window: nat) {
    && |x.slot.accepted| <= window + CreditOf(y.slot.emitted)
    && (x.slot.app.Some? ==>
          x.slot.app.value.window.size + |x.slot.accepted| + CreditOf(x.slot.inbox.queue) + CreditOf(InTransit(x))
            <= window + CreditOf(y.slot.emitted))
  }

  /** The SYN of `a` has been taken off the byte stream by `b`. */
  predicate SynTaken(a: End, b: End) {
    |b.incoming| < |a.slot.emitted| && KindOf(a.slot.emitted[0]) == SynKind
  }

  /** The other side knows the stream exactly when it has taken the SYN, unless that stopped it. */
  ghost predicate Opening(a: End, b: End) {
    && (b.slot.known ==> SynTaken(a, b))
    && (SynTaken(a, b) ==> b.slot.known || b.stopped)
  }

  /** While both ends are healthy nothing is reset and no credit is missing. */
  ghost predicate Health(x: End, y: End, window: nat)
    requires |InTransit(y)| <= |x.slot.emitted|
  {
    Healthy(x, y) ==>
      && x.slot.code == 0 && x.resets == 0
      && (y.slot.entry.Some? && y.slot.entry.value.dataWriteClosed ==>
            FinWithin(x.slot.emitted, Handled(x, y)))
      && (y.slot.known && FinWithin(x.slot.emitted, Handled(x, y)) ==> y.slot.finDelivered)
      && CreditOf(x.slot.emitted) + CreditOf(x.slot.outbox.queue) == |x.slot.read|
      && (x.slot.app.Some? ==>
            x.slot.app.value.window.size + |x.slot.accepted| + CreditOf(x.slot.inbox.queue) + CreditOf(InTransit(x))
              == window + CreditOf(y.slot.emitted))
  }

  /** Everything about the direction from `x` to `y` and the credit that comes back. */
  ghost predicate Direction(x: End, y: End, window: nat) {
    Transfer(x, y) && Crediting(x, y, window) && Health(x, y, window)
  }

  ghost predicate PairInv(x: End, y: End, xOpens: bool, window: nat) {
    && EndInv(x, xOpens, window) && EndInv(y, !xOpens, window)
    && Direction(x, y, window) && Direction(y, x, window)
    && (if xOpens then Opening(x, y) else Opening(y, x))
  }

  /** The same invariant with the ends in either order. */
  ghost predicate SeenFrom(x: End, y: End, xOpens: bool, window: nat, swapped: bool) {
    if swapped then PairInv(y, x, !xOpens, window) else PairInv(x, y, xOpens, window)
  }

  /** The invariant of a stream under one name: whole steps are composed without looking inside. */
  ghost predicate Linked(x: End, y: End, xOpens: bool, window: nat) {
    forall swapped: bool :: SeenFrom(x, y, xOpens, window, swapped)
  }

  lemma LinkedMeans(x: End, y: End, xOpens: bool, window: nat)
    requires Linked(x, y, xOpens, window)
    ensures PairInv(x, y, xOpens, window)
  {
    assert SeenFrom(x, y, xOpens, window, false);
  }

  lemma PairSymmetric(x: End, y: End, xOpens: bool, window: nat)
    requires PairInv(x, y, xOpens, window)
    ensures PairInv(y, x, !xOpens, window)
  {}

  lemma PairIsLinked(x: End, y: End, xOpens: bool, window: nat)
    requires PairInv(x, y, xOpens, window)
    ensures Linked(x, y, xOpens, window)
  {
    PairSymmetric(x, y, xOpens, window);
  }

  lemma LinkedSymmetric(x: End, y: End, xOpens: bool, window: nat)
    requires Linked(x, y, xOpens, window)
    ensures Linked(y, x, !xOpens, window)
  {
    LinkedMeans(x, y, xOpens, window);
    PairSymmetric(x, y, xOpens, window);
    PairIsLinked(y, x, !xOpens, window);
  }

  lemma NewPairInv(window: nat, xOpens: bool)
    ensures PairInv(NEW_END, NEW_END, xOpens, window)
  {}
}
