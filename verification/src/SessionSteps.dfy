/** Every step of a session is, for every stream, a step of that stream or nothing. */
module SessionSteps {
  import opened Wrappers
  import opened Frames
  import opened Flows
  import opened StreamOutput
  import opened Windows
  import opened Streams
  import opened Managers
  import opened Links
  import opened LinkProofs
  import opened LinkSteps
  import opened LinkDelivery
  import opened LinkEmission
  import opened Sessions

  // ----- The frames of one stream -----

  lemma {:induction false} FramesAppend(fs: seq<Frame>, f: Frame, id: StreamID)
    ensures StreamFrames(fs + [f], id)
         == StreamFrames(fs, id) + if f.header.streamId == id && !IsReset(f) then [f] else []
    ensures ResetCount(fs + [f], id)
         == ResetCount(fs, id) + if f.header.streamId == id && IsReset(f) then 1 else 0
  {
    if fs != [] {
      assert (fs + [f])[1..] == fs[1..] + [f];
      FramesAppend(fs[1..], f, id);
    } else {
      assert [f][1..] == [];
    }
  }

  lemma {:induction false} FramesMembers(fs: seq<Frame>, id: StreamID)
    ensures forall f :: f in fs && f.header.streamId == id && !IsReset(f) <==> f in StreamFrames(fs, id)
  {
    if fs != [] {
      FramesMembers(fs[1..], id);
    }
  }

  lemma {:induction false} OnlyResets(fs: seq<Frame>, id: StreamID)
    requires forall f | f in fs :: IsReset(f)
    ensures StreamFrames(fs, id) == []
  {
    if fs != [] {
      OnlyResets(fs[1..], id);
    }
  }

  // ----- Invariants -----

  /** The only reset one implementation ever sends to another. */
  predicate PlainReset(f: Frame) {
    f.header.streamId != 0 && f == RstFrame(f.header.streamId, StreamClosed)
  }

  predicate ReaderClean(r: Reader) {
    match r
    case Admitting(f) => !IsReset(f)
    case Routing(p) => IsReset(p.frame) ==> PlainReset(p.frame) && p == NewParcel(p.frame)
    case Resetting(id, e) => id != 0 && e == StreamClosed
    case _ => true
  }

  predicate IdsInOrder(e: Endpoint) {
    && 0 !in e.slots
    && e.lastLocalId % 2 == (if e.client then 1 else 0)
    && forall id | id in e.slots :: e.slots[id].known && (OpensHere(e, id) ==> id <= e.lastLocalId)
  }

  predicate Clean(e: Endpoint) {
    && !e.sentAway
    && (forall f | f in e.sys :: PlainReset(f))
    && (forall f | f in e.wire :: IsReset(f) ==> PlainReset(f))
    && ReaderClean(e.reader)
    && IdsInOrder(e)
  }

  ghost predicate Safe(me: Endpoint, peer: Endpoint, window: nat, id: StreamID) {
    Linked(EndOf(me, peer, id), EndOf(peer, me, id), OpensHere(me, id), window)
  }

  ghost predicate StreamsSafe(me: Endpoint, peer: Endpoint, window: nat) {
    forall id: StreamID :: Safe(me, peer, window, id)
  }

  ghost predicate Joint(me: Endpoint, peer: Endpoint, window: nat) {
    && me.client == !peer.client
    && Clean(me) && Clean(peer)
    && StreamsSafe(me, peer, window)
  }

  lemma JointSymmetric(me: Endpoint, peer: Endpoint, window: nat)
    requires Joint(me, peer, window)
    ensures Joint(peer, me, window)
  {
    forall id: StreamID ensures Safe(peer, me, window, id) {
      assert Safe(me, peer, window, id);
      LinkedSymmetric(EndOf(me, peer, id), EndOf(peer, me, id), OpensHere(me, id), window);
    }
  }

  ghost predicate SessionInv(s: Session) {
    s.client.client && Joint(s.client, s.server, s.window)
  }

  lemma NewSessionInv(window: nat, clientLimit: nat, serverLimit: nat)
    ensures SessionInv(NewSession(window, clientLimit, serverLimit))
  {
    var s := NewSession(window, clientLimit, serverLimit);
    forall id: StreamID ensures Safe(s.client, s.server, window, id) {
      assert EndOf(s.client, s.server, id) == NEW_END && EndOf(s.server, s.client, id) == NEW_END;
      NewPairInv(window, OpensHere(s.client, id));
      PairIsLinked(NEW_END, NEW_END, OpensHere(s.client, id), window);
    }
  }

  // ----- What the frame about to be handled can be -----

  lemma SafeAt(me: Endpoint, peer: Endpoint, window: nat, id: StreamID)
    requires StreamsSafe(me, peer, window)
    ensures PairInv(EndOf(me, peer, id), EndOf(peer, me, id), OpensHere(me, id), window)
  {
    assert Safe(me, peer, window, id);
    LinkedMeans(EndOf(me, peer, id), EndOf(peer, me, id), OpensHere(me, id), window);
  }

  lemma TransitIsSound(x: End, y: End, opener: bool, window: nat)
    requires PairInv(x, y, opener, window)
    ensures AllSound(InTransit(x)) && AllSound(x.slot.outbox.queue)
    ensures InTransit(x) != [] ==> y.slot.known
    ensures x.phase.Accepting? ==> x.phase.frame.IsSyn() && x.slot.known
  {
    assert Shapes(x) && Wiring(y);
  }

  lemma TransitIsSoundFor(me: Endpoint, peer: Endpoint, window: nat, id: StreamID, x: End, y: End)
    requires StreamsSafe(me, peer, window) && x == EndOf(me, peer, id) && y == EndOf(peer, me, id)
    ensures AllSound(InTransit(x)) && AllSound(x.slot.outbox.queue)
    ensures InTransit(x) != [] ==> y.slot.known
    ensures x.phase.Accepting? ==> x.phase.frame.IsSyn() && x.slot.known
  {
    SafeAt(me, peer, window, id);
    TransitIsSound(x, y, OpensHere(me, id), window);
  }

  lemma TransitIsSoundAt(me: Endpoint, peer: Endpoint, window: nat, id: StreamID)
    requires StreamsSafe(me, peer, window)
    ensures AllSound(InTransit(EndOf(me, peer, id))) && AllSound(SlotOf(me, id).outbox.queue)
    ensures InTransit(EndOf(me, peer, id)) != [] ==> SlotOf(peer, id).known
    ensures PhaseOf(me.reader, id).Accepting? ==> me.reader.frame.IsSyn() && SlotOf(me, id).known
  {
    TransitIsSoundFor(me, peer, window, id, EndOf(me, peer, id), EndOf(peer, me, id));
  }

  /** Data and credit on the byte stream towards `me` are what streams produce, with a real id. */
  lemma IncomingIsSound(me: Endpoint, peer: Endpoint, window: nat, f: Frame)
    requires Joint(me, peer, window) && f in peer.wire && !IsReset(f)
    ensures Sound(f) && f.header.streamId != 0
  {
    var id := f.header.streamId;
    FramesMembers(peer.wire, id);
    TransitIsSoundAt(me, peer, window, id);
    assert f in InTransit(EndOf(me, peer, id));
  }

  /** So is what the reader holds. */
  lemma HeldByReaderIsSound(me: Endpoint, peer: Endpoint, window: nat, f: Frame)
    requires Joint(me, peer, window) && !IsReset(f)
    requires me.reader == Admitting(f) || (me.reader.Routing? && me.reader.parcel.frame == f)
    ensures Sound(f) && f.header.streamId != 0
    ensures me.reader == Admitting(f) ==> f.header.streamId in me.slots && f.IsSyn()
  {
    var id := f.header.streamId;
    TransitIsSoundAt(me, peer, window, id);
    assert f in Held(EndOf(me, peer, id)) && f in InTransit(EndOf(me, peer, id));
  }

  // ----- From session steps to stream steps -----

  /** What `op` of side `me` does to stream `id`; None when it does nothing to it. */
  function ActOn(me: Endpoint, peer: Endpoint, op: Op, id: StreamID): Option<Act> {
    match op
    case OpenStream =>
      if |LiveIds(me)| != me.streamLimit && id == NextLocalId(me.lastLocalId) then Some(Open) else None
    case ReadStream(i, remaining, full) => if i == id then Some(ReadBytes(remaining, full)) else None
    case WriteStream(i, buf, full) => if i == id then Some(WriteBytes(buf, full)) else None
    case ShutStream(i, full, blocked) => if i == id then Some(ShutDown(full, blocked)) else None
    case ReleaseStream(i) => if i == id then Some(DropStream) else None
    case PollManager(pick) => if pick == id && me.sys == [] then Some(EmitNext) else None
    case NextFrame =>
      if me.reader != Resting || peer.wire == [] || IsReset(peer.wire[0]) then None
      else
        var ok := |LiveIds(me)| != me.streamLimit;
        if peer.wire[0].header.streamId == id then Some(Receive(ok))
        else if peer.wire[0].IsSyn() && !ok then Some(Stop)
        else None
    case Admission(ok) =>
      if !me.reader.Admitting? then None
      else if me.reader.frame.header.streamId == id then Some(Accept(ok))
      else if ok then None else Some(Stop)
    case PollDelivery(full) =>
      if !me.reader.Routing? || me.reader.parcel.frame.header.streamId != id then None
      else if IsReset(me.reader.parcel.frame) then Some(HandleReset)
      else Some(Attempted(full))
    case FinishFrame => if me.reader == Finishing(id) then Some(CloseWrite) else None
    case EndOfInput => if me.reader == Resting then Some(Stop) else None
  }

  function StepOr(id: StreamID, window: nat, me: End, peer: End, opener: bool, act: Option<Act>): (End, End) {
    if act.Some? then Step(id, window, me, peer, opener, act.value) else (me, peer)
  }

  /** The statement proved for every operation. */
  ghost predicate Projects(me: Endpoint, peer: Endpoint, window: nat, op: Op, id: StreamID) {
    var (me', peer') := SideStep(me, peer, window, op);
    (EndOf(me', peer', id), EndOf(peer', me', id))
      == StepOr(id, window, EndOf(me, peer, id), EndOf(peer, me, id), OpensHere(me, id), ActOn(me, peer, op, id))
  }

  predicate IdsLeftFor(me: Endpoint, op: Op) {
    op.OpenStream? ==> IdSpaceLeft(me)
  }

  lemma OpenProjects(me: Endpoint, peer: Endpoint, window: nat, id: StreamID)
    requires IdsInOrder(me) && IdSpaceLeft(me)
    ensures Projects(me, peer, window, OpenStream, id)
  {}

  // Applications.

  lemma UpdateEnds(me: Endpoint, peer: Endpoint, i: StreamID, s: Slot, id: StreamID, me': Endpoint)
    requires me' == Update(me, i, s) && (i !in me.slots ==> s == BLANK)
    ensures EndOf(me', peer, id) == if i == id then EndOf(me, peer, id).(slot := s) else EndOf(me, peer, id)
    ensures EndOf(peer, me', id) == EndOf(peer, me, id)
  {}

  lemma ReadProjects(me: Endpoint, peer: Endpoint, window: nat, i: StreamID, remaining: nat, full: bool, id: StreamID)
    ensures Projects(me, peer, window, ReadStream(i, remaining, full), id)
  {
    var s := SlotRead(SlotOf(me, i), remaining, full);
    UpdateEnds(me, peer, i, s, id, Update(me, i, s));
  }

  lemma WriteProjects(me: Endpoint, peer: Endpoint, window: nat, i: StreamID, buf: seq<Byte>, full: bool, id: StreamID)
    ensures Projects(me, peer, window, WriteStream(i, buf, full), id)
  {
    var s := SlotWrite(SlotOf(me, i), buf, full);
    UpdateEnds(me, peer, i, s, id, Update(me, i, s));
  }

  lemma ShutProjects(me: Endpoint, peer: Endpoint, window: nat, i: StreamID, full: bool, blocked: bool, id: StreamID)
    ensures Projects(me, peer, window, ShutStream(i, full, blocked), id)
  {
    var s := SlotShutdown(SlotOf(me, i), full, blocked);
    UpdateEnds(me, peer, i, s, id, Update(me, i, s));
  }

  lemma ReleaseProjects(me: Endpoint, peer: Endpoint, window: nat, i: StreamID, id: StreamID)
    ensures Projects(me, peer, window, ReleaseStream(i), id)
  {
    var s := SlotDrop(SlotOf(me, i));
    UpdateEnds(me, peer, i, s, id, Update(me, i, s));
  }

  // The writer.

  lemma SystemFrameEnds(me: Endpoint, peer: Endpoint, id: StreamID, me': Endpoint)
    requires me.sys != [] && IsReset(me.sys[0])
    requires me' == me.(sys := me.sys[1..], wire := me.wire + [me.sys[0]])
    ensures EndOf(me', peer, id) == EndOf(me, peer, id) && EndOf(peer, me', id) == EndOf(peer, me, id)
  {
    FramesAppend(me.wire, me.sys[0], id);
    assert StreamFrames(me.wire, id) + [] == StreamFrames(me.wire, id);
  }

  lemma SystemFrameProjects(me: Endpoint, peer: Endpoint, window: nat, pick: StreamID, id: StreamID)
    requires !me.sentAway && me.sys != [] && IsReset(me.sys[0])
    ensures Projects(me, peer, window, PollManager(pick), id)
  {
    SystemFrameEnds(me, peer, id, me.(sys := me.sys[1..], wire := me.wire + [me.sys[0]]));
  }

  lemma EmissionIsStreamFrame(s: Slot, id: StreamID)
    requires CanEmit(s) && (forall f | f in s.outbox.queue :: !IsReset(f))
    ensures var f := EmissionOf(s, id).frame;
      f.Some? ==> f.value.header.streamId == id && !IsReset(f.value)
  {
    if s.outbox.queue != [] {
      assert s.outbox.queue[0] in s.outbox.queue;
    }
    FinIsSound();
  }

  lemma EmissionEnds(me: Endpoint, peer: Endpoint, pick: StreamID, f: Option<Frame>, s: Slot, id: StreamID,
                     me': Endpoint)
    requires pick in me.slots && (f.Some? ==> f.value.header.streamId == pick && !IsReset(f.value))
    requires me' == me.(slots := me.slots[pick := s], wire := me.wire + if f.Some? then [f.value] else [])
    ensures EndOf(me', peer, id) == if pick == id then EndOf(me, peer, id).(slot := s) else EndOf(me, peer, id)
    ensures EndOf(peer, me', id) ==
      if pick == id then
        EndOf(peer, me, id).(incoming := EndOf(peer, me, id).incoming + if f.Some? then [f.value] else [])
      else EndOf(peer, me, id)
  {
    if f.Some? {
      FramesAppend(me.wire, f.value, id);
    } else {
      assert me.wire + [] == me.wire;
    }
    assert StreamFrames(me.wire, id) + [] == StreamFrames(me.wire, id);
  }

  lemma EmissionProjects(me: Endpoint, peer: Endpoint, window: nat, pick: StreamID, id: StreamID)
    requires !me.sentAway && me.sys == [] && (forall f | f in SlotOf(me, pick).outbox.queue :: !IsReset(f))
    ensures Projects(me, peer, window, PollManager(pick), id)
  {
    if pick in me.slots && CanEmit(me.slots[pick]) {
      EmissionIsStreamFrame(me.slots[pick], pick);
      var f := EmissionOf(me.slots[pick], pick).frame;
      EmissionEnds(me, peer, pick, f, SlotEmit(me.slots[pick], pick), id, WriteNext(me, pick));
    }
  }

  // The reader.

  lemma FirstFrame(fs: seq<Frame>, id: StreamID)
    requires fs != []
    ensures var fs', f := StreamFrames(fs, id), fs[0];
      if f.header.streamId == id && !IsReset(f) then fs' != [] && fs'[0] == f && fs'[1..] == StreamFrames(fs[1..], id)
      else fs' == StreamFrames(fs[1..], id)
    ensures ResetCount(fs, id)
      == ResetCount(fs[1..], id) + if fs[0].header.streamId == id && IsReset(fs[0]) then 1 else 0
  {}

  lemma ResetArrivalEnds(me: Endpoint, peer: Endpoint, id: StreamID, me': Endpoint, peer': Endpoint)
    requires me.reader == Resting && peer.wire != [] && IsReset(peer.wire[0])
    requires me' == me.(reader := Routing(NewParcel(peer.wire[0]))) && peer' == peer.(wire := peer.wire[1..])
    ensures EndOf(me', peer', id) == EndOf(me, peer, id) && EndOf(peer', me', id) == EndOf(peer, me, id)
  {
    FirstFrame(peer.wire, id);
  }

  lemma ResetArrivalProjects(me: Endpoint, peer: Endpoint, window: nat, id: StreamID)
    requires me.reader == Resting && peer.wire != [] && PlainReset(peer.wire[0])
    ensures Projects(me, peer, window, NextFrame, id)
  {
    var (me', peer') := TakeNext(me, peer, window);
    assert me' == me.(reader := Routing(NewParcel(peer.wire[0])));
    ResetArrivalEnds(me, peer, id, me', peer');
  }

  /** The frame `f` leaves the byte stream; stream `i` gets slot `s` and the reader turns to `r`. */
  lemma ArrivalEnds(me: Endpoint, peer: Endpoint, s: Slot, r: Reader, id: StreamID, me': Endpoint, peer': Endpoint)
    requires me.reader == Resting && peer.wire != [] && !IsReset(peer.wire[0])
    requires r == Admitting(peer.wire[0]) || r == Routing(NewParcel(peer.wire[0]))
    requires me' == me.(slots := me'.slots, lastRemoteId := me'.lastRemoteId, reader := r)
    requires forall k: StreamID :: SlotOf(me', k) == if k == peer.wire[0].header.streamId then s else SlotOf(me, k)
    requires peer' == peer.(wire := peer.wire[1..])
    ensures var x := EndOf(me, peer, id);
      EndOf(me', peer', id) ==
        if peer.wire[0].header.streamId == id then
          x.(slot := s, incoming := StreamFrames(peer.wire[1..], id), phase := PhaseOf(r, id))
        else x
    ensures EndOf(peer', me', id) == EndOf(peer, me, id)
  {
    FirstFrame(peer.wire, id);
  }

  lemma StreamTaken(me: Endpoint, peer: Endpoint, window: nat, f: Frame, me': Endpoint, peer': Endpoint)
    requires me.reader == Resting && peer.wire != [] && f == peer.wire[0] && f.IsSyn()
    requires |LiveIds(me)| != me.streamLimit && (me', peer') == TakeNext(me, peer, window)
    ensures me' == me.(slots := me'.slots, lastRemoteId := me'.lastRemoteId, reader := Admitting(f))
    ensures forall k: StreamID ::
      SlotOf(me', k) == if k == f.header.streamId then NewSlot(window, false) else SlotOf(me, k)
    ensures peer' == peer.(wire := peer.wire[1..])
  {}

  lemma StreamArrivalProjects(me: Endpoint, peer: Endpoint, window: nat, id: StreamID)
    requires me.reader == Resting && peer.wire != [] && Sound(peer.wire[0]) && peer.wire[0].IsSyn()
    requires |LiveIds(me)| != me.streamLimit
    ensures Projects(me, peer, window, NextFrame, id)
  {
    FirstFrame(peer.wire, id);
    var f := peer.wire[0];
    var (me', peer') := TakeNext(me, peer, window);
    StreamTaken(me, peer, window, f, me', peer');
    ArrivalEnds(me, peer, NewSlot(window, false), Admitting(f), id, me', peer');
  }

  lemma EndReaderEnds(me: Endpoint, peer: Endpoint, id: StreamID, me': Endpoint)
    requires me.reader == Resting && me' == EndReader(me)
    ensures EndOf(me', peer, id) == Stopped(EndOf(me, peer, id)) && EndOf(peer, me', id) == EndOf(peer, me, id)
  {}

  lemma StreamRefusalEnds(me: Endpoint, peer: Endpoint, id: StreamID, me': Endpoint, peer': Endpoint)
    requires me.reader == Resting && peer.wire != [] && !IsReset(peer.wire[0])
    requires me' == EndReader(me) && peer' == peer.(wire := peer.wire[1..])
    ensures EndOf(me', peer', id) == Stopped(EndOf(me, peer, id)).(incoming := StreamFrames(peer.wire[1..], id))
    ensures EndOf(peer', me', id) == EndOf(peer, me, id)
  {
    FirstFrame(peer.wire, id);
    EndReaderEnds(me, peer, id, me');
  }

  lemma StreamRefused(me: Endpoint, peer: Endpoint, window: nat)
    requires me.reader == Resting && peer.wire != [] && peer.wire[0].IsSyn() && |LiveIds(me)| == me.streamLimit
    ensures TakeNext(me, peer, window) == (EndReader(me), peer.(wire := peer.wire[1..]))
  {}

  lemma StreamRefusalProjects(me: Endpoint, peer: Endpoint, window: nat, id: StreamID)
    requires me.reader == Resting && peer.wire != [] && Sound(peer.wire[0]) && peer.wire[0].IsSyn()
    requires |LiveIds(me)| == me.streamLimit
    ensures Projects(me, peer, window, NextFrame, id)
  {
    FirstFrame(peer.wire, id);
    StreamRefused(me, peer, window);
    StreamRefusalEnds(me, peer, id, EndReader(me), peer.(wire := peer.wire[1..]));
  }

  lemma FrameTaken(me: Endpoint, peer: Endpoint, window: nat, f: Frame)
    requires me.reader == Resting && peer.wire != [] && f == peer.wire[0] && Sound(f) && !f.IsSyn()
    ensures TakeNext(me, peer, window)
         == (me.(reader := Routing(NewParcel(f))), peer.(wire := peer.wire[1..]))
  {}

  lemma FrameArrivalEnds(me: Endpoint, peer: Endpoint, id: StreamID, me': Endpoint, peer': Endpoint)
    requires me.reader == Resting && peer.wire != [] && Sound(peer.wire[0])
    requires me' == me.(reader := Routing(NewParcel(peer.wire[0]))) && peer' == peer.(wire := peer.wire[1..])
    ensures var x, f := EndOf(me, peer, id), peer.wire[0];
      EndOf(me', peer', id) ==
        if f.header.streamId == id then
          x.(incoming := StreamFrames(peer.wire[1..], id), phase := Sending(NewParcel(f)))
        else x
    ensures EndOf(peer', me', id) == EndOf(peer, me, id)
  {
    ArrivalEnds(me, peer, SlotOf(me, peer.wire[0].header.streamId), Routing(NewParcel(peer.wire[0])), id, me', peer');
  }

  lemma FrameArrivalProjects(me: Endpoint, peer: Endpoint, window: nat, id: StreamID)
    requires me.reader == Resting && peer.wire != [] && Sound(peer.wire[0]) && !peer.wire[0].IsSyn()
    ensures Projects(me, peer, window, NextFrame, id)
  {
    FirstFrame(peer.wire, id);
    var f := peer.wire[0];
    FrameTaken(me, peer, window, f);
    FrameArrivalEnds(me, peer, id, me.(reader := Routing(NewParcel(f))), peer.(wire := peer.wire[1..]));
  }

  lemma AdmissionProjects(me: Endpoint, peer: Endpoint, window: nat, ok: bool, id: StreamID)
    requires me.reader.Admitting? ==> Sound(me.reader.frame) && me.reader.frame.header.streamId in me.slots
    ensures Projects(me, peer, window, Admission(ok), id)
  {}

  lemma ResetDelivered(s: Slot, p: Parcel, full: bool)
    requires IsReset(p.frame) && PlainReset(p.frame) && p == NewParcel(p.frame)
    ensures SlotDeliver(s, p, full) == SlotReset(s, StreamClosed)
    ensures Deliver(p, s.entry, s.code, s.inbox, full).poll == Ready(Ok(()))
  {
    assert s.delivered + [] == s.delivered;
  }

  /** The delivery of a frame of stream `i` goes on or ends: `s` is the new slot, `r` the new reader. */
  lemma DeliveryEnds(me: Endpoint, peer: Endpoint, i: StreamID, s: Slot, r: Reader, id: StreamID, me': Endpoint)
    requires me.reader.Routing? && me.reader.parcel.frame.header.streamId == i
    requires r == Resting || r == Finishing(i) || (r.Resetting? && r.id == i)
          || (r.Routing? && r.parcel.frame == me.reader.parcel.frame)
    requires me' == Update(me, i, s).(reader := r, lastProcessed := me'.lastProcessed)
    requires i !in me.slots ==> s == BLANK
    ensures var x, reset := EndOf(me, peer, id), IsReset(me.reader.parcel.frame);
      EndOf(me', peer, id) ==
        if i == id then x.(slot := s, phase := PhaseOf(r, id), resets := x.resets + if r.Resetting? then 1 else 0)
        else x
    ensures var y, y' := EndOf(peer, me, id), EndOf(peer, me', id);
      if i == id && IsReset(me.reader.parcel.frame) && !r.Routing? then
        y'.resets == y.resets - 1 && y' == y.(resets := y'.resets)
      else y' == y
  {}

  lemma ResetHandledProjects(me: Endpoint, peer: Endpoint, window: nat, full: bool, id: StreamID)
    requires me.reader.Routing? && PlainReset(me.reader.parcel.frame)
    requires me.reader.parcel == NewParcel(me.reader.parcel.frame)
    ensures Projects(me, peer, window, PollDelivery(full), id)
  {
    var p := me.reader.parcel;
    var i := p.frame.header.streamId;
    ResetDelivered(SlotOf(me, i), p, full);
    DeliveryEnds(me, peer, i, SlotReset(SlotOf(me, i), StreamClosed), Resting, id, Route(me, full));
  }

  lemma UnknownStaysBlank(p: Parcel, full: bool)
    ensures SlotDeliver(BLANK, p, full) == BLANK
  {
    assert BLANK.delivered + [] == [];
  }

  lemma RouteShape(me: Endpoint, p: Parcel, i: StreamID, full: bool, d: Delivery, me': Endpoint)
    requires me.reader == Routing(p) && i == p.frame.header.streamId
    requires d == Deliver(p, SlotOf(me, i).entry, SlotOf(me, i).code, SlotOf(me, i).inbox, full)
    requires me' == Route(me, full)
    ensures me' == Update(me, i, SlotDeliver(SlotOf(me, i), p, full)).(
      reader := ReaderAfter(p.frame, d.poll, d.parcel), lastProcessed := me'.lastProcessed)
  {}

  lemma DeliverNextShape(x: End, p: Parcel, i: StreamID, full: bool, d: Delivery)
    requires x.phase == Sending(p) && i == p.frame.header.streamId && !IsReset(p.frame)
    requires d == Deliver(p, x.slot.entry, x.slot.code, x.slot.inbox, full)
    ensures DeliverNext(x, full) ==
      x.(slot := SlotDeliver(x.slot, p, full),
         phase := PhaseOf(ReaderAfter(p.frame, d.poll, d.parcel), i),
         resets := x.resets + if ReaderAfter(p.frame, d.poll, d.parcel).Resetting? then 1 else 0)
  {}

  lemma DeliveryStepEnds(me: Endpoint, peer: Endpoint, p: Parcel, i: StreamID, full: bool, d: Delivery,
                         id: StreamID, me': Endpoint)
    requires me.reader == Routing(p) && i == p.frame.header.streamId && !IsReset(p.frame)
    requires d == Deliver(p, SlotOf(me, i).entry, SlotOf(me, i).code, SlotOf(me, i).inbox, full)
    requires me' == Route(me, full)
    ensures EndOf(me', peer, id) == if i == id then DeliverNext(EndOf(me, peer, id), full) else EndOf(me, peer, id)
    ensures EndOf(peer, me', id) == EndOf(peer, me, id)
  {
    UnknownStaysBlank(p, full);
    RouteShape(me, p, i, full, d, me');
    DeliveryEnds(me, peer, i, SlotDeliver(SlotOf(me, i), p, full), ReaderAfter(p.frame, d.poll, d.parcel), id, me');
    if i == id {
      DeliverNextShape(EndOf(me, peer, id), p, i, full, d);
    }
  }

  lemma DeliveryProjects(me: Endpoint, peer: Endpoint, window: nat, full: bool, id: StreamID)
    requires me.reader.Routing? && !IsReset(me.reader.parcel.frame)
    ensures Projects(me, peer, window, PollDelivery(full), id)
  {
    var p := me.reader.parcel;
    var i := p.frame.header.streamId;
    var s := SlotOf(me, i);
    var d := Deliver(p, s.entry, s.code, s.inbox, full);
    DeliveryStepEnds(me, peer, p, i, full, d, id, Route(me, full));
  }

  lemma RefusalSentEnds(me: Endpoint, peer: Endpoint, id: StreamID, me': Endpoint)
    requires me.reader.Resetting?
    requires me' == me.(reader := Resting, sys := me.sys + [RstFrame(me.reader.id, me.reader.error)])
    ensures EndOf(me', peer, id) == EndOf(me, peer, id) && EndOf(peer, me', id) == EndOf(peer, me, id)
  {
    FramesAppend(me.sys, RstFrame(me.reader.id, me.reader.error), id);
  }

  lemma ClosingEnds(me: Endpoint, peer: Endpoint, i: StreamID, id: StreamID, me': Endpoint)
    requires me.reader == Finishing(i) && me' == Conclude(me)
    ensures var x := EndOf(me, peer, id);
      EndOf(me', peer, id) == if i == id then x.(slot := SlotWriteClosed(x.slot), phase := Idle) else x
    ensures EndOf(peer, me', id) == EndOf(peer, me, id)
  {}

  lemma FinishProjects(me: Endpoint, peer: Endpoint, window: nat, id: StreamID)
    ensures Projects(me, peer, window, FinishFrame, id)
  {
    match me.reader
    case Resetting(_, _) => RefusalSentEnds(me, peer, id, Conclude(me));
    case Finishing(i) => ClosingEnds(me, peer, i, id, Conclude(me));
    case _ =>
  }

  lemma EndProjects(me: Endpoint, peer: Endpoint, window: nat, id: StreamID)
    ensures Projects(me, peer, window, EndOfInput, id)
  {}

  // ----- All operations -----

  lemma OutboxIsSound(me: Endpoint, peer: Endpoint, window: nat, id: StreamID)
    requires StreamsSafe(me, peer, window)
    ensures forall f | f in SlotOf(me, id).outbox.queue :: !IsReset(f)
  {
    TransitIsSoundAt(me, peer, window, id);
  }

  lemma WriterProjects(me: Endpoint, peer: Endpoint, window: nat, pick: StreamID, id: StreamID)
    requires Joint(me, peer, window)
    ensures Projects(me, peer, window, PollManager(pick), id)
  {
    if me.sys != [] {
      assert PlainReset(me.sys[0]) by { assert me.sys[0] in me.sys; }
      SystemFrameProjects(me, peer, window, pick, id);
    } else {
      OutboxIsSound(me, peer, window, pick);
      EmissionProjects(me, peer, window, pick, id);
    }
  }

  lemma TakingProjects(me: Endpoint, peer: Endpoint, window: nat, id: StreamID)
    requires Joint(me, peer, window)
    ensures Projects(me, peer, window, NextFrame, id)
  {
    if me.reader == Resting && peer.wire != [] {
      var f := peer.wire[0];
      if IsReset(f) {
        ResetArrivalProjects(me, peer, window, id);
      } else {
        IncomingIsSound(me, peer, window, f);
        if !f.IsSyn() {
          FrameArrivalProjects(me, peer, window, id);
        } else if |LiveIds(me)| == me.streamLimit {
          StreamRefusalProjects(me, peer, window, id);
        } else {
          StreamArrivalProjects(me, peer, window, id);
        }
      }
    }
  }

  lemma AdmittingProjects(me: Endpoint, peer: Endpoint, window: nat, ok: bool, id: StreamID)
    requires Joint(me, peer, window)
    ensures Projects(me, peer, window, Admission(ok), id)
  {
    if me.reader.Admitting? {
      HeldByReaderIsSound(me, peer, window, me.reader.frame);
    }
    AdmissionProjects(me, peer, window, ok, id);
  }

  lemma RoutingProjects(me: Endpoint, peer: Endpoint, window: nat, full: bool, id: StreamID)
    requires Joint(me, peer, window)
    ensures Projects(me, peer, window, PollDelivery(full), id)
  {
    if me.reader.Routing? {
      if IsReset(me.reader.parcel.frame) {
        ResetHandledProjects(me, peer, window, full, id);
      } else {
        DeliveryProjects(me, peer, window, full, id);
      }
    }
  }

  /** Each step of a side is, for every stream, a step of that stream or nothing. */
  lemma StepProjects(me: Endpoint, peer: Endpoint, window: nat, op: Op, id: StreamID)
    requires Joint(me, peer, window) && IdsLeftFor(me, op)
    ensures Projects(me, peer, window, op, id)
  {
    match op
    case OpenStream => OpenProjects(me, peer, window, id);
    case ReadStream(i, remaining, full) => ReadProjects(me, peer, window, i, remaining, full, id);
    case WriteStream(i, buf, full) => WriteProjects(me, peer, window, i, buf, full, id);
    case ShutStream(i, full, blocked) => ShutProjects(me, peer, window, i, full, blocked, id);
    case ReleaseStream(i) => ReleaseProjects(me, peer, window, i, id);
    case PollManager(pick) => WriterProjects(me, peer, window, pick, id);
    case NextFrame => TakingProjects(me, peer, window, id);
    case Admission(ok) => AdmittingProjects(me, peer, window, ok, id);
    case PollDelivery(full) => RoutingProjects(me, peer, window, full, id);
    case FinishFrame => FinishProjects(me, peer, window, id);
    case EndOfInput => EndProjects(me, peer, window, id);
  }

  lemma StreamStepKeeps(id: StreamID, window: nat, x: End, y: End, opener: bool, act: Option<Act>, x': End, y': End)
    requires Linked(x, y, opener, window) && (x', y') == StepOr(id, window, x, y, opener, act)
    ensures Linked(x', y', opener, window)
  {
    if act.Some? {
      StepKeeps(id, window, x, y, opener, act.value, x', y');
    }
  }

  lemma StepKeepsStreams(me: Endpoint, peer: Endpoint, window: nat, op: Op, me': Endpoint, peer': Endpoint)
    requires Joint(me, peer, window) && IdsLeftFor(me, op)
    requires (me', peer') == SideStep(me, peer, window, op) && me'.client == me.client
    ensures StreamsSafe(me', peer', window)
  {
    forall id: StreamID ensures Safe(me', peer', window, id) {
      assert Safe(me, peer, window, id);
      StepProjects(me, peer, window, op, id);
      StreamStepKeeps(id, window, EndOf(me, peer, id), EndOf(peer, me, id), OpensHere(me, id),
                      ActOn(me, peer, op, id), EndOf(me', peer', id), EndOf(peer', me', id));
    }
  }

  // ----- What the endpoints keep -----

  lemma UpdateKeepsClean(me: Endpoint, id: StreamID, s: Slot, me': Endpoint)
    requires Clean(me) && (SlotOf(me, id).known ==> s.known) && me' == Update(me, id, s)
    ensures Clean(me')
  {}

  lemma SlotOpsKeepKnown(s: Slot, remaining: nat, buf: seq<Byte>, full: bool, blocked: bool)
    ensures SlotRead(s, remaining, full).known == s.known
    ensures SlotWrite(s, buf, full).known == s.known
    ensures SlotShutdown(s, full, blocked).known == s.known
    ensures SlotDrop(s).known == s.known
  {}

  lemma WriterKeepsClean(me: Endpoint, peer: Endpoint, window: nat, pick: StreamID, me': Endpoint)
    requires Joint(me, peer, window) && me' == WriteNext(me, pick)
    ensures Clean(me')
  {
    if me.sys != [] {
      assert PlainReset(me.sys[0]);
    } else if pick in me.slots && CanEmit(me.slots[pick]) {
      OutboxIsSound(me, peer, window, pick);
      EmissionIsStreamFrame(me.slots[pick], pick);
    }
  }

  lemma SynIsFreshAt(me: Endpoint, peer: Endpoint, window: nat, id: StreamID)
    requires StreamsSafe(me, peer, window) && PhaseOf(me.reader, id) == Idle && !me.reader.Ended?
    requires StreamFrames(peer.wire, id) != [] && StreamFrames(peer.wire, id)[0].IsSyn()
    ensures !OpensHere(me, id) && SlotOf(me, id) == BLANK
  {
    SafeAt(me, peer, window, id);
    SynIsFresh(EndOf(me, peer, id), EndOf(peer, me, id), OpensHere(me, id), window);
  }

  /** The id of an arriving SYN is one of the other side's, not in use here. */
  lemma ArrivingIdIsNew(me: Endpoint, peer: Endpoint, window: nat)
    requires Joint(me, peer, window) && me.reader == Resting && peer.wire != []
    requires !IsReset(peer.wire[0]) && peer.wire[0].IsSyn()
    ensures peer.wire[0].header.streamId !in me.slots && !OpensHere(me, peer.wire[0].header.streamId)
  {
    var id := peer.wire[0].header.streamId;
    FirstFrame(peer.wire, id);
    SynIsFreshAt(me, peer, window, id);
  }

  lemma TakingKeepsClean(me: Endpoint, peer: Endpoint, window: nat, me': Endpoint, peer': Endpoint)
    requires Joint(me, peer, window) && (me', peer') == TakeNext(me, peer, window)
    ensures Clean(me') && Clean(peer')
  {
    if me.reader == Resting && peer.wire != [] {
      var f := peer.wire[0];
      if !IsReset(f) {
        IncomingIsSound(me, peer, window, f);
        if f.IsSyn() {
          ArrivingIdIsNew(me, peer, window);
        }
      } else {
        assert PlainReset(f);
      }
    }
  }

  lemma AdmissionKeepsClean(me: Endpoint, peer: Endpoint, window: nat, ok: bool, me': Endpoint)
    requires Joint(me, peer, window) && me' == Admit(me, ok)
    ensures Clean(me')
  {
    if me.reader.Admitting? {
      HeldByReaderIsSound(me, peer, window, me.reader.frame);
      SlotOpsKeepKnown(SlotOf(me, me.reader.frame.header.streamId), 0, [], false, false);
    }
  }

  lemma ShrinkFits(x: End, y: End, opener: bool, window: nat)
    requires PairInv(x, y, opener, window) && x.phase.Sending? && Sound(x.phase.parcel.frame)
    ensures var p, e := x.phase.parcel, x.slot.entry;
      e.Some? && !(e.value.dataWriteClosed && p.frame.header.typ.Data?) ==> p.shrink <= e.value.window
  {
    var p, e := x.phase.parcel, x.slot.entry;
    if e.Some? && !e.value.dataWriteClosed {
      NoFlowControl(x, y, opener, window);
    }
    assert Shapes(x);
  }

  lemma RefusalOfFitting(p: Parcel, entry: Option<Entry>, code: U32, inbox: Chan, full: bool)
    requires entry.Some? && !(entry.value.dataWriteClosed && p.frame.header.typ.Data?) ==>
      p.shrink <= entry.value.window
    ensures var d := Deliver(p, entry, code, inbox, full);
      d.poll.Ready? && d.poll.value.Err? ==> d.poll.value.error == StreamClosed
  {}

  lemma RefusalOfSound(x: End, y: End, opener: bool, window: nat, full: bool)
    requires PairInv(x, y, opener, window) && x.phase.Sending? && Sound(x.phase.parcel.frame)
    ensures var d := Deliver(x.phase.parcel, x.slot.entry, x.slot.code, x.slot.inbox, full);
      d.poll.Ready? && d.poll.value.Err? ==> d.poll.value.error == StreamClosed
  {
    ShrinkFits(x, y, opener, window);
    RefusalOfFitting(x.phase.parcel, x.slot.entry, x.slot.code, x.slot.inbox, full);
  }

  lemma RefusalAt(me: Endpoint, peer: Endpoint, window: nat, id: StreamID, full: bool, x: End)
    requires StreamsSafe(me, peer, window) && x == EndOf(me, peer, id)
    requires x.phase.Sending? && Sound(x.phase.parcel.frame)
    ensures var d := Deliver(x.phase.parcel, x.slot.entry, x.slot.code, x.slot.inbox, full);
      d.poll.Ready? && d.poll.value.Err? ==> d.poll.value.error == StreamClosed
  {
    SafeAt(me, peer, window, id);
    RefusalOfSound(x, EndOf(peer, me, id), OpensHere(me, id), window, full);
  }

  /** A delivery is never refused for flow control. */
  lemma RefusalIsStreamClosed(me: Endpoint, peer: Endpoint, window: nat, full: bool)
    requires Joint(me, peer, window) && me.reader.Routing?
    ensures var p := me.reader.parcel;
      var s := SlotOf(me, p.frame.header.streamId);
      var d := Deliver(p, s.entry, s.code, s.inbox, full);
      d.poll.Ready? && d.poll.value.Err? ==>
        d.poll.value.error == StreamClosed && p.frame.header.streamId != 0 && !IsReset(p.frame)
  {
    var p := me.reader.parcel;
    if !IsReset(p.frame) {
      var id := p.frame.header.streamId;
      HeldByReaderIsSound(me, peer, window, p.frame);
      RefusalAt(me, peer, window, id, full, EndOf(me, peer, id));
    }
  }

  lemma DeliveryKeepsClean(me: Endpoint, peer: Endpoint, window: nat, full: bool, me': Endpoint)
    requires Joint(me, peer, window) && me' == Route(me, full)
    ensures Clean(me')
  {
    if me.reader.Routing? {
      var p := me.reader.parcel;
      var i := p.frame.header.streamId;
      var s := SlotOf(me, i);
      var d := Deliver(p, s.entry, s.code, s.inbox, full);
      RefusalIsStreamClosed(me, peer, window, full);
      RouteShape(me, p, i, full, d, me');
      if IsReset(p.frame) {
        ResetDelivered(s, p, full);
      }
      UpdateKeepsClean(me, i, SlotDeliver(s, p, full), Update(me, i, SlotDeliver(s, p, full)));
    }
  }

  lemma ConcludeKeepsClean(me: Endpoint, me': Endpoint)
    requires Clean(me) && me' == Conclude(me)
    ensures Clean(me')
  {}

  lemma EndKeepsClean(me: Endpoint, me': Endpoint)
    requires Clean(me) && me' == EndReader(me)
    ensures Clean(me')
  {}

  lemma OpenKeepsClean(me: Endpoint, window: nat, me': Endpoint)
    requires Clean(me) && IdSpaceLeft(me) && me' == OpenLocal(me, window)
    ensures Clean(me')
  {}

  lemma AppKeepsClean(me: Endpoint, peer: Endpoint, window: nat, op: Op, me': Endpoint)
    requires Clean(me) && me' == SideStep(me, peer, window, op).0
    requires op.ReadStream? || op.WriteStream? || op.ShutStream? || op.ReleaseStream?
    ensures Clean(me')
  {
    match op
    case ReadStream(i, remaining, full) =>
      SlotOpsKeepKnown(SlotOf(me, i), remaining, [], full, false);
      UpdateKeepsClean(me, i, SlotRead(SlotOf(me, i), remaining, full), me');
    case WriteStream(i, buf, full) =>
      SlotOpsKeepKnown(SlotOf(me, i), 0, buf, full, false);
      UpdateKeepsClean(me, i, SlotWrite(SlotOf(me, i), buf, full), me');
    case ShutStream(i, full, blocked) =>
      SlotOpsKeepKnown(SlotOf(me, i), 0, [], full, blocked);
      UpdateKeepsClean(me, i, SlotShutdown(SlotOf(me, i), full, blocked), me');
    case ReleaseStream(i) =>
      SlotOpsKeepKnown(SlotOf(me, i), 0, [], false, false);
      UpdateKeepsClean(me, i, SlotDrop(SlotOf(me, i)), me');
  }

  lemma StepKeepsClean(me: Endpoint, peer: Endpoint, window: nat, op: Op, me': Endpoint, peer': Endpoint)
    requires Joint(me, peer, window) && IdsLeftFor(me, op)
    requires (me', peer') == SideStep(me, peer, window, op)
    ensures Clean(me') && Clean(peer')
  {
    match op
    case OpenStream => OpenKeepsClean(me, window, me');
    case PollManager(pick) => WriterKeepsClean(me, peer, window, pick, me');
    case NextFrame => TakingKeepsClean(me, peer, window, me', peer');
    case Admission(ok) => AdmissionKeepsClean(me, peer, window, ok, me');
    case PollDelivery(full) => DeliveryKeepsClean(me, peer, window, full, me');
    case FinishFrame => ConcludeKeepsClean(me, me');
    case EndOfInput => EndKeepsClean(me, EndReader(me));
    case _ => AppKeepsClean(me, peer, window, op, me');
  }

  lemma SidesStay(me: Endpoint, peer: Endpoint, window: nat, op: Op, me': Endpoint, peer': Endpoint)
    requires (me', peer') == SideStep(me, peer, window, op)
    ensures me'.client == me.client && peer'.client == peer.client
  {}

  lemma JointStep(me: Endpoint, peer: Endpoint, window: nat, op: Op, me': Endpoint, peer': Endpoint)
    requires Joint(me, peer, window) && IdsLeftFor(me, op)
    requires (me', peer') == SideStep(me, peer, window, op)
    ensures Joint(me', peer', window)
  {
    SidesStay(me, peer, window, op, me', peer');
    StepKeepsClean(me, peer, window, op, me', peer');
    StepKeepsStreams(me, peer, window, op, me', peer');
  }

  // ----- Runs -----

  predicate IdsLeftForStep(s: Session, step: SessionStep) {
    match step
    case ByClient(op) => IdsLeftFor(s.client, op)
    case ByServer(op) => IdsLeftFor(s.server, op)
  }

  lemma SessionStepKeeps(s: Session, step: SessionStep)
    requires SessionInv(s) && IdsLeftForStep(s, step)
    ensures SessionInv(StepSession(s, step)) && StepSession(s, step).window == s.window
  {
    var s' := StepSession(s, step);
    match step
    case ByClient(op) =>
      SidesStay(s.client, s.server, s.window, op, s'.client, s'.server);
      JointStep(s.client, s.server, s.window, op, s'.client, s'.server);
    case ByServer(op) =>
      SidesStay(s.server, s.client, s.window, op, s'.server, s'.client);
      JointSymmetric(s.client, s.server, s.window);
      JointStep(s.server, s.client, s.window, op, s'.server, s'.client);
      JointSymmetric(s'.server, s'.client, s.window);
  }

  lemma {:induction false} SessionRunKeeps(s: Session, steps: seq<SessionStep>)
    requires SessionInv(s) && IdsSuffice(s, steps)
    ensures SessionInv(RunSession(s, steps)) && RunSession(s, steps).window == s.window
    decreases |steps|
  {
    if steps != [] {
      SessionStepKeeps(s, steps[0]);
      SessionRunKeeps(StepSession(s, steps[0]), steps[1..]);
    }
  }
}
