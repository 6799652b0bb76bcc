/**
 * In every session the managers, readers and writers of both sides really are where the session says
 * they are: each step of a side is a sequence of their own operations, with one task for every
 * stream of the map at every moment.
 */
module Tracking {
  import opened Wrappers
  import opened Frames
  import opened Flows
  import opened StreamOutput
  import opened Windows
  import opened Streams
  import opened Managers
  import opened Links
  import opened LinkProofs
  import opened LinkSteps
  import opened Sessions
  import opened SessionSteps
  import opened SessionTasks
  import opened Refinement
  import opened Endpoints
  import opened Guarantees
  import opened Transcripts

  // ----- A step of a side, in operations -----

  /** What the manager sees of a stream that has become `s`. */
  function StreamBecomes(x: SideState, me: Endpoint, id: StreamID, s: Slot): seq<SideOp> {
    if id in me.slots && me.slots[id].entry.Some? then
      [StreamActs(Some(id), s.inbox, Some(IndexOf(x.t.m.waiting, id)), s.outbox)]
    else []
  }

  function OpsOf(x: SideState, me: Endpoint, peer: Endpoint, op: Op): seq<SideOp> {
    match op
    case OpenStream => [OpenNew]
    case ReadStream(id, remaining, full) => StreamBecomes(x, me, id, SlotRead(SlotOf(me, id), remaining, full))
    case WriteStream(id, buf, full) => StreamBecomes(x, me, id, SlotWrite(SlotOf(me, id), buf, full))
    case ShutStream(id, full, blocked) => StreamBecomes(x, me, id, SlotShutdown(SlotOf(me, id), full, blocked))
    case ReleaseStream(id) => StreamBecomes(x, me, id, SlotDrop(SlotOf(me, id)))
    case PollManager(pick) => [WriteOne(IndexOf(x.t.m.waiting, pick))]
    case NextFrame => if peer.wire == [] then [] else [Arrive(peer.wire[0])]
    case Admission(ok) =>
      if ok || !me.reader.Admitting? then [AdmitNew(ok)]
      else
        // a lost accept queue drops the stream before the reader goes on
        var id := me.reader.frame.header.streamId;
        StreamBecomes(x, me, id, SlotDrop(SlotOf(me, id))) + [AdmitNew(false)]
    case PollDelivery(full) => [PollAgain(full)]
    case FinishFrame => [Settle]
    case EndOfInput => [InputEnds]
  }

  /** `x` is the manager, the reader and the writer of side `e`, and in order. */
  ghost predicate Follows(x: SideState, e: Endpoint) {
    Tracks(x.t, e) && SideInv(x) && PlainChannels(x) && Writing(x)
  }

  // ----- Applications -----

  /** What a poll of a stream that still has its manager does to what they share. */
  predicate SharedAct(s: Slot, s': Slot) {
    && s'.entry == s.entry && s'.code == s.code
    && MayLeaveInbox(s.inbox, s'.inbox) && MayLeaveOutbox(s.outbox, s'.outbox)
  }

  lemma PushedMayLeave(c: Chan, f: Frame)
    requires Made(f)
    ensures MayLeaveOutbox(c, c.Push(f)) && MayLeaveOutbox(c, c)
  {}

  lemma SameInboxMayLeave(c: Chan)
    ensures MayLeaveInbox(c, c)
  {}

  lemma ReadIsShared(s: Slot, remaining: nat, full: bool)
    requires s.app.Some? ==> !s.outbox.Disconnected()
    ensures SharedAct(s, SlotRead(s, remaining, full))
  {
    SameInboxMayLeave(s.inbox);
    PushedMayLeave(s.outbox, FinFrame());
    if Pollable(s) {
      var r := Returned(s, remaining, full);
      var mid := ReadMeaning(s.State(), remaining, full);
      if |r| <= WNDINC_MAX {
        PushedMayLeave(s.outbox, FrameFrom(Body.WndInc(|r|)));
      }
    }
  }

  lemma WriteNowIsShared(s: StreamState, buf: seq<Byte>, full: bool)
    requires !s.outbox.Disconnected()
    ensures var t := WriteNow(s, buf, full).1;
      t.code == s.code && t.inbox == s.inbox && MayLeaveOutbox(s.outbox, t.outbox)
  {
    PushedMayLeave(s.outbox, WriteFrame(s, buf[..WriteLen(s.app.window.size, |buf|)]));
  }

  lemma WriteIsShared(s: Slot, buf: seq<Byte>, full: bool)
    requires s.app.Some? ==> !s.outbox.Disconnected()
    ensures SharedAct(s, SlotWrite(s, buf, full))
  {
    SameInboxMayLeave(s.inbox);
    PushedMayLeave(s.outbox, FinFrame());
    if Pollable(s) {
      RecvIngests(s.State(), HeaderType.WndInc);
      WriteNowIsShared(s.State(), buf, full);
      WriteNowIsShared(RecvType(s.State(), HeaderType.WndInc).1, buf, full);
    }
  }

  lemma ShutdownIsShared(s: Slot, full: bool, blocked: bool)
    requires s.app.Some? ==> !s.outbox.Disconnected()
    ensures SharedAct(s, SlotShutdown(s, full, blocked))
  {
    SameInboxMayLeave(s.inbox);
    PushedMayLeave(s.outbox, FinFrame());
    if s.app.Some? {
      var t := Shutdown(s.State(), full, blocked).1;
      assert t.code == s.code && t.inbox == s.inbox;
      assert t.outbox == s.outbox || t.outbox == s.outbox.Push(FinFrame());
    }
  }

  lemma DropIsShared(s: Slot)
    ensures SharedAct(s, SlotDrop(s))
  {
    SameInboxMayLeave(s.inbox);
    PushedMayLeave(s.outbox, FinFrame());
    assert IsSuffix([], s.inbox.queue);
  }

  /** A stream of the map still has its manager, and only an end that let go has closed its channel. */
  lemma LiveOutbox(me: Endpoint, peer: Endpoint, window: nat, id: StreamID)
    requires StreamsSafe(me, peer, window)
    ensures var s := SlotOf(me, id); s.entry.Some? ==> !s.outbox.rxClosed && (s.app.Some? ==> !s.outbox.Disconnected())
  {
    SafeAt(me, peer, window, id);
    assert Wiring(EndOf(me, peer, id));
  }

  lemma OneStep(x: SideState, window: nat, op: SideOp)
    ensures RunSide(x, window, [op]) == StepSide(x, window, op)
  {
    assert [op][1..] == [];
  }

  lemma ActedLines(m: ManagerState, e: Endpoint, id: StreamID, s: Slot, e': Endpoint)
    requires m.lines == Lines(e) && id in e.slots && e.slots[id].entry.Some?
    requires s.entry == e.slots[id].entry && s.code == e.slots[id].code && e' == e.(slots := e.slots[id := s])
    ensures id in m.lines && m.lines[id := m.lines[id].(inbox := s.inbox)] == Lines(e')
    ensures Lines(e').Keys == m.lines.Keys
  {
    assert m.lines[id] == LineOf(e.slots[id]);
  }

  lemma ActedTasks(ws: seq<Waiting>, slots: map<StreamID, Slot>, id: StreamID, s: Slot, i: nat)
    requires TasksMatch(ws, slots) && i < |ws| && ws[i].id == id
    requires forall j | 0 <= j < |ws| && j != i :: ws[j].id != id
    ensures TasksMatch(ws[i := ws[i].(outbox := s.outbox)], slots[id := s])
    ensures WaitingIds(ws[i := ws[i].(outbox := s.outbox)]) == WaitingIds(ws)
  {}

  lemma ActedMatches(m: ManagerState, e: Endpoint, id: StreamID, s: Slot, i: nat, m': ManagerState, e': Endpoint)
    requires Matches(m, e) && !m.sentAway && id in e.slots && e.slots[id].entry.Some? && SharedAct(e.slots[id], s)
    requires i == IndexOf(m.waiting, id) && e' == e.(slots := e.slots[id := s])
    requires MayAct(m, Some(id), s.inbox, Some(i), s.outbox) && m' == Acted(m, Some(id), s.inbox, Some(i), s.outbox)
    ensures Matches(m', e')
  {
    ActedLines(m, e, id, s, e');
    TaskOfLine(m, id);
    ActedTasks(m.waiting, e.slots, id, s, i);
  }

  lemma MayActOf(m: ManagerState, e: Endpoint, id: StreamID, s: Slot, i: nat)
    requires Matches(m, e) && !m.sentAway && id in e.slots && e.slots[id].entry.Some? && SharedAct(e.slots[id], s)
    requires i == IndexOf(m.waiting, id)
    ensures MayAct(m, Some(id), s.inbox, Some(i), s.outbox)
  {
    assert m.lines[id] == LineOf(e.slots[id]);
    TaskOfLine(m, id);
  }

  /** A stream outside the map moves nothing the manager can see. */
  lemma UnseenMatches(m: ManagerState, e: Endpoint, id: StreamID, s: Slot, e': Endpoint)
    requires Matches(m, e) && !m.sentAway && id in e.slots && e.slots[id].entry.None? && s.entry.None?
    requires e' == e.(slots := e.slots[id := s])
    ensures Matches(m, e')
  {
    assert Lines(e') == Lines(e);
    forall i | 0 <= i < |m.waiting| ensures m.waiting[i].id != id {
      WaitingHasLine(m, i);
    }
  }

  lemma StreamBecomesFollows(x: SideState, e: Endpoint, window: nat, id: StreamID, s: Slot, x': SideState, e': Endpoint)
    requires Follows(x, e) && !e.sentAway && e' == Update(e, id, s)
    requires id in e.slots ==> s.entry == e.slots[id].entry && (e.slots[id].entry.Some? ==> SharedAct(e.slots[id], s))
    requires x' == RunSide(x, window, StreamBecomes(x, e, id, s))
    ensures Tracks(x'.t, e') && x'.written == x.written && Writing(x')
  {
    if id in e.slots {
      if e.slots[id].entry.Some? {
        var i := IndexOf(x.t.m.waiting, id);
        OneStep(x, window, StreamActs(Some(id), s.inbox, Some(i), s.outbox));
        MayActOf(x.t.m, e, id, s, i);
        ActedMatches(x.t.m, e, id, s, i, Acted(x.t.m, Some(id), s.inbox, Some(i), s.outbox), e');
      } else {
        UnseenMatches(x.t.m, e, id, s, e');
      }
    }
  }

  lemma SlotOpsKeepEntry(s: Slot, remaining: nat, buf: seq<Byte>, full: bool, blocked: bool)
    ensures SlotRead(s, remaining, full).entry == s.entry
    ensures SlotWrite(s, buf, full).entry == s.entry
    ensures SlotShutdown(s, full, blocked).entry == s.entry
  {}

  lemma AppFollows(x: SideState, me: Endpoint, peer: Endpoint, window: nat, op: Op, x': SideState, me': Endpoint)
    requires Follows(x, me) && Joint(me, peer, window)
    requires op.ReadStream? || op.WriteStream? || op.ShutStream? || op.ReleaseStream?
    requires x' == RunSide(x, window, OpsOf(x, me, peer, op)) && me' == SideStep(me, peer, window, op).0
    ensures Tracks(x'.t, me') && x'.written == x.written && Writing(x')
  {
    match op
    case ReadStream(id, remaining, full) =>
      LiveOutbox(me, peer, window, id);
      if SlotOf(me, id).entry.Some? { ReadIsShared(SlotOf(me, id), remaining, full); }
      SlotOpsKeepEntry(SlotOf(me, id), remaining, [], full, false);
      StreamBecomesFollows(x, me, window, id, SlotRead(SlotOf(me, id), remaining, full), x', me');
    case WriteStream(id, buf, full) =>
      LiveOutbox(me, peer, window, id);
      if SlotOf(me, id).entry.Some? { WriteIsShared(SlotOf(me, id), buf, full); }
      SlotOpsKeepEntry(SlotOf(me, id), 0, buf, full, false);
      StreamBecomesFollows(x, me, window, id, SlotWrite(SlotOf(me, id), buf, full), x', me');
    case ShutStream(id, full, blocked) =>
      LiveOutbox(me, peer, window, id);
      if SlotOf(me, id).entry.Some? { ShutdownIsShared(SlotOf(me, id), full, blocked); }
      SlotOpsKeepEntry(SlotOf(me, id), 0, [], full, blocked);
      StreamBecomesFollows(x, me, window, id, SlotShutdown(SlotOf(me, id), full, blocked), x', me');
    case ReleaseStream(id) =>
      DropIsShared(SlotOf(me, id));
      StreamBecomesFollows(x, me, window, id, SlotDrop(SlotOf(me, id)), x', me');
  }

  // ----- The writer -----

  lemma NextIdIsNotLive(m: ManagerState, me: Endpoint)
    requires Matches(m, me) && IdsInOrder(me) && IdSpaceLeft(me)
    ensures NextLocalId(me.lastLocalId) !in m.lines
  {
    assert OpensHere(me, NextLocalId(me.lastLocalId)) && NextLocalId(me.lastLocalId) !in me.slots;
    LinesAreLive(me);
  }

  lemma OpenFollows(x: SideState, me: Endpoint, window: nat, x': SideState, me': Endpoint)
    requires Follows(x, me) && Clean(me) && IdSpaceLeft(me)
    requires x' == StepSide(x, window, OpenNew) && me' == OpenLocal(me, window)
    ensures Tracks(x'.t, me') && x'.written == x.written && Writing(x')
  {
    NextIdIsNotLive(x.t.m, me);
    OpenIsCreate(x.t.m, me, window);
  }

  lemma NothingOffered(m: ManagerState, me: Endpoint, pick: StreamID, i: nat)
    requires Matches(m, me) && !me.sentAway && i == IndexOf(m.waiting, pick)
    requires !(pick in me.slots && CanEmit(me.slots[pick]))
    ensures !Offered(m, i)
  {
    if pick in m.lines {
      TaskOfLine(m, pick);
    } else {
      NoTaskWithoutLine(m, pick);
    }
  }

  /** What a side of a session writes is never refused by the codec. */
  lemma OutputIsWritable(me: Endpoint, peer: Endpoint, window: nat, op: Op, me': Endpoint, peer': Endpoint)
    requires Joint(me, peer, window) && IdsLeftFor(me, op) && (me', peer') == SideStep(me, peer, window, op)
    ensures forall f :: f in me'.wire ==> Writable(f)
  {
    JointStep(me, peer, window, op, me', peer');
    JointSymmetric(me', peer', window);
    forall f | f in me'.wire ensures Writable(f) {
      if !IsReset(f) {
        IncomingIsSound(peer', me', window, f);
      }
    }
  }

  lemma WriterFollows(x: SideState, me: Endpoint, window: nat, pick: StreamID, x': SideState, me': Endpoint)
    requires Follows(x, me) && !me.sentAway && forall f :: f in me'.wire ==> Writable(f)
    requires x' == StepSide(x, window, WriteOne(IndexOf(x.t.m.waiting, pick))) && me' == WriteNext(me, pick)
    ensures Tracks(x'.t, me') && x'.written == x.written + me'.wire[|me.wire|..] && Writing(x')
  {
    var m, i := x.t.m, IndexOf(x.t.m.waiting, pick);
    if me.sys != [] {
      SystemWriteIsPollNext(m, me, pick);
      assert me'.wire[|me.wire|..] == [me.sys[0]] && me.sys[0] in me'.wire;
    } else if pick in me.slots && CanEmit(me.slots[pick]) {
      WriteIsPollNext(m, me, pick, i);
      var f := EmissionOf(me.slots[pick], pick).frame;
      assert me'.wire[|me.wire|..] == if f.Some? then [f.value] else [];
      assert f.Some? ==> f.value in me'.wire;
    } else {
      NothingOffered(m, me, pick, i);
      assert me'.wire[|me.wire|..] == [];
      assert x.written + [] == x.written;
    }
  }

  // ----- The reader -----

  lemma TakingFollows(x: SideState, me: Endpoint, peer: Endpoint, window: nat, x': SideState, me': Endpoint)
    requires Follows(x, me) && Joint(me, peer, window) && peer.wire != []
    requires x' == StepSide(x, window, Arrive(peer.wire[0])) && me' == TakeNext(me, peer, window).0
    ensures Tracks(x'.t, me') && x'.written == x.written && Writing(x')
    ensures Typed(peer.wire[0])
  {
    var f := peer.wire[0];
    if !IsReset(f) {
      IncomingIsSound(me, peer, window, f);
    }
    if me.reader == Resting {
      if f.IsSyn() {
        ArrivingIdIsNew(me, peer, window);
        LinesAreLive(me);
      }
      TakingIsTook(x.t, me, peer, window);
    }
  }

  lemma AcceptedFollows(x: SideState, me: Endpoint, window: nat, ok: bool, x': SideState, me': Endpoint)
    requires Follows(x, me) && (ok || !me.reader.Admitting?)
    requires me.reader.Admitting? ==> me.reader.frame.header.streamId in me.slots
    requires x' == StepSide(x, window, AdmitNew(ok)) && me' == Admit(me, ok)
    ensures Tracks(x'.t, me') && x'.written == x.written && Writing(x')
  {
    if me.reader.Admitting? {
      AdmissionIsAdmitted(x.t, me, true);
    }
  }

  lemma DroppedFollows(x: SideState, me: Endpoint, window: nat, x1: SideState, x': SideState, me': Endpoint,
                       id: StreamID)
    requires Follows(x, me) && !me.sentAway && me.reader.Admitting?
    requires id == me.reader.frame.header.streamId && id in me.slots
    requires x1 == RunSide(x, window, StreamBecomes(x, me, id, SlotDrop(me.slots[id])))
    requires x' == StepSide(x1, window, AdmitNew(false)) && me' == Admit(me, false)
    ensures Tracks(x'.t, me') && x'.written == x.written && Writing(x')
  {
    DropIsShared(me.slots[id]);
    StreamBecomesFollows(x, me, window, id, SlotDrop(me.slots[id]), x1, Update(me, id, SlotDrop(me.slots[id])));
    AdmissionIsAdmitted(x1.t, me, false);
  }

  lemma RefusedFollows(x: SideState, me: Endpoint, window: nat, id: StreamID, x': SideState, me': Endpoint)
    requires Follows(x, me) && !me.sentAway
    requires me.reader.Admitting? && id == me.reader.frame.header.streamId && id in me.slots
    requires x' == RunSide(x, window, StreamBecomes(x, me, id, SlotDrop(SlotOf(me, id))) + [AdmitNew(false)])
    requires me' == Admit(me, false)
    ensures Tracks(x'.t, me') && x'.written == x.written && Writing(x')
  {
    var first := StreamBecomes(x, me, id, SlotDrop(SlotOf(me, id)));
    var x1 := RunSide(x, window, first);
    RunInTurn(x, window, first, [AdmitNew(false)]);
    OneStep(x1, window, AdmitNew(false));
    DroppedFollows(x, me, window, x1, x', me', id);
  }

  lemma AdmittedIsKnown(me: Endpoint, peer: Endpoint, window: nat)
    requires Joint(me, peer, window)
    ensures me.reader.Admitting? ==> me.reader.frame.header.streamId in me.slots
  {
    if me.reader.Admitting? {
      HeldByReaderIsSound(me, peer, window, me.reader.frame);
    }
  }

  lemma AdmissionFollows(x: SideState, me: Endpoint, peer: Endpoint, window: nat, ok: bool, x': SideState,
                         me': Endpoint)
    requires Follows(x, me) && !me.sentAway
    requires me.reader.Admitting? ==> me.reader.frame.header.streamId in me.slots
    requires x' == RunSide(x, window, OpsOf(x, me, peer, Admission(ok))) && me' == Admit(me, ok)
    ensures Tracks(x'.t, me') && x'.written == x.written && Writing(x')
  {
    if ok || !me.reader.Admitting? {
      OneStep(x, window, AdmitNew(ok));
      AcceptedFollows(x, me, window, ok, x', me');
    } else {
      RefusedFollows(x, me, window, me.reader.frame.header.streamId, x', me');
    }
  }

  lemma DeliveryFollows(x: SideState, me: Endpoint, window: nat, op: Op, x': SideState, me': Endpoint)
    requires Follows(x, me) && (op.PollDelivery? || op.FinishFrame? || op.EndOfInput?)
    requires x' == StepSide(x, window,
      if op.PollDelivery? then PollAgain(op.full) else if op.FinishFrame? then Settle else InputEnds)
    requires me' == match op
      case PollDelivery(full) => Route(me, full)
      case FinishFrame => Conclude(me)
      case _ => if me.reader == Resting then EndReader(me) else me
    ensures Tracks(x'.t, me') && x'.written == x.written && Writing(x')
  {
    match op
    case PollDelivery(full) => if me.reader.Routing? { RouteIsPolled(x.t, me, full); }
    case FinishFrame => ConcludeIsConcluded(x.t, me);
    case _ => if me.reader == Resting { SendersClosedMatches(x.t.m, me); }
  }

  // ----- Every step of a side -----

  lemma TaskStepTracked(x: SideState, me: Endpoint, peer: Endpoint, window: nat, op: Op, x': SideState, me': Endpoint)
    requires Follows(x, me) && Joint(me, peer, window) && IdsLeftFor(me, op)
    requires op.OpenStream? || op.NextFrame? || op.PollDelivery? || op.FinishFrame? || op.EndOfInput?
    requires x' == RunSide(x, window, OpsOf(x, me, peer, op)) && me' == SideStep(me, peer, window, op).0
    ensures Tracks(x'.t, me') && x'.written == x.written && Writing(x')
    ensures AllTyped(OpsOf(x, me, peer, op))
  {
    match op
    case OpenStream =>
      OneStep(x, window, OpenNew);
      OpenFollows(x, me, window, x', me');
    case NextFrame =>
      if peer.wire != [] {
        OneStep(x, window, Arrive(peer.wire[0]));
        TakingFollows(x, me, peer, window, x', me');
      }
    case PollDelivery(full) =>
      OneStep(x, window, PollAgain(full));
      DeliveryFollows(x, me, window, op, x', me');
    case FinishFrame =>
      OneStep(x, window, Settle);
      DeliveryFollows(x, me, window, op, x', me');
    case EndOfInput =>
      OneStep(x, window, InputEnds);
      DeliveryFollows(x, me, window, op, x', me');
  }

  lemma NoFramesNoTypes(x: SideState, me: Endpoint, peer: Endpoint, op: Op)
    requires !op.NextFrame?
    ensures AllTyped(OpsOf(x, me, peer, op))
  {}

  lemma PollTracked(x: SideState, me: Endpoint, peer: Endpoint, window: nat, op: Op, x': SideState, me': Endpoint)
    requires Follows(x, me) && Joint(me, peer, window) && op.PollManager?
    requires x' == RunSide(x, window, OpsOf(x, me, peer, op)) && me' == SideStep(me, peer, window, op).0
    ensures Tracks(x'.t, me') && x'.written == x.written + PutIn(me, op) && Writing(x')
  {
    OneStep(x, window, WriteOne(IndexOf(x.t.m.waiting, op.pick)));
    OutputIsWritable(me, peer, window, op, me', SideStep(me, peer, window, op).1);
    WriterFollows(x, me, window, op.pick, x', me');
  }

  lemma OtherStepTracked(x: SideState, me: Endpoint, peer: Endpoint, window: nat, op: Op, x': SideState, me': Endpoint)
    requires Follows(x, me) && Joint(me, peer, window)
    requires op.Admission? || op.ReadStream? || op.WriteStream? || op.ShutStream? || op.ReleaseStream?
    requires x' == RunSide(x, window, OpsOf(x, me, peer, op)) && me' == SideStep(me, peer, window, op).0
    ensures Tracks(x'.t, me') && x'.written == x.written && Writing(x')
  {
    if op.Admission? {
      AdmittedIsKnown(me, peer, window);
      AdmissionFollows(x, me, peer, window, op.ok, x', me');
    } else {
      AppFollows(x, me, peer, window, op, x', me');
    }
  }

  lemma SideStepTracked(x: SideState, me: Endpoint, peer: Endpoint, window: nat, op: Op, x': SideState, me': Endpoint)
    requires Follows(x, me) && Joint(me, peer, window) && IdsLeftFor(me, op)
    requires x' == RunSide(x, window, OpsOf(x, me, peer, op)) && me' == SideStep(me, peer, window, op).0
    ensures Tracks(x'.t, me') && x'.written == x.written + PutIn(me, op) && Writing(x')
    ensures AllTyped(OpsOf(x, me, peer, op))
  {
    assert x.written + [] == x.written;
    if op.OpenStream? || op.NextFrame? || op.PollDelivery? || op.FinishFrame? || op.EndOfInput? {
      TaskStepTracked(x, me, peer, window, op, x', me');
    } else {
      NoFramesNoTypes(x, me, peer, op);
      if op.PollManager? {
        PollTracked(x, me, peer, window, op, x', me');
      } else {
        OtherStepTracked(x, me, peer, window, op, x', me');
      }
    }
  }

  lemma SideStepFollows(x: SideState, me: Endpoint, peer: Endpoint, window: nat, op: Op, x': SideState, me': Endpoint)
    requires Follows(x, me) && Joint(me, peer, window) && IdsLeftFor(me, op)
    requires x' == RunSide(x, window, OpsOf(x, me, peer, op)) && me' == SideStep(me, peer, window, op).0
    ensures Follows(x', me') && x'.written == x.written + PutIn(me, op)
  {
    SideStepTracked(x, me, peer, window, op, x', me');
    RunKeepsInv(x, window, OpsOf(x, me, peer, op));
    RunStaysPlain(x, window, OpsOf(x, me, peer, op));
  }

  /** The other side only loses a frame of its byte stream. */
  lemma PeerLosesFrames(me: Endpoint, peer: Endpoint, window: nat, op: Op, peer': Endpoint)
    requires peer' == SideStep(me, peer, window, op).1
    ensures peer' == peer.(wire := peer'.wire)
  {}

  lemma ByteStreamIsNotSeen(y: SideState, peer: Endpoint, peer': Endpoint)
    requires Follows(y, peer) && peer' == peer.(wire := peer'.wire)
    ensures Follows(y, peer')
  {
    assert Lines(peer') == Lines(peer);
  }

  lemma PeerStillFollows(y: SideState, me: Endpoint, peer: Endpoint, window: nat, op: Op)
    requires Follows(y, peer)
    ensures Follows(y, SideStep(me, peer, window, op).1)
  {
    var peer' := SideStep(me, peer, window, op).1;
    PeerLosesFrames(me, peer, window, op, peer');
    ByteStreamIsNotSeen(y, peer, peer');
  }

  // ----- Every run -----

  /** The managers, readers and writers of both sides. */
  datatype Machines = Machines(client: SideState, server: SideState)

  function StepMachines(s: Session, k: Machines, step: SessionStep): Machines {
    match step
    case ByClient(op) => k.(client := RunSide(k.client, s.window, OpsOf(k.client, s.client, s.server, op)))
    case ByServer(op) => k.(server := RunSide(k.server, s.window, OpsOf(k.server, s.server, s.client, op)))
  }

  function RunMachines(s: Session, k: Machines, steps: seq<SessionStep>): Machines
    decreases |steps|
  {
    if steps == [] then k else RunMachines(StepSession(s, steps[0]), StepMachines(s, k, steps[0]), steps[1..])
  }

  ghost predicate BothFollow(k: Machines, s: Session) {
    Follows(k.client, s.client) && Follows(k.server, s.server)
  }

  function MachineOf(k: Machines, client: bool): SideState {
    if client then k.client else k.server
  }

  /** What one step of the session puts on the byte stream of one side. */
  function PutBy(s: Session, step: SessionStep, client: bool): seq<Frame> {
    if OpOf(step, client).Some? then PutIn(Side(s, client), OpOf(step, client).value) else []
  }

  lemma StepFollows(s: Session, k: Machines, step: SessionStep, client: bool)
    requires SessionInv(s) && IdsLeftForStep(s, step) && BothFollow(k, s)
    ensures BothFollow(StepMachines(s, k, step), StepSession(s, step))
    ensures MachineOf(StepMachines(s, k, step), client).written == MachineOf(k, client).written + PutBy(s, step, client)
  {
    var k', s' := StepMachines(s, k, step), StepSession(s, step);
    assert MachineOf(k, client).written + [] == MachineOf(k, client).written;
    match step
    case ByClient(op) =>
      SideStepFollows(k.client, s.client, s.server, s.window, op, k'.client, s'.client);
      PeerStillFollows(k.server, s.client, s.server, s.window, op);
    case ByServer(op) =>
      JointSymmetric(s.client, s.server, s.window);
      SideStepFollows(k.server, s.server, s.client, s.window, op, k'.server, s'.server);
      PeerStillFollows(k.client, s.server, s.client, s.window, op);
  }

  lemma PutFirst(s: Session, steps: seq<SessionStep>, client: bool, written: seq<Frame>)
    requires steps != []
    ensures written + AllPut(s, steps, client)
         == written + PutBy(s, steps[0], client) + AllPut(StepSession(s, steps[0]), steps[1..], client)
  {}

  lemma {:induction false} RunFollows(s: Session, k: Machines, steps: seq<SessionStep>, client: bool)
    requires SessionInv(s) && IdsSuffice(s, steps) && BothFollow(k, s)
    ensures BothFollow(RunMachines(s, k, steps), RunSession(s, steps))
    ensures MachineOf(RunMachines(s, k, steps), client).written
         == MachineOf(k, client).written + AllPut(s, steps, client)
    decreases |steps|
  {
    if steps == [] {
      assert MachineOf(k, client).written + [] == MachineOf(k, client).written;
    } else {
      StepFollows(s, k, steps[0], client);
      SessionStepKeeps(s, steps[0]);
      PutFirst(s, steps, client, MachineOf(k, client).written);
      RunFollows(StepSession(s, steps[0]), StepMachines(s, k, steps[0]), steps[1..], client);
    }
  }

  function NewMachines(clientLimit: nat, serverLimit: nat): Machines {
    Machines(NewSide(true, clientLimit), NewSide(false, serverLimit))
  }

  lemma NewMachinesFollow(window: nat, clientLimit: nat, serverLimit: nat)
    ensures BothFollow(NewMachines(clientLimit, serverLimit), NewSession(window, clientLimit, serverLimit))
  {
    NewMatches(true, clientLimit);
    NewMatches(false, serverLimit);
    NewSideInv(true, clientLimit);
    NewSideInv(false, serverLimit);
  }

  lemma FollowsMeans(x: SideState, e: Endpoint)
    requires Follows(x, e) && !e.sentAway
    ensures ManagerInv(x.t.m) && !x.t.m.sentAway
    ensures forall i: nat | CanPick(x.t.m, Some(i)) :: x.t.m.waiting[i].id in x.t.m.lines
  {
    assert Agree(x.t.m);
    forall i: nat | CanPick(x.t.m, Some(i)) ensures x.t.m.waiting[i].id in x.t.m.lines {
      WaitingHasLine(x.t.m, i);
    }
  }

  lemma ManagersFollow(s: Session, k: Machines, steps: seq<SessionStep>, client: bool)
    requires SessionInv(s) && IdsSuffice(s, steps) && BothFollow(k, s) && MachineOf(k, client).written == []
    ensures var x := MachineOf(RunMachines(s, k, steps), client);
      && Tracks(x.t, Side(RunSession(s, steps), client))
      && x.written == AllPut(s, steps, client)
      && ManagerInv(x.t.m) && !x.t.m.sentAway && Writing(x)
      && (forall i: nat | CanPick(x.t.m, Some(i)) :: x.t.m.waiting[i].id in x.t.m.lines)
  {
    RunFollows(s, k, steps, client);
    SessionRunKeeps(s, steps);
    assert [] + AllPut(s, steps, client) == AllPut(s, steps, client);
    FollowsMeans(MachineOf(RunMachines(s, k, steps), client), Side(RunSession(s, steps), client));
  }

  /**
   * In every run of a session, on both sides: manager, reader and writer are where the session says
   * they are, and the writer has written what the session has put on the byte stream. The manager
   * keeps every invariant its class asks for: the tasks are exactly the streams of the map, each
   * once; every task the collection may yield finds its handle; the limit holds; nobody crashes.
   */
  lemma ManagersFollowEveryRun(window: nat, clientLimit: nat, serverLimit: nat, steps: seq<SessionStep>, client: bool)
    requires IdsSuffice(NewSession(window, clientLimit, serverLimit), steps)
    ensures var start := NewSession(window, clientLimit, serverLimit);
      var x := MachineOf(RunMachines(start, NewMachines(clientLimit, serverLimit), steps), client);
      && Tracks(x.t, Side(RunSession(start, steps), client))
      && x.written == AllPut(start, steps, client)
      && ManagerInv(x.t.m) && !x.t.m.sentAway && Writing(x)
      && (forall i: nat | CanPick(x.t.m, Some(i)) :: x.t.m.waiting[i].id in x.t.m.lines)
  {
    NewMachinesFollow(window, clientLimit, serverLimit);
    NewSessionInv(window, clientLimit, serverLimit);
    ManagersFollow(NewSession(window, clientLimit, serverLimit), NewMachines(clientLimit, serverLimit), steps, client);
  }

  /** So neither side of a session ever has more streams than its limit. */
  lemma LimitsHold(window: nat, clientLimit: nat, serverLimit: nat, steps: seq<SessionStep>, client: bool)
    requires IdsSuffice(NewSession(window, clientLimit, serverLimit), steps)
    ensures var e := Side(RunSession(NewSession(window, clientLimit, serverLimit), steps), client);
      |LiveIds(e)| <= e.streamLimit
  {
    var start := NewSession(window, clientLimit, serverLimit);
    var x := MachineOf(RunMachines(start, NewMachines(clientLimit, serverLimit), steps), client);
    ManagersFollowEveryRun(window, clientLimit, serverLimit, steps, client);
    LinesAreLive(Side(RunSession(start, steps), client));
    assert |x.t.m.lines| == |x.t.m.lines.Keys|;
  }
}
