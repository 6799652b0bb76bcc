/**
 * How one side replies to a remote, over its runs: which frames it answers with, byte for byte as far
 * as their fields go, and that they are what its writer puts out.
 */
module Replies {
  import opened Wrappers
  import opened Frames
  import opened Flows
  import opened StreamOutput
  import opened Managers
  import opened Sessions
  import opened SessionTasks
  import opened Endpoints
  import opened Endings
  import opened Layout
  import opened Answers
  import opened Outcomes

  // ----- A frame arrives -----

  /** The go-away about an invalid frame: the last frame processed, Protocol, and `invalid frame` in ASCII. */
  predicate Complaint(f: Frame, last: StreamID) {
    f == Frame(
      Header(13, HeaderType.GoAway, Flags(false, false), 0),
      Body.GoAway(last, Protocol, [105, 110, 118, 97, 108, 105, 100, 32, 102, 114, 97, 109, 101]))
  }

  lemma ComplaintMade(last: StreamID)
    ensures Complaint(GoAwayFrame(last, Protocol, INVALID_FRAME), last)
  {
    assert INVALID_FRAME[..13] == INVALID_FRAME;
  }

  /**
   * What the reader does with a frame it takes: a SYN enters a stream into the map first, unless the
   * limit is reached; frames of streams are routed, with all their data still to be charged; a go-away
   * empties the map; a frame of no known type is reported.
   */
  lemma ArrivalOutcome(t: TaskState, f: Frame, window: nat)
    requires t.reader.Resting?
    ensures var t', id := Took(t, f, window), f.header.streamId;
      && t'.last == t.last
      && if f.header.flags.syn then
           if |t.m.lines| == t.m.streamLimit then
             && t'.reader.Ended? && t'.m == t.m.(lines := t'.m.lines) && t'.m.lines.Keys == t.m.lines.Keys
             && forall k | k in t.m.lines ::
                  t'.m.lines[k] == t.m.lines[k].(inbox := t.m.lines[k].inbox.(txClosed := true))
           else
             && t'.reader == Admitting(f)
             && t'.m.lines == t.m.lines[id := Line(Entry(window, true, false), 0, Chan([], false, false))]
             && t'.m.waiting == t.m.waiting + [Waiting(id, Chan([], false, false))]
         else
           match f.header.typ
           case GoAway => t'.reader.Ended? && (f.body.GoAway? ==> t'.m == t.m.(lines := map[], sentAway := true))
           case Invalid(_) =>
             && t'.reader.Resting? && t'.m == t.m.(sys := t.m.sys.(queue := t'.m.sys.queue))
             && exists g :: Complaint(g, t.last) && t'.m.sys.queue == t.m.sys.queue + [g]
           case _ =>
             && t'.m == t.m
             && t'.reader == if f.body.GoAway? || f.body.Invalid? then Resetting(id, Internal)
                             else Routing(Parcel(f, if f.body.Data? then |f.body.bytes| else 0))
  {
    if f.header.typ.Invalid? && !f.header.flags.syn {
      ComplaintMade(t.last);
    }
  }

  /** A new stream is handed to the accept queue, and its SYN goes on as a frame; without the queue the reader ends. */
  lemma AdmissionOutcome(t: TaskState, ok: bool)
    requires t.reader.Admitting? && Typed(t.reader.frame)
    ensures var t', f := Admitted(t, ok), t.reader.frame;
      if !ok then
        && t'.reader.Ended? && t'.m == t.m.(lines := t'.m.lines) && t'.m.lines.Keys == t.m.lines.Keys
        && forall k | k in t.m.lines :: t'.m.lines[k] == t.m.lines[k].(inbox := t.m.lines[k].inbox.(txClosed := true))
      else if f.body.Data? || f.body.WndInc? || f.body.Rst? then
        t' == t.(reader := Routing(Parcel(f, if f.body.Data? then |f.body.bytes| else 0)))
      else t'.reader.Ended? || t'.reader.Resting?
  {}

  // ----- Which frame was processed last -----

  /** The id a go-away reports is that of the last frame whose delivery succeeded. */
  lemma LastIsLastDelivered(x: SideState, window: nat, op: SideOp)
    ensures var x' := StepSide(x, window, op);
      x'.t.last ==
        if op.PollAgain? && x.t.reader.Routing? && (x'.t.reader.Resting? || x'.t.reader.Finishing?)
        then x.t.reader.parcel.frame.header.streamId
        else x.t.last
  {}

  // ----- Refusals -----

  /** The delivery of a frame is refused with this error, as the manager stands. */
  predicate Refuses(m: ManagerState, p: Parcel, error: Error) {
    var id := p.frame.header.streamId;
    && IsRefusable(p.frame)
    && if id in m.lines then RefusedFor(p, m.lines[id].entry, m.lines[id].inbox, error) else error == StreamClosed
  }

  /** The delivery that a poll of the manager makes for its frame. */
  function DeliveryNow(m: ManagerState, p: Parcel, full: bool): Delivery {
    var id := p.frame.header.streamId;
    if id in m.lines then Deliver(p, Some(m.lines[id].entry), m.lines[id].code, m.lines[id].inbox, full)
    else Deliver(p, None, 0, OPEN_CHAN, full)
  }

  lemma PolledReader(t: TaskState, full: bool, d: Delivery)
    requires t.reader.Routing? && d == DeliveryNow(t.m, t.reader.parcel, full)
    ensures Polled(t, full).reader ==
      if d.poll.Pending? then Routing(d.parcel)
      else if d.poll.value.Err? then Resetting(t.reader.parcel.frame.header.streamId, d.poll.value.error)
      else if t.reader.parcel.frame.header.flags.fin then Finishing(t.reader.parcel.frame.header.streamId)
      else Resting
  {}

  lemma DeliveryRefusedExactly(m: ManagerState, p: Parcel, full: bool, error: Error)
    requires Typed(p.frame) && Routable(p.frame)
    ensures DeliveryNow(m, p, full).poll == Ready(Err(error)) <==> Refuses(m, p, error)
  {
    var id := p.frame.header.streamId;
    if id in m.lines {
      var line := m.lines[id];
      DeliveryOutcome(p, line.entry, line.code, line.inbox, full);
    } else {
      UnknownOutcome(p, 0, OPEN_CHAN, full);
    }
  }

  /** A poll of a delivery makes the reader owe a reset exactly when it is refused, and with its error. */
  lemma RefusedExactly(x: SideState, window: nat, full: bool, error: Error)
    requires x.t.reader.Routing? && Typed(x.t.reader.parcel.frame) && Routable(x.t.reader.parcel.frame)
    ensures Refuses(x.t.m, x.t.reader.parcel, error) <==>
      StepSide(x, window, PollAgain(full)).t.reader == Resetting(x.t.reader.parcel.frame.header.streamId, error)
  {
    PolledReader(x.t, full, DeliveryNow(x.t.m, x.t.reader.parcel, full));
    DeliveryRefusedExactly(x.t.m, x.t.reader.parcel, full, error);
  }

  /** A reset frame for stream `id` with this error. */
  predicate ResetWith(f: Frame, id: StreamID, error: Error) {
    f == Frame(Header(4, HeaderType.Rst, Flags(false, false), id), Body.Rst(error))
  }

  lemma OwedStays(x: SideState, window: nat, op: SideOp)
    requires x.t.reader.Resetting? && !op.Settle?
    ensures StepSide(x, window, op).t.reader == x.t.reader
  {}

  lemma {:induction false} OwedThroughout(x: SideState, window: nat, ops: seq<SideOp>)
    requires x.t.reader.Resetting? && forall op :: op in ops ==> !op.Settle?
    ensures RunSide(x, window, ops).t.reader == x.t.reader
    decreases |ops|
  {
    if ops != [] {
      assert ops[0] in ops;
      OwedStays(x, window, ops[0]);
      OwedThroughout(StepSide(x, window, ops[0]), window, ops[1..]);
    }
  }

  lemma SettlingResets(x: SideState, window: nat)
    requires x.t.reader.Resetting?
    ensures var x' := StepSide(x, window, Settle);
      && x'.t.reader.Resting? && x'.written == x.written && x'.t.m == x.t.m.(sys := x'.t.m.sys)
      && exists f :: ResetWith(f, x.t.reader.id, x.t.reader.error) && x'.t.m.sys.queue == x.t.m.sys.queue + [f]
  {
    assert ResetWith(RstFrame(x.t.reader.id, x.t.reader.error), x.t.reader.id, x.t.reader.error);
  }

  /**
   * In every run on valid frames a refused delivery is answered with one reset: whatever happens in
   * between, the reader's next settling queues a frame with the id of the refused one and the error
   * of the refusal.
   */
  lemma RefusalIsAnswered(client: bool, limit: nat, window: nat, before: seq<SideOp>, full: bool, error: Error,
                          between: seq<SideOp>)
    requires AllTyped(before) && forall op :: op in between ==> !op.Settle?
    ensures var x := RunSide(NewSide(client, limit), window, before);
      x.t.reader.Routing? && Refuses(x.t.m, x.t.reader.parcel, error) ==>
        var x1 := RunSide(StepSide(x, window, PollAgain(full)), window, between);
        var x2 := StepSide(x1, window, Settle);
        && x2.t.reader.Resting?
        && exists f :: ResetWith(f, x.t.reader.parcel.frame.header.streamId, error)
             && x2.t.m.sys.queue == x1.t.m.sys.queue + [f]
  {
    var x := RunSide(NewSide(client, limit), window, before);
    RunStaysPlain(NewSide(client, limit), window, before);
    if x.t.reader.Routing? && Refuses(x.t.m, x.t.reader.parcel, error) {
      RefusedExactly(x, window, full, error);
      OwedThroughout(StepSide(x, window, PollAgain(full)), window, between);
      SettlingResets(RunSide(StepSide(x, window, PollAgain(full)), window, between), window);
    }
  }

  // ----- What is queued goes out -----

  const POLL_ONCE: seq<SideOp> := [WriteOne(0)]

  lemma WrittenFirst(x: SideState, window: nat)
    requires Writing(x) && !x.t.m.sentAway && Proper(x.t, true) && x.t.m.sys.queue != []
    ensures StepSide(x, window, WriteOne(0)).written == x.written + [x.t.m.sys.queue[0]]
  {
    GivenIsRefusedExactlyForZero(x, 0, true);
    WritingSendsOrEnds(x, window, 0);
  }

  /** A running writer puts out the system frames in order. */
  lemma {:induction false} SystemGoesOut(x: SideState, window: nat, n: nat)
    requires Writing(x) && !x.t.m.sentAway && Proper(x.t, true) && n == |x.t.m.sys.queue|
    ensures RunSide(x, window, Times(n, POLL_ONCE)).written == x.written + x.t.m.sys.queue
    decreases n
  {
    if n == 0 {
      assert x.written + x.t.m.sys.queue == x.written;
    } else {
      var x1 := StepSide(x, window, WriteOne(0));
      SystemFrameIsWritten(x, window);
      StepStaysProper(x, window, WriteOne(0), true);
      WrittenFirst(x, window);
      FirstStep(x, window, WriteOne(0), Times(n - 1, POLL_ONCE));
      SystemGoesOut(x1, window, n - 1);
      assert x.written + x.t.m.sys.queue == x.written + [x.t.m.sys.queue[0]] + x.t.m.sys.queue[1..];
    }
  }

  /** Data that exceeds the window of its stream. */
  predicate Exceeds(m: ManagerState, f: Frame) {
    && f.header.typ.Data? && f.body.Data? && f.header.streamId in m.lines
    && !m.lines[f.header.streamId].entry.dataWriteClosed
    && |f.body.bytes| > m.lines[f.header.streamId].entry.window
  }

  /** A frame is taken, its delivery polled, and its outcome settled. */
  function Handling(f: Frame, full: bool): seq<SideOp> {
    [Arrive(f), PollAgain(full), Settle]
  }

  lemma ExcessIsRefused(x: SideState, window: nat, f: Frame, full: bool, x3: SideState)
    requires x.t.reader.Resting? && !f.IsSyn() && Exceeds(x.t.m, f)
    requires x3 == RunSide(x, window, Handling(f, full))
    ensures x3.t.reader.Resting? && x3.written == x.written && x3.crashed == x.crashed && x3.ended == x.ended
    ensures x3.t.m.sentAway == x.t.m.sentAway
    ensures exists g :: ResetWith(g, f.header.streamId, FlowControl) && x3.t.m.sys.queue == x.t.m.sys.queue + [g]
    ensures f.header.streamId in x3.t.m.lines && x3.t.m.lines[f.header.streamId].code != 0
  {
    var x1 := StepSide(x, window, Arrive(f));
    var x2 := StepSide(x1, window, PollAgain(full));
    ThreeSteps(x, window, Arrive(f), PollAgain(full), Settle);
    ArrivalOutcome(x.t, f, window);
    RefusedExactly(x1, window, full, FlowControl);
    SettlingResets(x2, window);
    var line := x.t.m.lines[f.header.streamId];
    DeliveryOutcome(x1.t.reader.parcel, line.entry, line.code, line.inbox, full);
  }

  /**
   * Data beyond the window is answered with a FlowControl reset, which the writer puts out right
   * behind the system frames that were waiting; and the stream is closed.
   */
  lemma ExcessIsReset(x: SideState, window: nat, f: Frame, full: bool)
    requires Writing(x) && !x.t.m.sentAway && Proper(x.t, true)
    requires x.t.reader.Resting? && Named(f) && !f.IsSyn() && Exceeds(x.t.m, f)
    ensures var x' := RunSide(x, window, Handling(f, full) + Times(|x.t.m.sys.queue| + 1, POLL_ONCE));
      exists g :: ResetWith(g, f.header.streamId, FlowControl) && x'.written == x.written + x.t.m.sys.queue + [g]
  {
    var x3 := RunSide(x, window, Handling(f, full));
    ExcessIsRefused(x, window, f, full, x3);
    RunStaysProper(x, window, Handling(f, full), true);
    SystemGoesOut(x3, window, |x.t.m.sys.queue| + 1);
    RunInTurn(x, window, Handling(f, full), Times(|x.t.m.sys.queue| + 1, POLL_ONCE));
    var g :| ResetWith(g, f.header.streamId, FlowControl) && x3.t.m.sys.queue == x.t.m.sys.queue + [g];
    assert x.written + (x.t.m.sys.queue + [g]) == x.written + x.t.m.sys.queue + [g];
  }

  // ----- Behind a FIN -----

  /** No data is accepted for this id: its handle is closed for writing, or there is none. */
  predicate Shut(m: ManagerState, id: StreamID) {
    id in m.lines ==> m.lines[id].entry.dataWriteClosed
  }

  lemma DispatchKeepsShut(t: TaskState, f: Frame, id: StreamID)
    requires Shut(t.m, id)
    ensures Shut(Dispatched(t, f).m, id)
  {}

  lemma DeliveryKeepsShut(m: ManagerState, p: Parcel, full: bool, id: StreamID)
    requires Shut(m, id)
    ensures Shut(SendToStream(m, p, full).2, id)
  {}

  lemma ReaderKeepsShut(x: SideState, window: nat, op: SideOp, id: StreamID)
    requires Shut(x.t.m, id) && Registered(x, op).None?
    requires op.Arrive? || op.AdmitNew? || op.PollAgain? || op.Settle? || op.InputEnds?
    ensures Shut(StepSide(x, window, op).t.m, id)
  {
    match op
    case Arrive(f) => DispatchKeepsShut(x.t, f, id);
    case AdmitNew(ok) => if x.t.reader.Admitting? { DispatchKeepsShut(x.t, x.t.reader.frame, id); }
    case PollAgain(full) => if x.t.reader.Routing? { DeliveryKeepsShut(x.t.m, x.t.reader.parcel, full, id); }
    case Settle =>
    case InputEnds =>
  }

  lemma OthersKeepShut(x: SideState, window: nat, op: SideOp, id: StreamID)
    requires Shut(x.t.m, id) && Registered(x, op).None? && !Polls(x, op)
    requires op.OpenNew? || op.WriteOne? || op.StreamActs? || op.StreamCloses?
    ensures Shut(StepSide(x, window, op).t.m, id)
  {}

  lemma StepKeepsShut(x: SideState, window: nat, op: SideOp, id: StreamID)
    requires Shut(x.t.m, id) && Registered(x, op) != Some(id)
    ensures Shut(StepSide(x, window, op).t.m, id)
  {
    if Registered(x, op).Some? || Polls(x, op) {
      Kinds(x, window, op);
    } else if op.Arrive? || op.AdmitNew? || op.PollAgain? || op.Settle? || op.InputEnds? {
      ReaderKeepsShut(x, window, op, id);
    } else {
      OthersKeepShut(x, window, op, id);
    }
  }

  lemma {:induction false} RunKeepsShut(x: SideState, window: nat, ops: seq<SideOp>, id: StreamID)
    requires Shut(x.t.m, id) && NeverRegisters(x, window, ops, id)
    ensures Shut(RunSide(x, window, ops).t.m, id)
    decreases |ops|
  {
    if ops != [] {
      StepKeepsShut(x, window, ops[0], id);
      RunKeepsShut(StepSide(x, window, ops[0]), window, ops[1..], id);
    }
  }

  lemma FinishingShuts(x: SideState, window: nat)
    requires x.t.reader.Finishing?
    ensures Shut(StepSide(x, window, Settle).t.m, x.t.reader.id)
  {}

  /** A frame with a FIN whose delivery succeeds is followed by the closing of its handle. */
  lemma FinIsFollowed(x: SideState, window: nat, full: bool)
    requires x.t.reader.Routing?
    ensures var p, r := x.t.reader.parcel, StepSide(x, window, PollAgain(full)).t.reader;
      !r.Routing? && !r.Resetting? ==>
        r == if p.frame.header.flags.fin then Finishing(p.frame.header.streamId) else Resting
  {}

  /** Data for this stream is being delivered. */
  predicate DeliversData(t: TaskState, id: StreamID) {
    t.reader.Routing? && t.reader.parcel.frame.header.streamId == id && IsRefusable(t.reader.parcel.frame)
  }

  lemma ShutRefuses(x: SideState, window: nat, full: bool, id: StreamID)
    requires Shut(x.t.m, id) && DeliversData(x.t, id) && HeldTyped(x.t.reader)
    ensures var x' := StepSide(x, window, PollAgain(full));
      && x'.t.reader == Resetting(id, StreamClosed)
      && (id in x'.t.m.lines ==> id in x.t.m.lines && x'.t.m.lines[id].inbox == x.t.m.lines[id].inbox)
  {
    RefusedExactly(x, window, full, StreamClosed);
    if id in x.t.m.lines {
      var line := x.t.m.lines[id];
      DeliveryOutcome(x.t.reader.parcel, line.entry, line.code, line.inbox, full);
    }
  }

  /**
   * Against any remote: once a FIN has been delivered and settled, all data for that stream is refused
   * with StreamClosed and none enters its channel, until its id is registered again.
   */
  lemma DataBehindFinIsRefused(client: bool, limit: nat, window: nat, before: seq<SideOp>, after: seq<SideOp>,
                               full: bool)
    requires AllTyped(before) && AllTyped(after)
    ensures var x := RunSide(NewSide(client, limit), window, before);
      x.t.reader.Finishing? && NeverRegisters(StepSide(x, window, Settle), window, after, x.t.reader.id) ==>
        var id, x1 := x.t.reader.id, RunSide(StepSide(x, window, Settle), window, after);
        var x2 := StepSide(x1, window, PollAgain(full));
        && Shut(x1.t.m, id)
        && (DeliversData(x1.t, id) ==>
              && x2.t.reader == Resetting(id, StreamClosed)
              && (id in x2.t.m.lines ==> id in x1.t.m.lines && x2.t.m.lines[id].inbox == x1.t.m.lines[id].inbox))
  {
    var x := RunSide(NewSide(client, limit), window, before);
    if x.t.reader.Finishing? && NeverRegisters(StepSide(x, window, Settle), window, after, x.t.reader.id) {
      var id, x1 := x.t.reader.id, RunSide(StepSide(x, window, Settle), window, after);
      RunStaysPlain(NewSide(client, limit), window, before);
      StepStaysPlain(x, window, Settle);
      RunStaysPlain(StepSide(x, window, Settle), window, after);
      FinishingShuts(x, window);
      RunKeepsShut(StepSide(x, window, Settle), window, after, id);
      if DeliversData(x1.t, id) {
        ShutRefuses(x1, window, full, id);
      }
    }
  }
}
