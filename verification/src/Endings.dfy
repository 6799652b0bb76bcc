/**
 * How the tasks of one side stop, against any remote: exactly which frames end the writer, when it
 * panics, when the reader panics, and what each of them leaves behind.
 */
module Endings {
  import opened Wrappers
  import opened Frames
  import opened Flows
  import opened StreamOutput
  import opened Managers
  import opened Sessions
  import opened SessionTasks
  import opened Endpoints
  import Codec

  // ----- What the writer is given -----

  /** The frame the writer is given when it polls the manager now. */
  function GivenNow(x: SideState, pick: nat): Option<Frame> {
    var m := x.t.m;
    if !Writing(x) then None
    else if !Offered(m, pick) then
      if m.sentAway || m.sys.queue != [] then Given(PollNextOf(m, None).0) else None
    else if m.waiting[pick].id in m.lines then Given(PollNextOf(m, Some(pick)).0)
    else None
  }

  /** A system frame as the reader makes them: a reset, or the go-away about an invalid frame. */
  predicate SystemMade(f: Frame) {
    || (f.body.Rst? && f == RstFrame(f.header.streamId, f.body.error))
    || (f.body.GoAway? && f == GoAwayFrame(f.body.lastStreamId, Protocol, INVALID_FRAME))
  }

  /** A frame that cannot enter stream 0 into the map, nor make the reader answer for it. */
  predicate Named(f: Frame) {
    f.header.streamId != 0 || (!f.IsSyn() && (f.header.typ.GoAway? || f.header.typ.Invalid?))
  }

  predicate AllNamed(ops: seq<SideOp>) {
    forall op :: op in ops && op.Arrive? ==> Named(op.frame)
  }

  predicate HeldNamed(r: Reader) {
    match r
    case Admitting(f) => f.header.streamId != 0
    case Routing(p) => p.frame.header.streamId != 0
    case Resetting(id, _) => id != 0
    case _ => true
  }

  predicate SystemProper(fs: seq<Frame>, named: bool) {
    forall f :: f in fs ==> SystemMade(f) && (named && f.body.Rst? ==> f.header.streamId != 0)
  }

  predicate TasksProper(ws: seq<Waiting>, named: bool) {
    forall i | 0 <= i < |ws| :: (named ==> ws[i].id != 0) && forall f :: f in ws[i].outbox.queue ==> Made(f)
  }

  /** All frames are as streams and readers make them; `named`: and none of them is of stream 0. */
  predicate Proper(t: TaskState, named: bool) {
    && SystemProper(t.m.sys.queue, named) && TasksProper(t.m.waiting, named)
    && (named ==> HeldNamed(t.reader))
  }

  lemma SystemPushIsProper(fs: seq<Frame>, f: Frame, named: bool)
    requires SystemProper(fs, named) && SystemMade(f) && (named && f.body.Rst? ==> f.header.streamId != 0)
    ensures SystemProper(fs + [f], named)
  {}

  lemma CreateStaysProper(m: ManagerState, request: Option<StreamID>, window: nat, named: bool)
    requires TasksProper(m.waiting, named) && (named && request.Some? ==> request.value != 0)
    ensures TasksProper(Create(m, request, window).1.waiting, named) && Create(m, request, window).1.sys == m.sys
  {}

  lemma DispatchStaysProper(t: TaskState, f: Frame, named: bool)
    requires Proper(t, named) && (named ==> Named(f))
    ensures Proper(Dispatched(t, f), named)
  {
    SystemPushIsProper(t.m.sys.queue, GoAwayFrame(t.last, Protocol, INVALID_FRAME), named);
  }

  lemma TakingStaysProper(t: TaskState, f: Frame, window: nat, named: bool)
    requires Proper(t, named) && (named ==> Named(f))
    ensures Proper(Took(t, f, window), named)
  {
    DispatchStaysProper(t, f, named);
    CreateStaysProper(t.m, if f.IsSyn() then Some(f.header.streamId) else None, window, named);
  }

  lemma PollingStaysProper(t: TaskState, full: bool, named: bool)
    requires Proper(t, named)
    ensures Proper(Polled(t, full), named)
  {
    if t.reader.Routing? {
      assert SendToStream(t.m, t.reader.parcel, full).1.frame == t.reader.parcel.frame;
    }
  }

  lemma ConclusionStaysProper(t: TaskState, named: bool)
    requires Proper(t, named)
    ensures Proper(Concluded(t), named)
  {
    if t.reader.Resetting? {
      SystemPushIsProper(t.m.sys.queue, RstFrame(t.reader.id, t.reader.error), named);
    }
  }

  lemma WritingStaysProper(m: ManagerState, pick: nat, named: bool)
    requires SystemProper(m.sys.queue, named) && TasksProper(m.waiting, named)
    requires Offered(m, pick) && m.waiting[pick].id in m.lines
    ensures var m' := PollNextOf(m, Some(pick)).1; TasksProper(m'.waiting, named) && m'.sys == m.sys
  {}

  lemma ActingStaysProper(m: ManagerState, line: Option<StreamID>, inbox: Chan, task: Option<nat>, outbox: Chan,
                          named: bool)
    requires TasksProper(m.waiting, named) && MayAct(m, line, inbox, task, outbox)
    ensures TasksProper(Acted(m, line, inbox, task, outbox).waiting, named)
  {
    if task.Some? {
      var before := m.waiting[task.value].outbox.queue;
      forall f | f in outbox.queue ensures Made(f) {
        var i :| 0 <= i < |outbox.queue| && outbox.queue[i] == f;
        if i < |before| {
          assert f == before[i] && f in before;
        }
      }
    }
  }

  lemma StepStaysProper(x: SideState, window: nat, op: SideOp, named: bool)
    requires Proper(x.t, named) && (named && op.Arrive? ==> Named(op.frame))
    ensures Proper(StepSide(x, window, op).t, named)
  {
    var t := x.t;
    match op
    case Arrive(f) => TakingStaysProper(t, f, window, named);
    case AdmitNew(ok) => if t.reader.Admitting? { DispatchStaysProper(t, t.reader.frame, named); }
    case PollAgain(full) => PollingStaysProper(t, full, named);
    case Settle => ConclusionStaysProper(t, named);
    case OpenNew => CreateStaysProper(t.m, None, window, named);
    case WriteOne(pick) => if Polls(x, op) { WritingStaysProper(t.m, pick, named); }
    case StreamActs(line, inbox, task, outbox) =>
      if MayAct(t.m, line, inbox, task, outbox) { ActingStaysProper(t.m, line, inbox, task, outbox, named); }
    case _ =>
  }

  lemma {:induction false} RunStaysProper(x: SideState, window: nat, ops: seq<SideOp>, named: bool)
    requires Proper(x.t, named) && (named ==> AllNamed(ops))
    ensures Proper(RunSide(x, window, ops).t, named)
    decreases |ops|
  {
    if ops != [] {
      assert ops[0] in ops;
      StepStaysProper(x, window, ops[0], named);
      RunStaysProper(StepSide(x, window, ops[0]), window, ops[1..], named);
    }
  }

  // ----- The writer ends -----

  /** The codec refuses exactly the frames of stream 0 that are not go-aways. */
  lemma RefusedExactlyForZero(m: ManagerState, pick: Option<nat>, named: bool)
    requires SystemProper(m.sys.queue, named) && TasksProper(m.waiting, named)
    requires pick.Some? ==> Offered(m, pick.value) && m.waiting[pick.value].id in m.lines
    ensures var given := Given(PollNextOf(m, pick).0);
      given.Some? ==>
        && (Writable(given.value) <==> given.value.header.streamId != 0 || given.value.header.typ.GoAway?)
        && (named ==> Writable(given.value))
  {
    if !m.sentAway && m.sys.queue != [] {
      assert m.sys.queue[0] in m.sys.queue;
    } else if pick.Some? {
      var q := m.waiting[pick.value].outbox.queue;
      if q != [] {
        assert q[0] in q;
      }
    }
  }

  lemma GivenIsRefusedExactlyForZero(x: SideState, pick: nat, named: bool)
    requires Proper(x.t, named)
    ensures var given := GivenNow(x, pick);
      given.Some? ==>
        && (Writable(given.value) <==> given.value.header.streamId != 0 || given.value.header.typ.GoAway?)
        && (named ==> Writable(given.value))
  {
    if Offered(x.t.m, pick) {
      if x.t.m.waiting[pick].id in x.t.m.lines {
        RefusedExactlyForZero(x.t.m, Some(pick), named);
      }
    } else {
      RefusedExactlyForZero(x.t.m, None, named);
    }
  }

  /** A step of the writer sends the frame it is given, or ends on it. */
  lemma WritingSendsOrEnds(x: SideState, window: nat, pick: nat)
    ensures var x', given := StepSide(x, window, WriteOne(pick)), GivenNow(x, pick);
      x'.written == x.written + Sent(given) && x'.ended == (x.ended || Refused(given))
  {
    assert x.written + [] == x.written;
  }

  /** Only the writer's own steps end it. */
  lemma OnlyWritingEnds(x: SideState, window: nat, op: SideOp)
    requires !op.WriteOne?
    ensures StepSide(x, window, op).ended == x.ended && StepSide(x, window, op).written == x.written
  {}

  /**
   * In every run and against any remote: a running writer ends on the frame it is given exactly when
   * that frame names stream 0 and is not a go-away; any other frame is written.
   */
  lemma WriterEndsExactlyOnZero(client: bool, limit: nat, window: nat, ops: seq<SideOp>, pick: nat)
    ensures var x := RunSide(NewSide(client, limit), window, ops);
      var x', given := StepSide(x, window, WriteOne(pick)), GivenNow(x, pick);
      Writing(x) ==>
        if given.Some? && given.value.header.streamId == 0 && !given.value.header.typ.GoAway? then
          x'.ended && x'.written == x.written
        else
          !x'.ended && x'.written == x.written + if given.Some? then [given.value] else []
  {
    var x := RunSide(NewSide(client, limit), window, ops);
    RunStaysProper(NewSide(client, limit), window, ops, false);
    GivenIsRefusedExactlyForZero(x, pick, false);
    WritingSendsOrEnds(x, window, pick);
    assert x.written + [] == x.written;
  }

  lemma NamedStepKeepsWriter(x: SideState, window: nat, op: SideOp)
    requires Proper(x.t, true) && !x.ended
    ensures !StepSide(x, window, op).ended
  {
    if op.WriteOne? {
      GivenIsRefusedExactlyForZero(x, op.pick, true);
      WritingSendsOrEnds(x, window, op.pick);
    } else {
      OnlyWritingEnds(x, window, op);
    }
  }

  lemma {:induction false} NamedRunKeepsWriter(x: SideState, window: nat, ops: seq<SideOp>)
    requires Proper(x.t, true) && !x.ended && AllNamed(ops)
    ensures !RunSide(x, window, ops).ended && Proper(RunSide(x, window, ops).t, true)
    decreases |ops|
  {
    if ops != [] {
      assert ops[0] in ops;
      NamedStepKeepsWriter(x, window, ops[0]);
      StepStaysProper(x, window, ops[0], true);
      NamedRunKeepsWriter(StepSide(x, window, ops[0]), window, ops[1..]);
    }
  }

  /** As long as no frame brings stream 0 in, the codec refuses nothing the writer is given. */
  lemma NamedFramesKeepTheWriter(client: bool, limit: nat, window: nat, ops: seq<SideOp>)
    requires AllNamed(ops)
    ensures !RunSide(NewSide(client, limit), window, ops).ended
  {
    NamedRunKeepsWriter(NewSide(client, limit), window, ops);
  }

  lemma StoppedStays(x: SideState, window: nat, op: SideOp)
    requires !Writing(x)
    ensures var x' := StepSide(x, window, op); !Writing(x') && x'.written == x.written
    ensures StepSide(x, window, op).t.m.lastLocalId == x.t.m.lastLocalId
  {
    Kinds(x, window, op);
  }

  /** A writer that has stopped writes nothing any more, and opens nothing. */
  lemma {:induction false} StoppedForGood(x: SideState, window: nat, ops: seq<SideOp>)
    requires !Writing(x)
    ensures var x' := RunSide(x, window, ops); !Writing(x') && x'.written == x.written
    ensures RunSide(x, window, ops).t.m.lastLocalId == x.t.m.lastLocalId
    decreases |ops|
  {
    if ops != [] {
      StoppedStays(x, window, ops[0]);
      StoppedForGood(StepSide(x, window, ops[0]), window, ops[1..]);
    }
  }

  /** The header of a reset that names stream 0; the codec hands it out with an Invalid body. */
  const ZERO_RESET := Header(4, HeaderType.Rst, NO_FLAGS, 0)

  lemma ZeroResetIsAnswered(t: TaskState, raw: seq<Byte>, window: nat)
    requires |raw| == 4 && t.reader.Resting?
    ensures Concluded(Took(t, Codec.DecodeFrame(ZERO_RESET, raw), window))
         == t.(m := t.m.(sys := t.m.sys.Push(RstFrame(0, Internal))), reader := Resting)
  {}

  /** The input: one reset that names stream 0 makes the reader answer with another, and that ends the writer. */
  lemma ZeroIdEndsTheWriter(client: bool, limit: nat, window: nat, raw: seq<Byte>, after: seq<SideOp>)
    requires |raw| == 4
    ensures var input := [Arrive(Codec.DecodeFrame(ZERO_RESET, raw)), Settle, WriteOne(0)];
      var x := RunSide(NewSide(client, limit), window, input);
      x.ended && RunSide(x, window, after).written == []
  {
    var start, f := NewSide(client, limit), Codec.DecodeFrame(ZERO_RESET, raw);
    ThreeSteps(start, window, Arrive(f), Settle, WriteOne(0));
    ZeroResetIsAnswered(start.t, raw, window);
    var x2 := StepSide(StepSide(start, window, Arrive(f)), window, Settle);
    WritingSendsOrEnds(x2, window, 0);
    StoppedForGood(StepSide(x2, window, WriteOne(0)), window, after);
  }

  // ----- The writer panics -----

  /** Only the applications and the writer go on. */
  predicate Continues(ops: seq<SideOp>) {
    forall op :: op in ops ==> op.StreamActs? || op.WriteOne?
  }

  /** The writer runs, and ids have been registered while in use; nothing stands in the way of its tasks. */
  ghost predicate Doomed(x: SideState, reused: multiset<StreamID>) {
    && Writing(x) && !x.t.m.sentAway && Proper(x.t, true)
    && multiset(WaitingIds(x.t.m.waiting)) == multiset(x.t.m.lines.Keys) + reused
  }

  lemma FirstStep(x: SideState, window: nat, op: SideOp, rest: seq<SideOp>)
    ensures RunSide(x, window, [op] + rest) == RunSide(StepSide(x, window, op), window, rest)
  {
    assert ([op] + rest)[1..] == rest;
  }

  lemma SystemFrameIsWritten(x: SideState, window: nat)
    requires Writing(x) && !x.t.m.sentAway && Proper(x.t, true) && x.t.m.sys.queue != []
    ensures var x' := StepSide(x, window, WriteOne(0));
      x'.t == x.t.(m := x.t.m.(sys := x.t.m.sys.Pop())) && Writing(x')
  {
    GivenIsRefusedExactlyForZero(x, 0, true);
    WritingSendsOrEnds(x, window, 0);
  }

  /** The writer empties the system queue first. */
  lemma {:induction false} SystemIsDrained(x: SideState, window: nat) returns (ops: seq<SideOp>)
    requires Writing(x) && !x.t.m.sentAway && Proper(x.t, true)
    ensures Continues(ops)
    ensures var x' := RunSide(x, window, ops);
      x'.t == x.t.(m := x.t.m.(sys := x.t.m.sys.(queue := []))) && Writing(x')
    decreases |x.t.m.sys.queue|
  {
    if x.t.m.sys.queue == [] {
      ops := [];
    } else {
      SystemFrameIsWritten(x, window);
      StepStaysProper(x, window, WriteOne(0), true);
      var rest := SystemIsDrained(StepSide(x, window, WriteOne(0)), window);
      FirstStep(x, window, WriteOne(0), rest);
      ops := [WriteOne(0)] + rest;
    }
  }

  /** A stream is dropped: its task will be ready. */
  function Dropping(x: SideState, i: nat): SideOp
    requires i < |x.t.m.waiting|
  {
    StreamActs(None, OPEN_CHAN, Some(i), x.t.m.waiting[i].outbox.CloseSender())
  }

  lemma DroppingClosesTask(x: SideState, window: nat, i: nat, reused: multiset<StreamID>, x': SideState)
    requires Doomed(x, reused) && i < |x.t.m.waiting| && x' == StepSide(x, window, Dropping(x, i))
    ensures Doomed(x', reused) && x'.t.m.sys == x.t.m.sys && x'.t.m.lines == x.t.m.lines
    ensures i < |x'.t.m.waiting| && x'.t.m.waiting[i].id == x.t.m.waiting[i].id && x'.t.m.waiting[i].outbox.txClosed
  {
    var w := x.t.m.waiting[i];
    assert MayLeaveOutbox(w.outbox, w.outbox.CloseSender());
    assert x'.t.m == x.t.m.(waiting := x.t.m.waiting[i := w.(outbox := w.outbox.CloseSender())]);
    assert WaitingIds(x'.t.m.waiting) == WaitingIds(x.t.m.waiting);
    StepStaysProper(x, window, Dropping(x, i), true);
  }

  lemma TaskOf(ws: seq<Waiting>, id: StreamID) returns (i: nat)
    requires id in multiset(WaitingIds(ws))
    ensures i < |ws| && ws[i].id == id
  {
    assert id in WaitingIds(ws);
    i :| 0 <= i < |WaitingIds(ws)| && WaitingIds(ws)[i] == id;
  }

  /** A task whose handle is gone makes the writer panic once its stream is dropped. */
  lemma OrphanCrashes(x: SideState, window: nat, id: StreamID, reused: multiset<StreamID>) returns (ops: seq<SideOp>)
    requires Doomed(x, reused) && x.t.m.sys.queue == [] && id in reused && id !in x.t.m.lines
    ensures Continues(ops) && RunSide(x, window, ops).crashed
  {
    var i := TaskOf(x.t.m.waiting, id);
    var x1 := StepSide(x, window, Dropping(x, i));
    DroppingClosesTask(x, window, i, reused, x1);
    TwoSteps(x, window, Dropping(x, i), WriteOne(i));
    ops := [Dropping(x, i), WriteOne(i)];
  }

  lemma DoomedPoll(x: SideState, window: nat, i: nat, reused: multiset<StreamID>, x': SideState)
    requires Doomed(x, reused) && Polls(x, WriteOne(i)) && x' == StepSide(x, window, WriteOne(i))
    ensures Doomed(x', reused) && x'.t.m.sys == x.t.m.sys
  {
    GivenIsRefusedExactlyForZero(x, i, true);
    WritingSendsOrEnds(x, window, i);
    StepStaysProper(x, window, WriteOne(i), true);
    PollBalances(x.t.m, i, reused);
  }

  /** A polled task is one frame shorter, or gone with its handle. */
  lemma PollShortens(m: ManagerState, i: nat)
    requires Offered(m, i) && m.waiting[i].id in m.lines
    ensures var m', w := PollNextOf(m, Some(i)).1, m.waiting[i];
      w.id in m'.lines ==>
        && w.outbox.queue != [] && i < |m'.waiting|
        && m'.waiting[i] == Waiting(w.id, w.outbox.Pop())
  {}

  /** The task of a dropped stream whose id was used again is written out, and then another has no handle. */
  lemma {:induction false} DroppedCrashes(x: SideState, window: nat, i: nat, reused: multiset<StreamID>)
      returns (ops: seq<SideOp>)
    requires Doomed(x, reused) && x.t.m.sys.queue == [] && i < |x.t.m.waiting|
    requires x.t.m.waiting[i].outbox.txClosed && x.t.m.waiting[i].id in reused
    ensures Continues(ops) && RunSide(x, window, ops).crashed
    decreases |x.t.m.waiting[i].outbox.queue|
  {
    var id := x.t.m.waiting[i].id;
    if id !in x.t.m.lines {
      ops := OrphanCrashes(x, window, id, reused);
    } else {
      var x1 := StepSide(x, window, WriteOne(i));
      DoomedPoll(x, window, i, reused, x1);
      PollShortens(x.t.m, i);
      var rest;
      if id in x1.t.m.lines {
        rest := DroppedCrashes(x1, window, i, reused);
      } else {
        rest := OrphanCrashes(x1, window, id, reused);
      }
      FirstStep(x, window, WriteOne(i), rest);
      ops := [WriteOne(i)] + rest;
    }
  }

  /** Once an id was registered while in use, the applications can make the writer panic. */
  lemma ReuseCrashes(x: SideState, window: nat, reused: multiset<StreamID>) returns (ops: seq<SideOp>)
    requires Doomed(x, reused) && reused != multiset{}
    ensures Continues(ops) && RunSide(x, window, ops).crashed
  {
    var first := SystemIsDrained(x, window);
    var x1 := RunSide(x, window, first);
    RunStaysProper(x, window, first, true);
    var id :| id in reused;
    var i := TaskOf(x1.t.m.waiting, id);
    var x2 := StepSide(x1, window, Dropping(x1, i));
    DroppingClosesTask(x1, window, i, reused, x2);
    var rest := DroppedCrashes(x2, window, i, reused);
    FirstStep(x1, window, Dropping(x1, i), rest);
    RunInTurn(x, window, first, [Dropping(x1, i)] + rest);
    ops := first + ([Dropping(x1, i)] + rest);
  }

  lemma {:induction false} ContinuingReusesNothing(x: SideState, window: nat, ops: seq<SideOp>)
    requires Continues(ops)
    ensures AllReused(x, window, ops) == multiset{}
    decreases |ops|
  {
    if ops != [] {
      assert ops[0] in ops;
      ContinuingReusesNothing(StepSide(x, window, ops[0]), window, ops[1..]);
    }
  }

  lemma BalanceHolds(x: SideState, window: nat, more: seq<SideOp>, reused: multiset<StreamID>)
    requires SideInv(x) && TasksBalance(x, reused) && Continues(more) && RunSide(x, window, more).crashed
    ensures reused != multiset{}
  {
    ContinuingReusesNothing(x, window, more);
    RunBalancesTasks(x, window, more, reused);
    assert reused + multiset{} == reused;
  }

  /**
   * A writer that still runs can be made to panic, by nothing but the applications and the writer's
   * own steps, if and only if an id was registered while in use.
   */
  lemma WriterCanCrashExactlyAfterReuse(client: bool, limit: nat, window: nat, ops: seq<SideOp>)
    requires AllNamed(ops)
    ensures var x := RunSide(NewSide(client, limit), window, ops);
      Writing(x) && !x.t.m.sentAway ==>
        (AllReused(NewSide(client, limit), window, ops) != multiset{} <==>
          exists more :: Continues(more) && RunSide(x, window, more).crashed)
  {
    var start := NewSide(client, limit);
    var x, reused := RunSide(start, window, ops), AllReused(start, window, ops);
    NewSideInv(client, limit);
    assert WaitingIds([]) == [];
    RunBalancesTasks(start, window, ops, multiset{});
    assert multiset{} + reused == reused;
    RunKeepsInv(start, window, ops);
    NamedRunKeepsWriter(start, window, ops);
    if Writing(x) && !x.t.m.sentAway {
      if reused != multiset{} {
        var more := ReuseCrashes(x, window, reused);
      }
      forall more | Continues(more) && RunSide(x, window, more).crashed ensures reused != multiset{} {
        BalanceHolds(x, window, more, reused);
      }
    }
  }

  // ----- The reader panics -----

  /** Decoded from bytes, a frame makes the reader panic exactly when it is a go-away with an invalid header. */
  lemma PanicsExactlyOnInvalidGoAway(bytes: seq<Byte>)
    requires Codec.ParseOne(bytes).Some?
    ensures var f := Codec.ParseOne(bytes).value.frame;
      VerdictOn(f).Panicking? <==> f.header.typ.GoAway? && (f.header.streamId != 0 || f.header.length < 8)
  {}

  /** The step makes the reader panic. */
  predicate Panics(x: SideState, op: SideOp) {
    || (op.Arrive? && x.t.reader.Resting? && !op.frame.IsSyn() && VerdictOn(op.frame).Panicking?)
    || (op.AdmitNew? && op.ok && x.t.reader.Admitting? && VerdictOn(x.t.reader.frame).Panicking?)
  }

  predicate InputsOpen(m: ManagerState) {
    forall id | id in m.lines :: !m.lines[id].inbox.txClosed
  }

  predicate InputsEnded(m: ManagerState) {
    forall id | id in m.lines :: m.lines[id].inbox.txClosed
  }

  /** The reader ends between `t` and `t'`: it has told every stream, or has panicked and changed nothing. */
  predicate EndsTelling(t: TaskState, t': TaskState, panics: bool) {
    t'.reader.Ended? ==> if panics then t'.m == t.m else InputsEnded(t'.m)
  }

  lemma DispatchTells(t: TaskState, f: Frame)
    ensures EndsTelling(t, Dispatched(t, f), VerdictOn(f).Panicking?)
    ensures !Dispatched(t, f).reader.Ended? ==> Dispatched(t, f).m.lines == t.m.lines
    ensures VerdictOn(f).Panicking? ==> Dispatched(t, f) == t.(reader := Ended)
  {}

  lemma ReaderTells(x: SideState, window: nat, op: SideOp)
    requires !x.t.reader.Ended? && (op.Arrive? || op.AdmitNew? || op.InputEnds?)
    ensures EndsTelling(x.t, StepSide(x, window, op).t, Panics(x, op))
  {
    match op
    case Arrive(f) => DispatchTells(x.t, f);
    case AdmitNew(ok) => if x.t.reader.Admitting? { DispatchTells(x.t, x.t.reader.frame); }
    case InputEnds =>
  }

  lemma OthersLeaveReader(x: SideState, window: nat, op: SideOp)
    requires !op.Arrive? && !op.AdmitNew? && !op.InputEnds?
    ensures StepSide(x, window, op).t.reader.Ended? == x.t.reader.Ended?
  {}

  /** A reader that ends ends every stream's input, unless it panics; then it changes nothing at all. */
  lemma EndingTellsStreamsUnlessPanicking(x: SideState, window: nat, op: SideOp)
    requires !x.t.reader.Ended? && StepSide(x, window, op).t.reader.Ended?
    ensures var m' := StepSide(x, window, op).t.m;
      if Panics(x, op) then m' == x.t.m else InputsEnded(m')
  {
    if op.Arrive? || op.AdmitNew? || op.InputEnds? {
      ReaderTells(x, window, op);
    } else {
      OthersLeaveReader(x, window, op);
    }
  }

  lemma DeliveryLeavesOpen(m: ManagerState, p: Parcel, full: bool)
    requires InputsOpen(m)
    ensures InputsOpen(SendToStream(m, p, full).2)
  {}

  lemma TakingLeavesOpen(x: SideState, window: nat, op: SideOp)
    requires InputsOpen(x.t.m) && (op.Arrive? || op.AdmitNew? || op.InputEnds?)
    requires !StepSide(x, window, op).t.reader.Ended? || x.t.reader.Ended? || Panics(x, op)
    ensures InputsOpen(StepSide(x, window, op).t.m)
  {
    match op
    case Arrive(f) => DispatchTells(x.t, f);
    case AdmitNew(ok) => if x.t.reader.Admitting? { DispatchTells(x.t, x.t.reader.frame); }
    case InputEnds =>
  }

  lemma StepLeavesOpen(x: SideState, window: nat, op: SideOp)
    requires InputsOpen(x.t.m)
    requires !StepSide(x, window, op).t.reader.Ended? || x.t.reader.Ended? || Panics(x, op)
    ensures InputsOpen(StepSide(x, window, op).t.m)
  {
    if op.Arrive? || op.AdmitNew? || op.InputEnds? {
      TakingLeavesOpen(x, window, op);
    } else if op.PollAgain? && x.t.reader.Routing? {
      DeliveryLeavesOpen(x.t.m, x.t.reader.parcel, op.full);
    }
  }

  lemma EndedStays(x: SideState, window: nat, op: SideOp)
    requires x.t.reader.Ended?
    ensures StepSide(x, window, op).t.reader.Ended?
  {}

  /** The run makes the reader panic. */
  predicate RunPanics(x: SideState, window: nat, ops: seq<SideOp>)
    decreases |ops|
  {
    ops != [] && (Panics(x, ops[0]) || RunPanics(StepSide(x, window, ops[0]), window, ops[1..]))
  }

  lemma {:induction false} NeverPanicsAgain(x: SideState, window: nat, ops: seq<SideOp>)
    requires x.t.reader.Ended?
    ensures !RunPanics(x, window, ops)
    decreases |ops|
  {
    if ops != [] {
      EndedStays(x, window, ops[0]);
      NeverPanicsAgain(StepSide(x, window, ops[0]), window, ops[1..]);
    }
  }

  lemma {:induction false} EndedInputsStayOpen(x: SideState, window: nat, ops: seq<SideOp>)
    requires x.t.reader.Ended? && InputsOpen(x.t.m)
    ensures InputsOpen(RunSide(x, window, ops).t.m) && RunSide(x, window, ops).t.reader.Ended?
    decreases |ops|
  {
    if ops != [] {
      StepLeavesOpen(x, window, ops[0]);
      EndedStays(x, window, ops[0]);
      EndedInputsStayOpen(StepSide(x, window, ops[0]), window, ops[1..]);
    }
  }

  lemma PanickingEnds(x: SideState, window: nat, op: SideOp)
    requires Panics(x, op)
    ensures StepSide(x, window, op).t.reader.Ended?
  {
    DispatchTells(x.t, if op.Arrive? then op.frame else x.t.reader.frame);
  }

  lemma {:induction false} PanickedInputsStayOpen(x: SideState, window: nat, ops: seq<SideOp>)
    requires InputsOpen(x.t.m) && !x.t.reader.Ended? && RunPanics(x, window, ops)
    ensures InputsOpen(RunSide(x, window, ops).t.m) && RunSide(x, window, ops).t.reader.Ended?
    decreases |ops|
  {
    var x1 := StepSide(x, window, ops[0]);
    if Panics(x, ops[0]) {
      PanickingEnds(x, window, ops[0]);
      StepLeavesOpen(x, window, ops[0]);
      EndedInputsStayOpen(x1, window, ops[1..]);
    } else {
      if x1.t.reader.Ended? {
        NeverPanicsAgain(x1, window, ops[1..]);
      }
      StepLeavesOpen(x, window, ops[0]);
      PanickedInputsStayOpen(x1, window, ops[1..]);
    }
  }

  /**
   * In every run: after a panic of the reader no stream in the map ever sees the end of its input; a
   * reader that ends in any other way ends them all (`EndingTellsStreamsUnlessPanicking`).
   */
  lemma PanicLeavesReadersWaiting(client: bool, limit: nat, window: nat, ops: seq<SideOp>)
    requires RunPanics(NewSide(client, limit), window, ops)
    ensures var x := RunSide(NewSide(client, limit), window, ops);
      x.t.reader.Ended? && forall id | id in x.t.m.lines :: !x.t.m.lines[id].inbox.txClosed
  {
    PanickedInputsStayOpen(NewSide(client, limit), window, ops);
  }
}
