/**
 * One side of a session against any remote at all: the frames it receives are arbitrary, ids may be
 * used again, and the applications do whatever their streams allow. The reader, the writer and the
 * manager move by the functions their classes are proved against.
 */
module Endpoints {
  import opened Wrappers
  import opened Frames
  import opened Flows
  import opened StreamOutput
  import opened Managers
  import opened Sessions
  import opened SessionTasks

  // ----- State and steps -----

  /**
   * `written`: everything the writer has put on the byte stream. `closers`: the close code of the
   * stream last registered under each id, which outlives its handle. `crashed`: the writer has met
   * a task without a handle, which makes it panic. `ended`: it was given a frame the codec refuses.
   */
  datatype SideState = SideState(
    t: TaskState,
    written: seq<Frame>,
    closers: map<StreamID, U32>,
    crashed: bool,
    ended: bool)

  /** The writer runs. */
  predicate Writing(x: SideState) {
    !x.crashed && !x.ended
  }

  function NewSide(client: bool, limit: nat): SideState {
    SideState(TaskState(NewManager(limit, client), Resting, 0), [], map[], false, false)
  }

  /**
   * `StreamActs`: a stream takes frames from its incoming channel, adds frames to its outgoing one,
   * or is dropped; it is seen as far as its handle or its task is still with the manager. As long as
   * they are, its sink works, so it never sets its close code itself.
   * `StreamCloses`: a stream that has left the map finds its manager gone.
   */
  datatype SideOp =
    | Arrive(frame: Frame)
    | AdmitNew(ok: bool)
    | PollAgain(full: bool)
    | Settle
    | InputEnds
    | OpenNew
    | WriteOne(pick: nat)
    | StreamActs(line: Option<StreamID>, inbox: Chan, task: Option<nat>, outbox: Chan)
    | StreamCloses(id: StreamID, error: Error)

  /** What a stream may make of its incoming channel. */
  predicate MayLeaveInbox(before: Chan, after: Chan) {
    && IsSuffix(after.queue, before.queue) && after.txClosed == before.txClosed
    && (before.rxClosed ==> after.rxClosed)
  }

  /** A frame as the streams make them. */
  predicate Made(f: Frame) {
    StreamFrame(f) && f.header.length == f.body.Len()
  }

  /** What a stream may make of its outgoing channel. */
  predicate MayLeaveOutbox(before: Chan, after: Chan) {
    && before.queue <= after.queue
    && (forall i | |before.queue| <= i < |after.queue| :: Made(after.queue[i]))
    && after.rxClosed == before.rxClosed && (before.txClosed ==> after.txClosed)
  }

  predicate MayAct(m: ManagerState, line: Option<StreamID>, inbox: Chan, task: Option<nat>, outbox: Chan) {
    && (line.Some? ==> line.value in m.lines && MayLeaveInbox(m.lines[line.value].inbox, inbox))
    && (task.Some? ==> task.value < |m.waiting| && MayLeaveOutbox(m.waiting[task.value].outbox, outbox))
  }

  function Acted(m: ManagerState, line: Option<StreamID>, inbox: Chan, task: Option<nat>, outbox: Chan): ManagerState
    requires MayAct(m, line, inbox, task, outbox)
  {
    m.(lines := if line.Some? then m.lines[line.value := m.lines[line.value].(inbox := inbox)] else m.lines,
       waiting := if task.Some? then m.waiting[task.value := m.waiting[task.value].(outbox := outbox)] else m.waiting)
  }

  /** The close codes once the manager has become `m`. */
  function ClosersAfter(x: SideState, m: ManagerState): map<StreamID, U32> {
    map id | id in x.closers.Keys + m.lines.Keys ::
      if id in m.lines then m.lines[id].code
      else if id in x.t.m.lines && m.sentAway && !x.t.m.sentAway then GoneCode(x.t.m.lines[id].code)
      else x.closers[id]
  }

  function After(x: SideState, t: TaskState): SideState {
    x.(t := t, closers := ClosersAfter(x, t.m))
  }

  function Wrote(x: SideState, polled: (Poll<Option<Frame>>, ManagerState)): SideState {
    var given := Given(polled.0);
    After(x, x.t.(m := polled.1)).(written := x.written + Sent(given), ended := x.ended || Refused(given))
  }

  /** The task at `pick` is the one the writer is offered. */
  predicate Offered(m: ManagerState, pick: nat) {
    !m.sentAway && m.sys.queue == [] && pick < |m.waiting| && m.waiting[pick].outbox.HasNext()
  }

  function WriteStep(x: SideState, pick: nat): SideState {
    var m := x.t.m;
    if !Writing(x) then x
    else if !Offered(m, pick) then
      if m.sentAway || m.sys.queue != [] then Wrote(x, PollNextOf(m, None)) else x
    else if m.waiting[pick].id in m.lines then Wrote(x, PollNextOf(m, Some(pick)))
    else x.(crashed := true)
  }

  function StepSide(x: SideState, window: nat, op: SideOp): SideState {
    match op
    case Arrive(f) => After(x, Took(x.t, f, window))
    case AdmitNew(ok) => After(x, Admitted(x.t, ok))
    case PollAgain(full) => After(x, Polled(x.t, full))
    case Settle => After(x, Concluded(x.t))
    case InputEnds => if x.t.reader.Resting? then After(x, x.t.(m := SendersClosed(x.t.m), reader := Ended)) else x
    case OpenNew => if Writing(x) then After(x, x.t.(m := Create(x.t.m, None, window).1)) else x
    case WriteOne(pick) => WriteStep(x, pick)
    case StreamActs(line, inbox, task, outbox) =>
      if MayAct(x.t.m, line, inbox, task, outbox) then
        After(x, x.t.(m := Acted(x.t.m, line, inbox, task, outbox)))
      else x
    case StreamCloses(id, e) =>
      if id in x.closers && id !in x.t.m.lines then x.(closers := x.closers[id := CloseCode(x.closers[id], e)]) else x
  }

  function RunSide(x: SideState, window: nat, ops: seq<SideOp>): SideState
    decreases |ops|
  {
    if ops == [] then x else RunSide(StepSide(x, window, ops[0]), window, ops[1..])
  }

  // ----- Registration -----

  /** The id that a step enters into the map. */
  function Registered(x: SideState, op: SideOp): Option<StreamID> {
    if |x.t.m.lines| == x.t.m.streamLimit then None
    else if op.Arrive? && x.t.reader.Resting? && op.frame.IsSyn() then Some(op.frame.header.streamId)
    else if op.OpenNew? && Writing(x) then Some(NextLocalId(x.t.m.lastLocalId))
    else None
  }

  /** The id, if it was in use. */
  function Reused(x: SideState, op: SideOp): multiset<StreamID> {
    var id := Registered(x, op);
    if id.Some? && id.value in x.t.m.lines then multiset{id.value} else multiset{}
  }

  /** All ids a run has registered while they were in use, as often as it did. */
  function AllReused(x: SideState, window: nat, ops: seq<SideOp>): multiset<StreamID>
    decreases |ops|
  {
    if ops == [] then multiset{}
    else Reused(x, ops[0]) + AllReused(StepSide(x, window, ops[0]), window, ops[1..])
  }

  // ----- What every step keeps -----

  /** No task is in the collection without the receiver it polls. */
  predicate TasksAlive(m: ManagerState) {
    forall i | 0 <= i < |m.waiting| :: !m.waiting[i].outbox.rxClosed
  }

  /** System frames are resets and go-aways, never data or credit. */
  predicate PlainSystem(m: ManagerState) {
    forall f :: f in m.sys.queue ==> f.body.Rst? || f.body.GoAway?
  }

  ghost predicate Orderly(m: ManagerState) {
    WithinLimit(m) && ClosedNeedsNoFin(m) && TasksAlive(m) && PlainSystem(m) && !m.sys.Disconnected()
  }

  ghost predicate SideInv(x: SideState) {
    && Orderly(x.t.m)
    && (forall id | id in x.t.m.lines :: id in x.closers && x.closers[id] == x.t.m.lines[id].code)
  }

  /** Tasks and map have the same ids as before. */
  ghost predicate SameIds(m: ManagerState, m': ManagerState) {
    && m'.lines.Keys == m.lines.Keys && WaitingIds(m'.waiting) == WaitingIds(m.waiting)
    && m'.sentAway == m.sentAway && m'.streamLimit == m.streamLimit
  }

  /** No stream is new, and a close code stays once it is set. */
  predicate CodesStay(m: ManagerState, m': ManagerState) {
    forall id | id in m'.lines ::
      id in m.lines && (m.lines[id].code != 0 ==> m'.lines[id].code == m.lines[id].code)
  }

  /** What a step does that neither registers a stream nor polls a task nor goes away. */
  ghost predicate Mild(m: ManagerState, m': ManagerState) {
    SameIds(m, m') && CodesStay(m, m') && (Orderly(m) ==> Orderly(m')) && m'.lastLocalId == m.lastLocalId
  }

  lemma MildReflexive(m: ManagerState)
    ensures Mild(m, m)
  {}

  lemma SameSize(m: ManagerState, m': ManagerState)
    requires m'.lines.Keys == m.lines.Keys
    ensures |m'.lines| == |m.lines|
  {
    assert |m.lines.Keys| == |m.lines| && |m'.lines.Keys| == |m'.lines|;
  }

  lemma SendersClosedIsMild(m: ManagerState)
    ensures Mild(m, SendersClosed(m))
  {
    SameSize(m, SendersClosed(m));
  }

  lemma WriteClosedIsMild(m: ManagerState, id: StreamID)
    ensures Mild(m, WriteClosed(m, id))
  {
    SameSize(m, WriteClosed(m, id));
  }

  lemma SystemFrameIsMild(m: ManagerState, f: Frame)
    requires f.body.Rst? || f.body.GoAway?
    ensures Mild(m, m.(sys := m.sys.Push(f)))
  {}

  lemma DeliverKeepsCode(p: Parcel, line: Line, full: bool)
    ensures var d := Deliver(p, Some(line.entry), line.code, line.inbox, full);
      && (line.code != 0 ==> d.code == line.code)
      && ((line.code != 0 ==> !line.entry.needsFin && line.entry.dataWriteClosed) ==>
            (d.code != 0 ==> !d.entry.value.needsFin && d.entry.value.dataWriteClosed))
  {}

  lemma SendIsMild(m: ManagerState, p: Parcel, full: bool)
    ensures Mild(m, SendToStream(m, p, full).2)
  {
    var id := p.frame.header.streamId;
    if id in m.lines {
      DeliverKeepsCode(p, m.lines[id], full);
      SameSize(m, SendToStream(m, p, full).2);
    }
  }

  lemma ActingIsMild(m: ManagerState, line: Option<StreamID>, inbox: Chan, task: Option<nat>, outbox: Chan)
    requires MayAct(m, line, inbox, task, outbox)
    ensures Mild(m, Acted(m, line, inbox, task, outbox))
  {
    SameSize(m, Acted(m, line, inbox, task, outbox));
  }

  lemma CreateKeepsOrder(m: ManagerState, id: Option<StreamID>, window: nat)
    requires Orderly(m)
    ensures Orderly(Create(m, id, window).1)
    ensures |m.lines| != m.streamLimit ==>
      var sid := if id.Some? then id.value else NextLocalId(m.lastLocalId);
      Create(m, id, window).1.lines.Keys == m.lines.Keys + {sid}
  {
    var (r, m') := Create(m, id, window);
    if r.Ok? {
      assert m'.lines.Keys == m.lines.Keys + {r.value};
      assert |m.lines.Keys| == |m.lines| && |m'.lines.Keys| == |m'.lines|;
    }
  }

  lemma GoingAwayKeepsOrder(m: ManagerState)
    ensures Orderly(m) ==> Orderly(GoneAway(m))
    ensures SendersClosed(GoneAway(m)) == GoneAway(m)
  {}

  lemma PollKeepsOrder(m: ManagerState, pick: nat)
    requires Offered(m, pick) && m.waiting[pick].id in m.lines && Orderly(m)
    ensures var m' := PollNextOf(m, Some(pick)).1;
      && Orderly(m') && CodesStay(m, m') && m'.lastLocalId == m.lastLocalId
      && m'.sentAway == m.sentAway && m'.streamLimit == m.streamLimit
  {
    var m' := PollNextOf(m, Some(pick)).1;
    var id := m.waiting[pick].id;
    if id in m'.lines {
      assert m'.lines.Keys == m.lines.Keys;
    } else {
      assert m'.lines.Keys == m.lines.Keys - {id};
    }
    FewerLines(m, pick, m');
  }

  lemma SystemPollIsMild(m: ManagerState)
    requires m.sentAway || m.sys.queue != []
    ensures Mild(m, PollNextOf(m, None).1)
  {}

  // ----- The kinds of steps -----

  /** The request a registering step makes. */
  function RequestOf(op: SideOp): Option<StreamID> {
    if op.Arrive? then Some(op.frame.header.streamId) else None
  }

  /** A step polls a task the writer is offered and whose handle is there. */
  predicate Polls(x: SideState, op: SideOp) {
    op.WriteOne? && Writing(x) && Offered(x.t.m, op.pick) && x.t.m.waiting[op.pick].id in x.t.m.lines
  }

  lemma DispatchKinds(t: TaskState, f: Frame)
    ensures Mild(t.m, Dispatched(t, f).m) || Dispatched(t, f).m == GoneAway(t.m)
  {
    MildReflexive(t.m);
    GoingAwayKeepsOrder(t.m);
    SystemFrameIsMild(t.m, GoAwayFrame(t.last, Protocol, INVALID_FRAME));
  }

  lemma TakingKinds(x: SideState, window: nat, op: SideOp)
    requires Registered(x, op).None? && (op.Arrive? || op.AdmitNew? || op.InputEnds?)
    ensures var m, m' := x.t.m, StepSide(x, window, op).t.m; Mild(m, m') || m' == GoneAway(m)
  {
    var t := x.t;
    MildReflexive(t.m);
    SendersClosedIsMild(t.m);
    match op
    case Arrive(f) => DispatchKinds(t, f);
    case AdmitNew(ok) => if t.reader.Admitting? { DispatchKinds(t, t.reader.frame); }
    case InputEnds =>
  }

  lemma PolledIsMild(t: TaskState, full: bool)
    ensures Mild(t.m, Polled(t, full).m)
  {
    if t.reader.Routing? {
      SendIsMild(t.m, t.reader.parcel, full);
    } else {
      MildReflexive(t.m);
    }
  }

  lemma ConcludedIsMild(t: TaskState)
    ensures Mild(t.m, Concluded(t).m)
  {
    match t.reader
    case Finishing(id) => WriteClosedIsMild(t.m, id);
    case Resetting(id, e) => SystemFrameIsMild(t.m, RstFrame(id, e));
    case _ => MildReflexive(t.m);
  }

  lemma DeliveryKinds(x: SideState, window: nat, op: SideOp)
    requires op.PollAgain? || op.Settle?
    ensures Mild(x.t.m, StepSide(x, window, op).t.m)
  {
    match op
    case PollAgain(full) => PolledIsMild(x.t, full);
    case Settle => ConcludedIsMild(x.t);
  }

  lemma OtherKinds(x: SideState, window: nat, op: SideOp)
    requires Registered(x, op).None? && !Polls(x, op)
    requires op.OpenNew? || op.WriteOne? || op.StreamActs? || op.StreamCloses?
    ensures Mild(x.t.m, StepSide(x, window, op).t.m)
  {
    MildReflexive(x.t.m);
    match op
    case OpenNew =>
    case WriteOne(pick) =>
      if x.t.m.sentAway || x.t.m.sys.queue != [] { SystemPollIsMild(x.t.m); }
    case StreamActs(line, inbox, task, outbox) =>
      if MayAct(x.t.m, line, inbox, task, outbox) { ActingIsMild(x.t.m, line, inbox, task, outbox); }
    case StreamCloses(_, _) =>
  }

  /** Every step registers a stream, polls a task, goes away, or is mild. */
  lemma Kinds(x: SideState, window: nat, op: SideOp)
    ensures var m, m' := x.t.m, StepSide(x, window, op).t.m;
      if Registered(x, op).Some? then
        m' == Create(m, RequestOf(op), window).1 && Create(m, RequestOf(op), window).0 == Ok(Registered(x, op).value)
      else if Polls(x, op) then m' == PollNextOf(m, Some(op.pick)).1
      else Mild(m, m') || m' == GoneAway(m)
  {
    if Registered(x, op).None? && !Polls(x, op) {
      if op.Arrive? || op.AdmitNew? || op.InputEnds? {
        TakingKinds(x, window, op);
      } else if op.PollAgain? || op.Settle? {
        DeliveryKinds(x, window, op);
      } else {
        OtherKinds(x, window, op);
      }
    }
  }

  /** The close codes always are those of the handles. */
  lemma ClosersFollow(x: SideState, window: nat, op: SideOp)
    requires SideInv(x)
    ensures var x' := StepSide(x, window, op);
      forall id | id in x'.t.m.lines :: id in x'.closers && x'.closers[id] == x'.t.m.lines[id].code
  {}

  lemma StepKeepsInv(x: SideState, window: nat, op: SideOp)
    requires SideInv(x)
    ensures SideInv(StepSide(x, window, op))
    ensures StepSide(x, window, op).t.m.streamLimit == x.t.m.streamLimit
  {
    Kinds(x, window, op);
    ClosersFollow(x, window, op);
    if Registered(x, op).Some? {
      CreateKeepsOrder(x.t.m, RequestOf(op), window);
    } else if Polls(x, op) {
      PollKeepsOrder(x.t.m, op.pick);
    } else {
      GoingAwayKeepsOrder(x.t.m);
    }
  }

  lemma NewSideInv(client: bool, limit: nat)
    ensures SideInv(NewSide(client, limit))
  {}

  lemma {:induction false} RunKeepsInv(x: SideState, window: nat, ops: seq<SideOp>)
    requires SideInv(x)
    ensures SideInv(RunSide(x, window, ops)) && RunSide(x, window, ops).t.m.streamLimit == x.t.m.streamLimit
    decreases |ops|
  {
    if ops != [] {
      StepKeepsInv(x, window, ops[0]);
      RunKeepsInv(StepSide(x, window, ops[0]), window, ops[1..]);
    }
  }

  // ----- Tasks and map -----

  /** Unless the side has gone away, its tasks are its map and the `reused` registrations on top. */
  ghost predicate TasksBalance(x: SideState, reused: multiset<StreamID>) {
    && (!x.t.m.sentAway ==> multiset(WaitingIds(x.t.m.waiting)) == multiset(x.t.m.lines.Keys) + reused)
    && (reused == multiset{} ==> !x.crashed)
  }

  lemma CreateBalances(m: ManagerState, request: Option<StreamID>, window: nat, reused: multiset<StreamID>)
    requires multiset(WaitingIds(m.waiting)) == multiset(m.lines.Keys) + reused && |m.lines| != m.streamLimit
    ensures var (r, m') := Create(m, request, window);
      multiset(WaitingIds(m'.waiting))
        == multiset(m'.lines.Keys) + reused + if r.value in m.lines then multiset{r.value} else multiset{}
  {
    var (r, m') := Create(m, request, window);
    assert WaitingIds(m'.waiting) == WaitingIds(m.waiting) + [r.value];
    assert m'.lines.Keys == m.lines.Keys + {r.value};
    assert multiset(WaitingIds(m'.waiting)) == multiset(m.lines.Keys) + reused + multiset{r.value};
    assert multiset(m'.lines.Keys)
        == multiset(m.lines.Keys) + if r.value in m.lines then multiset{} else multiset{r.value};
  }

  lemma Cancel(a: multiset<StreamID>, b: multiset<StreamID>, id: StreamID)
    requires a + multiset{id} == b + multiset{id}
    ensures a == b
  {
    assert a == (a + multiset{id}) - multiset{id} && b == (b + multiset{id}) - multiset{id};
  }

  lemma PollBalances(m: ManagerState, pick: nat, reused: multiset<StreamID>)
    requires Offered(m, pick) && m.waiting[pick].id in m.lines
    requires multiset(WaitingIds(m.waiting)) == multiset(m.lines.Keys) + reused
    ensures var m' := PollNextOf(m, Some(pick)).1;
      multiset(WaitingIds(m'.waiting)) == multiset(m'.lines.Keys) + reused
  {
    var m' := PollNextOf(m, Some(pick)).1;
    var id := m.waiting[pick].id;
    WithoutIds(m.waiting, pick);
    if id in m'.lines {
      assert m'.lines.Keys == m.lines.Keys;
      assert WaitingIds(m'.waiting) == WaitingIds(m.waiting);
    } else {
      assert m'.lines.Keys == m.lines.Keys - {id};
      assert multiset(m.lines.Keys) == multiset(m'.lines.Keys) + multiset{id};
      assert m'.waiting == Without(m.waiting, pick);
      Cancel(multiset(WaitingIds(m'.waiting)), multiset(m'.lines.Keys) + reused, id);
    }
  }

  /** Without reuse, every ready task has its handle. */
  lemma BalanceFindsHandle(m: ManagerState, pick: nat)
    requires multiset(WaitingIds(m.waiting)) == multiset(m.lines.Keys) && pick < |m.waiting|
    ensures m.waiting[pick].id in m.lines
  {
    assert WaitingIds(m.waiting)[pick] in multiset(WaitingIds(m.waiting));
  }

  lemma CrashNeedsReuse(x: SideState, window: nat, op: SideOp)
    requires !x.crashed && multiset(WaitingIds(x.t.m.waiting)) == multiset(x.t.m.lines.Keys)
    ensures !StepSide(x, window, op).crashed
  {
    if op.WriteOne? && Offered(x.t.m, op.pick) {
      BalanceFindsHandle(x.t.m, op.pick);
    }
  }

  lemma AwayDoesNotCrash(x: SideState, window: nat, op: SideOp)
    requires x.t.m.sentAway && !x.crashed
    ensures !StepSide(x, window, op).crashed
  {}

  lemma StepCountsTasks(x: SideState, window: nat, op: SideOp, reused: multiset<StreamID>)
    requires multiset(WaitingIds(x.t.m.waiting)) == multiset(x.t.m.lines.Keys) + reused && !x.t.m.sentAway
    ensures var m' := StepSide(x, window, op).t.m;
      !m'.sentAway ==> multiset(WaitingIds(m'.waiting)) == multiset(m'.lines.Keys) + reused + Reused(x, op)
  {
    Kinds(x, window, op);
    if Registered(x, op).Some? {
      CreateBalances(x.t.m, RequestOf(op), window, reused);
    } else if Polls(x, op) {
      PollBalances(x.t.m, op.pick, reused);
    }
  }

  lemma AwayStays(x: SideState, window: nat, op: SideOp)
    requires x.t.m.sentAway
    ensures StepSide(x, window, op).t.m.sentAway
  {
    Kinds(x, window, op);
  }

  lemma StepBalancesTasks(x: SideState, window: nat, op: SideOp, reused: multiset<StreamID>)
    requires TasksBalance(x, reused)
    ensures TasksBalance(StepSide(x, window, op), reused + Reused(x, op))
  {
    if x.t.m.sentAway {
      AwayStays(x, window, op);
      if reused == multiset{} { AwayDoesNotCrash(x, window, op); }
    } else {
      StepCountsTasks(x, window, op, reused);
      assert multiset(x.t.m.lines.Keys) + multiset{} == multiset(x.t.m.lines.Keys);
      if reused == multiset{} { CrashNeedsReuse(x, window, op); }
    }
  }

  lemma {:induction false} RunBalancesTasks(x: SideState, window: nat, ops: seq<SideOp>, reused: multiset<StreamID>)
    requires SideInv(x) && TasksBalance(x, reused)
    ensures TasksBalance(RunSide(x, window, ops), reused + AllReused(x, window, ops))
    decreases |ops|
  {
    if ops != [] {
      var x1 := StepSide(x, window, ops[0]);
      StepBalancesTasks(x, window, ops[0], reused);
      StepKeepsInv(x, window, ops[0]);
      RunBalancesTasks(x1, window, ops[1..], reused + Reused(x, ops[0]));
      assert reused + Reused(x, ops[0]) + AllReused(x1, window, ops[1..])
          == reused + (Reused(x, ops[0]) + AllReused(x1, window, ops[1..]));
    }
  }

  /**
   * Whatever arrives: the map never exceeds the limit. Until the side goes away it has as many tasks
   * as streams in its map, and one more for every time an id was registered while in use; so tasks
   * and map agree exactly when that never happened, and then the writer never crashes.
   */
  lemma TasksAreCounted(client: bool, limit: nat, window: nat, ops: seq<SideOp>)
    ensures var start := NewSide(client, limit);
      var x, reused := RunSide(start, window, ops), AllReused(start, window, ops);
      && |x.t.m.lines| <= limit
      && (!x.t.m.sentAway ==>
            && |x.t.m.waiting| == |x.t.m.lines| + |reused|
            && (Agree(x.t.m) <==> reused == multiset{}))
      && (reused == multiset{} ==> !x.crashed)
  {
    var start := NewSide(client, limit);
    var x, reused := RunSide(start, window, ops), AllReused(start, window, ops);
    NewSideInv(client, limit);
    NewManagerInv(limit, client);
    assert WaitingIds([]) == [];
    RunBalancesTasks(start, window, ops, multiset{});
    RunKeepsInv(start, window, ops);
    assert multiset{} + reused == reused;
    if !x.t.m.sentAway {
      assert |multiset(WaitingIds(x.t.m.waiting))| == |x.t.m.waiting|;
      assert |multiset(x.t.m.lines.Keys)| == |x.t.m.lines.Keys| == |x.t.m.lines|;
      if Agree(x.t.m) {
        assert |reused| == 0;
      }
    }
  }

  // ----- A remote that uses an id again -----

  const STREAM_ONE: StreamID := 1
  const SYN_FRAME: Frame := FrameFrom(Body.Data([])).Syn().WithId(STREAM_ONE)
  const DROPPED: Chan := Chan([], true, false)

  /** A new stream, from its SYN to the reader's next rest. */
  const ONE_SYN: seq<SideOp> := [Arrive(SYN_FRAME), AdmitNew(true), PollAgain(false)]

  /** Both streams are dropped by the application. */
  const BOTH_DROPPED: seq<SideOp> :=
    [StreamActs(None, OPEN_CHAN, Some(0), DROPPED), StreamActs(None, OPEN_CHAN, Some(1), DROPPED)]

  lemma {:induction false} RunInTurn(x: SideState, window: nat, first: seq<SideOp>, second: seq<SideOp>)
    ensures RunSide(x, window, first + second) == RunSide(RunSide(x, window, first), window, second)
    ensures AllReused(x, window, first + second)
         == AllReused(x, window, first) + AllReused(RunSide(x, window, first), window, second)
    decreases |first|
  {
    if first == [] {
      assert first + second == second;
    } else {
      assert (first + second)[1..] == first[1..] + second;
      RunInTurn(StepSide(x, window, first[0]), window, first[1..], second);
    }
  }

  /** What a SYN makes of the manager and the reader of a side at rest that is below its limit. */
  function WithStreamOne(t: TaskState, window: nat): TaskState {
    TaskState(
      t.m.(lines := t.m.lines[STREAM_ONE := Line(NewEntry(window), 0, OPEN_CHAN.Push(SYN_FRAME))],
           waiting := t.m.waiting + [Waiting(STREAM_ONE, OPEN_CHAN)],
           lastRemoteId := STREAM_ONE),
      Resting, STREAM_ONE)
  }

  lemma ThreeSteps(x: SideState, window: nat, a: SideOp, b: SideOp, c: SideOp)
    ensures RunSide(x, window, [a, b, c]) == StepSide(StepSide(StepSide(x, window, a), window, b), window, c)
  {
    assert [a, b, c][1..] == [b, c] && [b, c][1..] == [c] && [c][1..] == [];
    assert RunSide(StepSide(x, window, a), window, [b, c])
        == RunSide(StepSide(StepSide(x, window, a), window, b), window, [c]);
  }

  lemma SynTaken(t: TaskState, window: nat)
    requires t.reader.Resting? && |t.m.lines| != t.m.streamLimit
    ensures Took(t, SYN_FRAME, window)
         == t.(m := Create(t.m, Some(STREAM_ONE), window).1, reader := Admitting(SYN_FRAME))
  {}

  lemma SynAdmitted(t: TaskState)
    requires t.reader == Admitting(SYN_FRAME)
    ensures Admitted(t, true) == t.(reader := Routing(NewParcel(SYN_FRAME)))
  {}

  lemma SynDelivered(t: TaskState, window: nat)
    requires t.reader == Routing(NewParcel(SYN_FRAME))
    requires STREAM_ONE in t.m.lines && t.m.lines[STREAM_ONE] == Line(NewEntry(window), 0, OPEN_CHAN)
    ensures Polled(t, false) == TaskState(
      t.m.(lines := t.m.lines[STREAM_ONE := Line(NewEntry(window), 0, OPEN_CHAN.Push(SYN_FRAME))]), Resting, STREAM_ONE)
  {
    assert SYN_FRAME.Payload() == [] && SYN_FRAME.header.streamId == STREAM_ONE;
    assert NewParcel(SYN_FRAME) == Parcel(SYN_FRAME, 0);
  }

  lemma SynHandled(t: TaskState, window: nat)
    requires t.reader.Resting? && |t.m.lines| != t.m.streamLimit
    ensures Polled(Admitted(Took(t, SYN_FRAME, window), true), false) == WithStreamOne(t, window)
  {
    var t1 := Took(t, SYN_FRAME, window);
    SynTaken(t, window);
    SynAdmitted(t1);
    SynDelivered(Admitted(t1, true), window);
    assert t1.m.lines[STREAM_ONE := Line(NewEntry(window), 0, OPEN_CHAN.Push(SYN_FRAME))]
        == t.m.lines[STREAM_ONE := Line(NewEntry(window), 0, OPEN_CHAN.Push(SYN_FRAME))];
  }

  lemma OneSynRegisters(x: SideState, window: nat)
    requires x.t.reader.Resting? && |x.t.m.lines| != x.t.m.streamLimit
    ensures RunSide(x, window, ONE_SYN).t == WithStreamOne(x.t, window)
    ensures var x' := RunSide(x, window, ONE_SYN);
      x'.crashed == x.crashed && x'.ended == x.ended && x'.written == x.written
  {
    ThreeSteps(x, window, Arrive(SYN_FRAME), AdmitNew(true), PollAgain(false));
    SynHandled(x.t, window);
  }

  lemma FirstSyn(client: bool, limit: nat, window: nat, x1: SideState)
    requires limit >= 2 && x1 == RunSide(NewSide(client, limit), window, ONE_SYN)
    ensures x1.t == WithStreamOne(NewSide(client, limit).t, window) && Writing(x1)
    ensures |x1.t.m.lines| == 1 && x1.t.m.lines.Keys == {STREAM_ONE} && x1.t.m.streamLimit == limit
  {
    OneSynRegisters(NewSide(client, limit), window);
    assert x1.t.m.lines.Keys == {STREAM_ONE};
    assert |x1.t.m.lines| == |x1.t.m.lines.Keys|;
  }

  function Times(n: nat, ops: seq<SideOp>): seq<SideOp> {
    if n == 0 then [] else ops + Times(n - 1, ops)
  }

  lemma OnceMore(x: SideState, window: nat, n: nat, ops: seq<SideOp>, x1: SideState)
    requires x1 == RunSide(x, window, ops)
    ensures RunSide(x, window, Times(n + 1, ops)) == RunSide(x1, window, Times(n, ops))
  {
    RunInTurn(x, window, ops, Times(n, ops));
  }

  /** What `n` further SYNs make of a side that already has the stream. */
  function WithMoreSyns(t: TaskState, window: nat, n: nat): TaskState
    decreases n
  {
    if n == 0 then t else WithMoreSyns(WithStreamOne(t, window), window, n - 1)
  }

  lemma {:induction false} MoreSynsAddTasks(t: TaskState, window: nat, n: nat)
    requires STREAM_ONE in t.m.lines
    ensures var m := WithMoreSyns(t, window, n).m;
      m.lines.Keys == t.m.lines.Keys && |m.waiting| == |t.m.waiting| + n
    decreases n
  {
    if n > 0 {
      assert WithStreamOne(t, window).m.lines.Keys == t.m.lines.Keys;
      MoreSynsAddTasks(WithStreamOne(t, window), window, n - 1);
    }
  }

  lemma SynLeavesReady(t: TaskState, window: nat)
    requires STREAM_ONE in t.m.lines && |t.m.lines| != t.m.streamLimit
    ensures var t' := WithStreamOne(t, window);
      t'.reader.Resting? && STREAM_ONE in t'.m.lines && |t'.m.lines| != t'.m.streamLimit
  {
    assert WithStreamOne(t, window).m.lines.Keys == t.m.lines.Keys;
    SameSize(t.m, WithStreamOne(t, window).m);
  }

  /** The steps `syn` register the stream once on every side that is ready for it. */
  ghost predicate RegistersOnce(syn: seq<SideOp>, window: nat) {
    forall x: SideState {:trigger RunSide(x, window, syn)} ::
      x.t.reader.Resting? && |x.t.m.lines| != x.t.m.streamLimit ==>
        RunSide(x, window, syn).t == WithStreamOne(x.t, window)
  }

  lemma OneSynAlwaysRegisters(window: nat)
    ensures RegistersOnce(ONE_SYN, window)
  {
    forall x: SideState | x.t.reader.Resting? && |x.t.m.lines| != x.t.m.streamLimit
      ensures RunSide(x, window, ONE_SYN).t == WithStreamOne(x.t, window)
    {
      OneSynRegisters(x, window);
    }
  }

  function RunTimes(x: SideState, window: nat, n: nat, ops: seq<SideOp>): SideState
    decreases n
  {
    if n == 0 then x else RunTimes(RunSide(x, window, ops), window, n - 1, ops)
  }

  lemma {:induction false} RunTimesRuns(x: SideState, window: nat, n: nat, ops: seq<SideOp>)
    ensures RunSide(x, window, Times(n, ops)) == RunTimes(x, window, n, ops)
    decreases n
  {
    if n > 0 {
      OnceMore(x, window, n - 1, ops, RunSide(x, window, ops));
      RunTimesRuns(RunSide(x, window, ops), window, n - 1, ops);
    }
  }

  lemma {:induction false} MoreSynsRegister(x: SideState, window: nat, n: nat, syn: seq<SideOp>)
    requires RegistersOnce(syn, window)
    requires x.t.reader.Resting? && STREAM_ONE in x.t.m.lines && |x.t.m.lines| != x.t.m.streamLimit
    ensures RunTimes(x, window, n, syn).t == WithMoreSyns(x.t, window, n)
    decreases n
  {
    if n > 0 {
      SynLeavesReady(x.t, window);
      MoreSynsRegister(RunSide(x, window, syn), window, n - 1, syn);
    }
  }

  /**
   * So the number of tasks has no bound: a remote that repeats one id adds a task, and a stream for
   * the application, with every SYN, while the map keeps one entry.
   */
  lemma TasksHaveNoBound(client: bool, limit: nat, window: nat, n: nat)
    requires limit >= 2
    ensures var x := RunSide(NewSide(client, limit), window, Times(n + 1, ONE_SYN));
      |x.t.m.waiting| == n + 1 && x.t.m.lines.Keys == {STREAM_ONE}
  {
    var x1 := RunSide(NewSide(client, limit), window, ONE_SYN);
    FirstSyn(client, limit, window, x1);
    OnceMore(NewSide(client, limit), window, n, ONE_SYN, x1);
    OneSynAlwaysRegisters(window);
    RunTimesRuns(x1, window, n, ONE_SYN);
    MoreSynsRegister(x1, window, n, ONE_SYN);
    MoreSynsAddTasks(x1.t, window, n);
  }

  lemma TwoSteps(x: SideState, window: nat, a: SideOp, b: SideOp)
    ensures RunSide(x, window, [a, b]) == StepSide(StepSide(x, window, a), window, b)
  {
    assert [a, b][1..] == [b] && [b][1..] == [];
    assert RunSide(StepSide(x, window, a), window, [b]) == StepSide(StepSide(x, window, a), window, b);
  }

  lemma BothAreDropped(x: SideState, window: nat)
    requires x.t.m.waiting == [Waiting(STREAM_ONE, OPEN_CHAN), Waiting(STREAM_ONE, OPEN_CHAN)]
    ensures RunSide(x, window, BOTH_DROPPED).t
         == x.t.(m := x.t.m.(waiting := [Waiting(STREAM_ONE, DROPPED), Waiting(STREAM_ONE, DROPPED)]))
    ensures RunSide(x, window, BOTH_DROPPED).crashed == x.crashed && RunSide(x, window, BOTH_DROPPED).ended == x.ended
  {
    TwoSteps(x, window, BOTH_DROPPED[0], BOTH_DROPPED[1]);
  }

  /** Of two tasks with one id, the first to end takes the handle away; the second finds none. */
  lemma SecondEndCrashes(x: SideState, window: nat)
    requires x.t.m.waiting == [Waiting(STREAM_ONE, DROPPED), Waiting(STREAM_ONE, DROPPED)]
    requires !x.t.m.sentAway && x.t.m.sys.queue == [] && STREAM_ONE in x.t.m.lines && Writing(x)
    ensures RunSide(x, window, [WriteOne(0), WriteOne(0)]).crashed
  {
    TwoSteps(x, window, WriteOne(0), WriteOne(0));
    var x1 := StepSide(x, window, WriteOne(0));
    assert STREAM_ONE !in x1.t.m.lines && x1.t.m.waiting == [Waiting(STREAM_ONE, DROPPED)];
  }

  lemma TwoSynsWaiting(client: bool, limit: nat, window: nat, t1: TaskState, t2: TaskState)
    requires t1 == WithStreamOne(NewSide(client, limit).t, window) && t2 == WithStreamOne(t1, window)
    ensures t2.m.waiting == [Waiting(STREAM_ONE, OPEN_CHAN), Waiting(STREAM_ONE, OPEN_CHAN)]
    ensures STREAM_ONE in t2.m.lines && !t2.m.sentAway && t2.m.sys.queue == []
  {}

  lemma SecondSyn(client: bool, limit: nat, window: nat, x1: SideState, x2: SideState)
    requires limit >= 2 && x1 == RunSide(NewSide(client, limit), window, ONE_SYN)
    requires x2 == RunSide(x1, window, ONE_SYN)
    ensures x2.t.m.waiting == [Waiting(STREAM_ONE, OPEN_CHAN), Waiting(STREAM_ONE, OPEN_CHAN)]
    ensures STREAM_ONE in x2.t.m.lines && !x2.t.m.sentAway && x2.t.m.sys.queue == [] && Writing(x2)
  {
    FirstSyn(client, limit, window, x1);
    OneSynRegisters(x1, window);
    TwoSynsWaiting(client, limit, window, x1.t, x2.t);
  }

  /** Both streams are dropped, and the writer polls twice. */
  const THE_END: seq<SideOp> := [WriteOne(0), WriteOne(0)]

  lemma BothEndsCrash(x: SideState, window: nat)
    requires x.t.m.waiting == [Waiting(STREAM_ONE, OPEN_CHAN), Waiting(STREAM_ONE, OPEN_CHAN)]
    requires STREAM_ONE in x.t.m.lines && !x.t.m.sentAway && x.t.m.sys.queue == [] && Writing(x)
    ensures RunSide(x, window, BOTH_DROPPED + THE_END).crashed
  {
    BothAreDropped(x, window);
    SecondEndCrashes(RunSide(x, window, BOTH_DROPPED), window);
    RunInTurn(x, window, BOTH_DROPPED, THE_END);
  }

  /**
   * The input that breaks the agreement: two SYNs with one id, and both streams dropped. The writer
   * reaches the branch that should be unreachable.
   */
  lemma ReusedIdCrashesTheWriter(client: bool, limit: nat, window: nat)
    requires limit >= 2
    ensures RunSide(NewSide(client, limit), window, ONE_SYN + (ONE_SYN + (BOTH_DROPPED + THE_END))).crashed
  {
    var start := NewSide(client, limit);
    var x1 := RunSide(start, window, ONE_SYN);
    var x2 := RunSide(x1, window, ONE_SYN);
    SecondSyn(client, limit, window, x1, x2);
    BothEndsCrash(x2, window);
    RunInTurn(x1, window, ONE_SYN, BOTH_DROPPED + THE_END);
    RunInTurn(start, window, ONE_SYN, ONE_SYN + (BOTH_DROPPED + THE_END));
  }

  // ----- Resets are final -----

  /** The data and credit of one stream among the frames written. */
  function OutputOf(fs: seq<Frame>, id: StreamID): seq<Frame> {
    if fs == [] then []
    else (if fs[0].header.streamId == id && StreamFrame(fs[0]) then [fs[0]] else []) + OutputOf(fs[1..], id)
  }

  lemma {:induction false} OutputAppend(fs: seq<Frame>, f: Frame, id: StreamID)
    ensures OutputOf(fs + [f], id)
         == OutputOf(fs, id) + if f.header.streamId == id && StreamFrame(f) then [f] else []
  {
    if fs == [] {
      assert [f][1..] == [];
    } else {
      assert (fs + [f])[1..] == fs[1..] + [f];
      OutputAppend(fs[1..], f, id);
    }
  }

  /** The stream of this id, if there is one in the map, has a close code. */
  predicate Silent(x: SideState, id: StreamID) {
    id in x.t.m.lines ==> x.t.m.lines[id].code != 0
  }

  lemma MildKeepsSilence(x: SideState, m': ManagerState, id: StreamID)
    requires SideInv(x) && Silent(x, id) && CodesStay(x.t.m, m') && m'.sentAway == x.t.m.sentAway
    ensures id in m'.lines ==> m'.lines[id].code != 0
    ensures id in x.closers && x.closers[id] != 0 ==>
      id in ClosersAfter(x, m') && ClosersAfter(x, m')[id] == x.closers[id]
  {}

  lemma GoingAwayKeepsSilence(x: SideState, id: StreamID)
    requires SideInv(x) && Silent(x, id)
    ensures id in x.closers && x.closers[id] != 0 ==>
      id in ClosersAfter(x, GoneAway(x.t.m)) && ClosersAfter(x, GoneAway(x.t.m))[id] == x.closers[id]
  {}

  /** A registration always starts over: the new stream of this id has no close code. */
  lemma RegistrationSpeaks(x: SideState, window: nat, op: SideOp)
    requires Registered(x, op).Some?
    ensures !Silent(StepSide(x, window, op), Registered(x, op).value)
  {
    Kinds(x, window, op);
  }

  lemma OtherRegistrationKeepsSilence(x: SideState, window: nat, op: SideOp, id: StreamID)
    requires SideInv(x) && Silent(x, id) && Registered(x, op).Some? && Registered(x, op) != Some(id)
    ensures Silent(StepSide(x, window, op), id)
    ensures id in x.closers && x.closers[id] != 0 ==>
      id in StepSide(x, window, op).closers && StepSide(x, window, op).closers[id] == x.closers[id]
  {
    Kinds(x, window, op);
  }

  lemma ClosersOfSame(x: SideState)
    requires forall id | id in x.t.m.lines :: id in x.closers && x.closers[id] == x.t.m.lines[id].code
    ensures ClosersAfter(x, x.t.m) == x.closers
  {}

  lemma WroteCloses(x: SideState, polled: (Poll<Option<Frame>>, ManagerState), x': SideState)
    requires x' == Wrote(x, polled)
    ensures x'.closers == ClosersAfter(x, x'.t.m)
  {}

  lemma WritingCloses(x: SideState, pick: nat, x': SideState)
    requires SideInv(x) && x' == WriteStep(x, pick)
    ensures x'.closers == ClosersAfter(x, x'.t.m)
  {
    var m := x.t.m;
    if x'.t == x.t {
      ClosersOfSame(x);
    } else if Offered(m, pick) {
      WroteCloses(x, PollNextOf(m, Some(pick)), x');
    } else {
      WroteCloses(x, PollNextOf(m, None), x');
    }
  }

  /** The close codes of a step are those the new manager leaves, unless a stream closes its own. */
  lemma StepCloses(x: SideState, window: nat, op: SideOp, x': SideState)
    requires SideInv(x) && !op.StreamCloses? && x' == StepSide(x, window, op)
    ensures x'.closers == ClosersAfter(x, x'.t.m)
  {
    ClosersOfSame(x);
    if op.WriteOne? {
      WritingCloses(x, op.pick, x');
    }
  }

  lemma OtherStepKeepsSilence(x: SideState, window: nat, op: SideOp, id: StreamID, m': ManagerState)
    requires SideInv(x) && Silent(x, id) && Registered(x, op).None? && m' == StepSide(x, window, op).t.m
    ensures id in m'.lines ==> m'.lines[id].code != 0
    ensures id in x.closers && x.closers[id] != 0 ==>
      id in ClosersAfter(x, m') && ClosersAfter(x, m')[id] == x.closers[id]
  {
    Kinds(x, window, op);
    if Polls(x, op) {
      PollKeepsOrder(x.t.m, op.pick);
      MildKeepsSilence(x, m', id);
    } else if Mild(x.t.m, m') {
      MildKeepsSilence(x, m', id);
    } else {
      GoingAwayKeepsSilence(x, id);
    }
  }

  /** A step leaves a silent stream silent exactly when it does not register its id again. */
  lemma SilenceEndsExactlyAtRegistration(x: SideState, window: nat, op: SideOp, id: StreamID)
    requires SideInv(x) && Silent(x, id)
    ensures Silent(StepSide(x, window, op), id) <==> Registered(x, op) != Some(id)
    ensures Registered(x, op) != Some(id) && id in x.closers && x.closers[id] != 0 ==>
      id in StepSide(x, window, op).closers && StepSide(x, window, op).closers[id] == x.closers[id]
  {
    if Registered(x, op) == Some(id) {
      RegistrationSpeaks(x, window, op);
    } else if Registered(x, op).Some? {
      OtherRegistrationKeepsSilence(x, window, op, id);
    } else {
      OtherStepKeepsSilence(x, window, op, id, StepSide(x, window, op).t.m);
      if !op.StreamCloses? {
        StepCloses(x, window, op, StepSide(x, window, op));
      }
    }
  }

  lemma WrittenGrows(x: SideState, polled: (Poll<Option<Frame>>, ManagerState), id: StreamID)
    requires polled.0.Ready? && polled.0.value.Some? ==>
      !(polled.0.value.value.header.streamId == id && StreamFrame(polled.0.value.value))
    ensures OutputOf(Wrote(x, polled).written, id) == OutputOf(x.written, id)
  {
    assert x.written + [] == x.written;
    if polled.0.Ready? && polled.0.value.Some? {
      OutputAppend(x.written, polled.0.value.value, id);
    }
  }

  /** What the writer is given is a system frame, or comes from a task and is not of a silent stream. */
  lemma PolledIsNotSilent(m: ManagerState, pick: nat, id: StreamID)
    requires Orderly(m) && Offered(m, pick) && m.waiting[pick].id in m.lines
    requires id in m.lines ==> m.lines[id].code != 0
    ensures var r := PollNextOf(m, Some(pick)).0;
      r.Ready? && r.value.Some? ==> r.value.value.header.streamId != id
  {}

  lemma SilentStreamWritesNothing(x: SideState, window: nat, op: SideOp, id: StreamID)
    requires SideInv(x) && Silent(x, id)
    ensures OutputOf(StepSide(x, window, op).written, id) == OutputOf(x.written, id)
  {
    var m := x.t.m;
    if op.WriteOne? && Writing(x) {
      if Polls(x, op) {
        PolledIsNotSilent(m, op.pick, id);
        WrittenGrows(x, PollNextOf(m, Some(op.pick)), id);
      } else if m.sentAway || m.sys.queue != [] {
        assert m.sys.queue != [] ==> m.sys.queue[0] in m.sys.queue;
        WrittenGrows(x, PollNextOf(m, None), id);
      }
    }
  }

  /** No step of the run registers the id. */
  predicate NeverRegisters(x: SideState, window: nat, ops: seq<SideOp>, id: StreamID)
    decreases |ops|
  {
    ops != [] ==>
      Registered(x, ops[0]) != Some(id) && NeverRegisters(StepSide(x, window, ops[0]), window, ops[1..], id)
  }

  /**
   * Against any remote and any application: once a stream has a close code, of whatever kind, and
   * until its id is registered again, it keeps that code and not one more frame of it is written.
   */
  lemma {:induction false} ResetIsFinal(x: SideState, window: nat, ops: seq<SideOp>, id: StreamID)
    requires SideInv(x) && Silent(x, id) && NeverRegisters(x, window, ops, id)
    ensures var x' := RunSide(x, window, ops);
      && Silent(x', id) && OutputOf(x'.written, id) == OutputOf(x.written, id)
      && (id in x.closers && x.closers[id] != 0 ==> id in x'.closers && x'.closers[id] == x.closers[id])
    decreases |ops|
  {
    if ops != [] {
      SilenceEndsExactlyAtRegistration(x, window, ops[0], id);
      SilentStreamWritesNothing(x, window, ops[0], id);
      StepKeepsInv(x, window, ops[0]);
      ResetIsFinal(StepSide(x, window, ops[0]), window, ops[1..], id);
    }
  }

  /** A reset that is received with any code but zero, and a delivery that is refused, silence a stream. */
  lemma ResetsSilence(x: SideState, window: nat, full: bool)
    requires x.t.reader.Routing?
    ensures var f, x' := x.t.reader.parcel.frame, StepSide(x, window, PollAgain(full));
      (f.body.Rst? && f.body.error != NoError && !f.header.typ.Data?) || x'.t.reader.Resetting? ==>
        Silent(x', f.header.streamId)
  {
    var p := x.t.reader.parcel;
    var id := p.frame.header.streamId;
    if id in x.t.m.lines {
      var line := x.t.m.lines[id];
      var d := Deliver(p, Some(line.entry), line.code, line.inbox, full);
      assert Polled(x.t, full).m.lines[id].code == d.code;
    }
  }

  /** In every run a closed sink owes no FIN, and the final code of a stream stays for good. */
  lemma ResetIsFinalInEveryRun(client: bool, limit: nat, window: nat, before: seq<SideOp>, after: seq<SideOp>,
                               id: StreamID)
    ensures var x := RunSide(NewSide(client, limit), window, before);
      && (forall k | k in x.t.m.lines :: x.t.m.lines[k].code != 0 ==> !x.t.m.lines[k].entry.needsFin)
      && (id in x.closers && x.closers[id] != 0 && NeverRegisters(x, window, after, id) ==>
            var x' := RunSide(x, window, after);
            && id in x'.closers && x'.closers[id] == x.closers[id]
            && OutputOf(x'.written, id) == OutputOf(x.written, id))
  {
    var x := RunSide(NewSide(client, limit), window, before);
    NewSideInv(client, limit);
    RunKeepsInv(NewSide(client, limit), window, before);
    if id in x.closers && x.closers[id] != 0 && NeverRegisters(x, window, after, id) {
      ResetIsFinal(x, window, after, id);
    }
  }

  /** The steps by which a registered stream gets a frame written at once. */
  function SpeakAtOnce(x: SideState, op: SideOp, f: Frame): seq<SideOp> {
    var last := |x.t.m.waiting|;
    [op, StreamActs(None, OPEN_CHAN, Some(last), Chan([f], false, false)), WriteOne(last)]
  }

  lemma RegisteredTaskIsLast(x: SideState, window: nat, op: SideOp, x1: SideState)
    requires Registered(x, op).Some? && x1 == StepSide(x, window, op)
    ensures x1.t.m.waiting == x.t.m.waiting + [Waiting(Registered(x, op).value, OPEN_CHAN)]
    ensures Registered(x, op).value in x1.t.m.lines && x1.t.m.lines[Registered(x, op).value].code == 0
    ensures x1.t.m.sys == x.t.m.sys && x1.t.m.sentAway == x.t.m.sentAway
    ensures x1.written == x.written && x1.crashed == x.crashed && x1.ended == x.ended
  {
    Kinds(x, window, op);
  }

  lemma LastTaskSpeaks(x: SideState, window: nat, id: StreamID, f: Frame, tasks: seq<Waiting>)
    requires x.t.m.waiting == tasks + [Waiting(id, OPEN_CHAN)] && id in x.t.m.lines && x.t.m.lines[id].code == 0
    requires !x.t.m.sentAway && x.t.m.sys.queue == [] && Writing(x) && Made(f) && id != 0
    ensures var acts := StreamActs(None, OPEN_CHAN, Some(|tasks|), Chan([f], false, false));
      StepSide(StepSide(x, window, acts), window, WriteOne(|tasks|)).written == x.written + [f.WithId(id)]
  {
    var acts := StreamActs(None, OPEN_CHAN, Some(|tasks|), Chan([f], false, false));
    var x1 := StepSide(x, window, acts);
    assert x.t.m.waiting[|tasks|] == Waiting(id, OPEN_CHAN);
    assert MayAct(x.t.m, None, OPEN_CHAN, Some(|tasks|), Chan([f], false, false));
    assert x1.t.m.waiting[|tasks|] == Waiting(id, Chan([f], false, false));
    assert x1.t.m.lines == x.t.m.lines;
  }

  /** Once its id is registered again, a silenced stream is heard again: the condition is needed. */
  lemma RegisteredAgainSpeaksAgain(x: SideState, window: nat, op: SideOp, f: Frame)
    requires SideInv(x) && Registered(x, op).Some? && Silent(x, Registered(x, op).value)
    requires Writing(x) && !x.t.m.sentAway && x.t.m.sys.queue == [] && Made(f)
    requires Registered(x, op).value != 0
    ensures var id := Registered(x, op).value;
      OutputOf(RunSide(x, window, SpeakAtOnce(x, op, f)).written, id) == OutputOf(x.written, id) + [f.WithId(id)]
  {
    var id := Registered(x, op).value;
    var last := |x.t.m.waiting|;
    ThreeSteps(x, window, op, StreamActs(None, OPEN_CHAN, Some(last), Chan([f], false, false)), WriteOne(last));
    RegisteredTaskIsLast(x, window, op, StepSide(x, window, op));
    LastTaskSpeaks(StepSide(x, window, op), window, id, f, x.t.m.waiting);
    OutputAppend(x.written, f.WithId(id), id);
  }

  // ----- Going away, the limit, local ids -----

  lemma GoAwayEnds(t: TaskState, f: Frame, window: nat)
    requires t.reader.Resting? && f.header.typ.GoAway? && f.body.GoAway? && !f.IsSyn()
    ensures Took(t, f, window) == t.(m := GoneAway(t.m), reader := Ended)
  {
    GoingAwayKeepsOrder(t.m);
  }

  /** A GOAWAY empties the map; every stream in it that was open is closed with RemoteGoneAway, error 11. */
  lemma GoAwayClosesEverything(x: SideState, window: nat, f: Frame)
    requires SideInv(x) && !x.t.m.sentAway
    requires x.t.reader.Resting? && f.header.typ.GoAway? && f.body.GoAway? && !f.IsSyn()
    ensures var x' := StepSide(x, window, Arrive(f));
      && x'.t.m.lines == map[] && x'.t.m.sentAway && x'.t.reader.Ended?
      && forall id | id in x.t.m.lines ::
           id in x'.closers && x'.closers[id] == if x.closers[id] != 0 then x.closers[id] else 11
  {
    GoAwayEnds(x.t, f, window);
    forall id | id in x.t.m.lines
      ensures id in ClosersAfter(x, GoneAway(x.t.m)) && ClosersAfter(x, GoneAway(x.t.m))[id] != 0
    {}
  }

  lemma StepStaysAway(x: SideState, window: nat, op: SideOp)
    requires x.t.m.sentAway
    ensures StepSide(x, window, op).t.m.sentAway && StepSide(x, window, op).written == x.written
  {
    Kinds(x, window, op);
    assert x.written + [] == x.written;
  }

  /** After a go-away nothing is ever written again. */
  lemma {:induction false} AwayForGood(x: SideState, window: nat, ops: seq<SideOp>)
    requires x.t.m.sentAway
    ensures RunSide(x, window, ops).t.m.sentAway && RunSide(x, window, ops).written == x.written
    decreases |ops|
  {
    if ops != [] {
      StepStaysAway(x, window, ops[0]);
      AwayForGood(StepSide(x, window, ops[0]), window, ops[1..]);
    }
  }

  /** A SYN beyond the limit is not refused: it ends the reader, and with it every stream's input. */
  lemma SynBeyondLimitEndsReader(t: TaskState, f: Frame, window: nat)
    requires t.reader.Resting? && f.IsSyn()
    ensures var t' := Took(t, f, window);
      && (t'.reader.Ended? <==> |t.m.lines| == t.m.streamLimit)
      && (t'.reader.Ended? ==>
            t'.m.sys == t.m.sys && t'.m.lines.Keys == t.m.lines.Keys
            && forall id | id in t'.m.lines :: t'.m.lines[id].inbox.txClosed)
  {}

  /** One if the step is a local open that succeeds. */
  function OpensBy(x: SideState, op: SideOp): nat {
    if op.OpenNew? && Registered(x, op).Some? then 1 else 0
  }

  function OpensIn(x: SideState, window: nat, ops: seq<SideOp>): nat
    decreases |ops|
  {
    if ops == [] then 0 else OpensBy(x, ops[0]) + OpensIn(StepSide(x, window, ops[0]), window, ops[1..])
  }

  lemma StepIds(x: SideState, window: nat, op: SideOp)
    requires Orderly(x.t.m)
    ensures StepSide(x, window, op).t.m.lastLocalId ==
      if OpensBy(x, op) == 1 then NextLocalId(x.t.m.lastLocalId) else x.t.m.lastLocalId
  {
    Kinds(x, window, op);
    if Polls(x, op) {
      PollKeepsOrder(x.t.m, op.pick);
    }
  }

  /** The last id after that many successful opens: initial + 2k as long as there are any left. */
  function IdAfter(client: bool, opens: nat): StreamID {
    if opens <= MAX_OPENS then InitialLocalId(client) + 2 * opens else STREAMID_MAX
  }

  lemma NextId(client: bool, opens: nat)
    ensures NextLocalId(IdAfter(client, opens)) == IdAfter(client, opens + 1)
  {}

  lemma {:induction false} RunIds(client: bool, opens: nat, x: SideState, window: nat, ops: seq<SideOp>, total: nat)
    requires SideInv(x) && x.t.m.lastLocalId == IdAfter(client, opens)
    requires total == opens + OpensIn(x, window, ops)
    ensures RunSide(x, window, ops).t.m.lastLocalId == IdAfter(client, total)
    decreases |ops|
  {
    if ops != [] {
      NextId(client, opens);
      StepIds(x, window, ops[0]);
      StepKeepsInv(x, window, ops[0]);
      RunIds(client, opens + OpensBy(x, ops[0]), StepSide(x, window, ops[0]), window, ops[1..], total);
    }
  }

  lemma NewSideIds(client: bool, limit: nat)
    ensures NewSide(client, limit).t.m.lastLocalId == IdAfter(client, 0)
  {}

  /** Ids depend on the number of successful opens alone, whatever else happens. */
  lemma IdsCountSuccessfulOpens(client: bool, limit: nat, window: nat, ops: seq<SideOp>)
    ensures RunSide(NewSide(client, limit), window, ops).t.m.lastLocalId
         == IdAfter(client, OpensIn(NewSide(client, limit), window, ops))
  {
    NewSideInv(client, limit);
    NewSideIds(client, limit);
    RunIds(client, 0, NewSide(client, limit), window, ops, OpensIn(NewSide(client, limit), window, ops));
  }

  // ----- On valid frames -----

  /** Frames as the codec hands them out when their header is valid. */
  predicate AllTyped(ops: seq<SideOp>) {
    forall op :: op in ops && op.Arrive? ==> Typed(op.frame)
  }

  predicate HeldTyped(r: Reader) {
    match r
    case Admitting(f) => Typed(f)
    case Routing(p) => Typed(p.frame) && Routable(p.frame)
    case _ => true
  }

  predicate PlainOutboxes(m: ManagerState) {
    forall i | 0 <= i < |m.waiting| :: AllStreamFrames(m.waiting[i].outbox.queue)
  }

  /** Only data and credit in the channels, in either direction. */
  ghost predicate PlainChannels(x: SideState) {
    OnlyStreamFrames(x.t.m) && PlainOutboxes(x.t.m) && HeldTyped(x.t.reader)
  }

  lemma CreateStaysPlain(m: ManagerState, request: Option<StreamID>, window: nat)
    requires OnlyStreamFrames(m) && PlainOutboxes(m)
    ensures OnlyStreamFrames(Create(m, request, window).1) && PlainOutboxes(Create(m, request, window).1)
  {}

  lemma PollStaysPlain(m: ManagerState, pick: nat)
    requires OnlyStreamFrames(m) && PlainOutboxes(m) && Offered(m, pick) && m.waiting[pick].id in m.lines
    ensures var (r, m') := PollNextOf(m, Some(pick));
      && OnlyStreamFrames(m') && PlainOutboxes(m')
      && (r.Ready? && r.value.Some? ==> StreamFrame(r.value.value))
  {
    var q := m.waiting[pick].outbox.queue;
    if q != [] {
      assert q[0] in q;
      assert AllStreamFrames(q[1..]);
    }
  }

  lemma ActingStaysPlain(m: ManagerState, line: Option<StreamID>, inbox: Chan, task: Option<nat>, outbox: Chan)
    requires OnlyStreamFrames(m) && PlainOutboxes(m) && MayAct(m, line, inbox, task, outbox)
    ensures OnlyStreamFrames(Acted(m, line, inbox, task, outbox)) && PlainOutboxes(Acted(m, line, inbox, task, outbox))
  {
    if task.Some? {
      var before := m.waiting[task.value].outbox.queue;
      forall f | f in outbox.queue ensures StreamFrame(f) {
        var i :| 0 <= i < |outbox.queue| && outbox.queue[i] == f;
        if i < |before| {
          assert f == before[i] && f in before;
        }
      }
    }
  }

  lemma DispatchStaysPlain(t: TaskState, f: Frame)
    requires OnlyStreamFrames(t.m) && Typed(f)
    ensures OnlyStreamFrames(Dispatched(t, f).m) && Dispatched(t, f).m.waiting == t.m.waiting
    ensures HeldTyped(Dispatched(t, f).reader) && !Dispatched(t, f).reader.Resetting?
  {}

  lemma TakingStaysPlain(t: TaskState, f: Frame, window: nat)
    requires OnlyStreamFrames(t.m) && PlainOutboxes(t.m) && HeldTyped(t.reader) && Typed(f)
    ensures var t' := Took(t, f, window); OnlyStreamFrames(t'.m) && PlainOutboxes(t'.m) && HeldTyped(t'.reader)
  {
    DispatchStaysPlain(t, f);
    CreateStaysPlain(t.m, Some(f.header.streamId), window);
  }

  lemma AdmissionStaysPlain(t: TaskState, ok: bool)
    requires OnlyStreamFrames(t.m) && PlainOutboxes(t.m) && HeldTyped(t.reader)
    ensures var t' := Admitted(t, ok); OnlyStreamFrames(t'.m) && PlainOutboxes(t'.m) && HeldTyped(t'.reader)
  {
    if t.reader.Admitting? {
      DispatchStaysPlain(t, t.reader.frame);
    }
  }

  lemma DeliveryStaysPlain(p: Parcel, line: Line, full: bool)
    requires Typed(p.frame) && Routable(p.frame) && AllStreamFrames(line.inbox.queue)
    ensures var d := Deliver(p, Some(line.entry), line.code, line.inbox, full);
      AllStreamFrames(d.inbox.queue) && d.parcel.frame == p.frame
  {}

  lemma PollingStaysPlain(t: TaskState, full: bool)
    requires OnlyStreamFrames(t.m) && PlainOutboxes(t.m) && HeldTyped(t.reader)
    ensures var t' := Polled(t, full); OnlyStreamFrames(t'.m) && PlainOutboxes(t'.m) && HeldTyped(t'.reader)
  {
    if t.reader.Routing? {
      var p := t.reader.parcel;
      var id := p.frame.header.streamId;
      if id in t.m.lines {
        DeliveryStaysPlain(p, t.m.lines[id], full);
      }
    }
  }

  lemma ConclusionStaysPlain(t: TaskState)
    requires OnlyStreamFrames(t.m) && PlainOutboxes(t.m) && HeldTyped(t.reader)
    ensures var t' := Concluded(t); OnlyStreamFrames(t'.m) && PlainOutboxes(t'.m) && HeldTyped(t'.reader)
  {}

  lemma StepStaysPlain(x: SideState, window: nat, op: SideOp)
    requires PlainChannels(x) && (op.Arrive? ==> Typed(op.frame))
    ensures PlainChannels(StepSide(x, window, op))
  {
    var t := x.t;
    match op
    case Arrive(f) => TakingStaysPlain(t, f, window);
    case AdmitNew(ok) => AdmissionStaysPlain(t, ok);
    case PollAgain(full) => PollingStaysPlain(t, full);
    case Settle => ConclusionStaysPlain(t);
    case OpenNew => CreateStaysPlain(t.m, None, window);
    case WriteOne(pick) => if Polls(x, op) { PollStaysPlain(t.m, pick); }
    case StreamActs(line, inbox, task, outbox) =>
      if MayAct(t.m, line, inbox, task, outbox) { ActingStaysPlain(t.m, line, inbox, task, outbox); }
    case _ =>
  }

  lemma {:induction false} RunStaysPlain(x: SideState, window: nat, ops: seq<SideOp>)
    requires PlainChannels(x) && AllTyped(ops)
    ensures PlainChannels(RunSide(x, window, ops))
    decreases |ops|
  {
    if ops != [] {
      assert ops[0] in ops;
      StepStaysPlain(x, window, ops[0]);
      RunStaysPlain(StepSide(x, window, ops[0]), window, ops[1..]);
    }
  }

  /**
   * On valid frames from any remote, streams only ever receive data and credit; and as long as no
   * live id is registered again, the manager keeps every invariant its class asks for.
   */
  lemma ValidFramesKeepTheManager(client: bool, limit: nat, window: nat, ops: seq<SideOp>)
    requires AllTyped(ops)
    ensures var x := RunSide(NewSide(client, limit), window, ops);
      && (forall id | id in x.t.m.lines :: AllStreamFrames(x.t.m.lines[id].inbox.queue))
      && (AllReused(NewSide(client, limit), window, ops) == multiset{} ==> ManagerInv(x.t.m))
  {
    NewSideInv(client, limit);
    RunKeepsInv(NewSide(client, limit), window, ops);
    RunStaysPlain(NewSide(client, limit), window, ops);
    TasksAreCounted(client, limit, window, ops);
  }

  // ----- Resets made -----

  function ResetFrames(fs: seq<Frame>): nat {
    if fs == [] then 0 else (if IsReset(fs[0]) then 1 else 0) + ResetFrames(fs[1..])
  }

  /** Data that may be refused: everything but an empty FIN. */
  predicate Refusable(f: Frame) {
    f.header.typ.Data? && !f.IsEmptyFin()
  }

  lemma {:induction false} ResetFramesAppend(fs: seq<Frame>, f: Frame)
    ensures ResetFrames(fs + [f]) == ResetFrames(fs) + if IsReset(f) then 1 else 0
  {
    if fs == [] {
      assert [f][1..] == [];
    } else {
      assert (fs + [f])[1..] == fs[1..] + [f];
      ResetFramesAppend(fs[1..], f);
    }
  }

  /** One if the step takes a frame that may be refused. */
  function RefusableBy(x: SideState, op: SideOp): nat {
    if op.Arrive? && x.t.reader.Resting? && Refusable(op.frame) then 1 else 0
  }

  function RefusableIn(x: SideState, window: nat, ops: seq<SideOp>): nat
    decreases |ops|
  {
    if ops == [] then 0 else RefusableBy(x, ops[0]) + RefusableIn(StepSide(x, window, ops[0]), window, ops[1..])
  }

  /** The frame the reader holds may still cause one reset, or has just done so. */
  function Owed(r: Reader): nat {
    match r
    case Admitting(f) => if Refusable(f) then 1 else 0
    case Routing(p) => if Refusable(p.frame) then 1 else 0
    case Resetting(_, _) => 1
    case _ => 0
  }

  /** Resets queued, written and still possible. */
  function ResetsOf(x: SideState): nat {
    ResetFrames(x.t.m.sys.queue) + ResetFrames(x.written) + Owed(x.t.reader)
  }

  lemma DispatchOwes(t: TaskState, f: Frame)
    requires Typed(f)
    ensures ResetFrames(Dispatched(t, f).m.sys.queue) == ResetFrames(t.m.sys.queue)
    ensures Owed(Dispatched(t, f).reader) <= if Refusable(f) then 1 else 0
  {
    ResetFramesAppend(t.m.sys.queue, GoAwayFrame(t.last, Protocol, INVALID_FRAME));
  }

  lemma PollOwes(t: TaskState, full: bool)
    requires HeldTyped(t.reader)
    ensures Owed(Polled(t, full).reader) <= Owed(t.reader) && Polled(t, full).m.sys == t.m.sys
  {}

  lemma ReaderResets(x: SideState, window: nat, op: SideOp)
    requires PlainChannels(x) && (op.Arrive? ==> Typed(op.frame))
    requires op.Arrive? || op.AdmitNew? || op.PollAgain? || op.Settle?
    ensures ResetsOf(StepSide(x, window, op)) <= ResetsOf(x) + RefusableBy(x, op)
  {
    var t := x.t;
    match op
    case Arrive(f) => DispatchOwes(t, f);
    case AdmitNew(ok) => if t.reader.Admitting? { DispatchOwes(t, t.reader.frame); }
    case PollAgain(full) => PollOwes(t, full);
    case Settle =>
      if t.reader.Resetting? { ResetFramesAppend(t.m.sys.queue, RstFrame(t.reader.id, t.reader.error)); }
  }

  lemma WriterResets(x: SideState, window: nat, op: SideOp)
    requires PlainChannels(x) && op.WriteOne?
    ensures ResetsOf(StepSide(x, window, op)) <= ResetsOf(x)
  {
    var m := x.t.m;
    assert x.written + [] == x.written;
    if Polls(x, op) {
      PollStaysPlain(m, op.pick);
      var r := PollNextOf(m, Some(op.pick)).0;
      if r.Ready? && r.value.Some? {
        ResetFramesAppend(x.written, r.value.value);
      }
    } else if m.sys.queue != [] {
      ResetFramesAppend(x.written, m.sys.queue[0]);
    }
  }

  lemma StepResets(x: SideState, window: nat, op: SideOp)
    requires PlainChannels(x) && (op.Arrive? ==> Typed(op.frame))
    ensures ResetsOf(StepSide(x, window, op)) <= ResetsOf(x) + RefusableBy(x, op)
  {
    if op.Arrive? || op.AdmitNew? || op.PollAgain? || op.Settle? {
      ReaderResets(x, window, op);
    } else if op.WriteOne? {
      WriterResets(x, window, op);
    }
  }

  lemma {:induction false} RunResets(x: SideState, window: nat, ops: seq<SideOp>)
    requires PlainChannels(x) && AllTyped(ops)
    ensures ResetsOf(RunSide(x, window, ops)) <= ResetsOf(x) + RefusableIn(x, window, ops)
    decreases |ops|
  {
    if ops != [] {
      assert ops[0] in ops;
      StepResets(x, window, ops[0]);
      StepStaysPlain(x, window, ops[0]);
      RunResets(StepSide(x, window, ops[0]), window, ops[1..]);
    }
  }

  /**
   * On valid frames, however many a remote sends: the RST frames a side has queued and written are
   * at most the data frames it has taken that are not empty FINs.
   */
  lemma NoResetStorm(client: bool, limit: nat, window: nat, ops: seq<SideOp>)
    requires AllTyped(ops)
    ensures var x := RunSide(NewSide(client, limit), window, ops);
      ResetFrames(x.t.m.sys.queue) + ResetFrames(x.written) <= RefusableIn(NewSide(client, limit), window, ops)
  {
    RunResets(NewSide(client, limit), window, ops);
  }
}
