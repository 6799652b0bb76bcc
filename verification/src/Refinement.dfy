/**
 * The steps of a side of a session are the operations of its manager, its reader and its writer:
 * the functions the classes in Managers and SessionTasks are proved against.
 */
module Refinement {
  import opened Wrappers
  import opened Frames
  import opened Flows
  import opened StreamOutput
  import opened Managers
  import opened Links
  import opened Sessions
  import opened SessionTasks

  function LineOf(s: Slot): Line
    requires s.entry.Some?
  {
    Line(s.entry.value, s.code, s.inbox)
  }

  function Lines(e: Endpoint): map<StreamID, Line> {
    map id | id in e.slots && e.slots[id].entry.Some? :: LineOf(e.slots[id])
  }

  /** Each task holds the outgoing channel of its stream. */
  predicate TasksMatch(ws: seq<Waiting>, slots: map<StreamID, Slot>) {
    forall i | 0 <= i < |ws| :: ws[i].id in slots && ws[i].outbox == slots[ws[i].id].outbox
  }

  /** `m` is the manager of side `e`. */
  ghost predicate Matches(m: ManagerState, e: Endpoint) {
    && m.streamLimit == e.streamLimit && m.lastLocalId == e.lastLocalId && m.lastRemoteId == e.lastRemoteId
    && m.sentAway == e.sentAway
    && m.sys == Chan(e.sys, false, false)
    && m.lines == Lines(e)
    && (!m.sentAway ==> Agree(m) && TasksMatch(m.waiting, e.slots))
  }

  lemma NewMatches(client: bool, limit: nat)
    ensures Matches(NewManager(limit, client), NewEndpoint(client, limit))
  {
    NewManagerInv(limit, client);
    assert Lines(NewEndpoint(client, limit)) == map[];
  }

  lemma LinesAreLive(e: Endpoint)
    ensures Lines(e).Keys == LiveIds(e)
  {}

  // ----- Opening -----

  lemma NewStreamMatches(m: ManagerState, e: Endpoint, id: StreamID, window: nat, needsSyn: bool, m': ManagerState,
                         e': Endpoint)
    requires Matches(m, e) && id !in m.lines
    requires m' == m.(lines := m.lines[id := Line(NewEntry(window), 0, OPEN_CHAN)],
                      waiting := m.waiting + [Waiting(id, OPEN_CHAN)],
                      lastLocalId := m'.lastLocalId, lastRemoteId := m'.lastRemoteId)
    requires e' == e.(slots := e.slots[id := NewSlot(window, needsSyn)], reader := e'.reader,
                      lastLocalId := m'.lastLocalId, lastRemoteId := m'.lastRemoteId)
    ensures Matches(m', e')
  {
    assert m'.lines == Lines(e');
    if !m.sentAway {
      NewTaskAgreesExactlyWhenFresh(m, id, m');
      forall i | 0 <= i < |m.waiting| ensures m.waiting[i].id != id {
        WaitingHasLine(m, i);
      }
    }
  }

  /** A local open is `create_stream` without an id. */
  lemma OpenIsCreate(m: ManagerState, e: Endpoint, window: nat)
    requires Matches(m, e) && NextLocalId(e.lastLocalId) !in m.lines
    ensures Matches(Create(m, None, window).1, OpenLocal(e, window))
  {
    LinesAreLive(e);
    assert |m.lines| == |m.lines.Keys|;
    if |m.lines| != m.streamLimit {
      NewStreamMatches(m, e, NextLocalId(e.lastLocalId), window, true, Create(m, None, window).1, OpenLocal(e, window));
    }
  }

  // ----- Sending -----

  lemma TwiceInIds(ids: seq<StreamID>, i: nat, j: nat)
    requires i < |ids| && j < |ids| && i != j && ids[i] == ids[j]
    ensures multiset(ids)[ids[i]] >= 2
  {
    var a, b := if i < j then i else j, if i < j then j else i;
    assert ids == ids[..a] + [ids[a]] + ids[a + 1..b] + [ids[b]] + ids[b + 1..];
  }

  /** Where the task of a stream is in the collection; its size, if there is none. */
  function IndexOf(ws: seq<Waiting>, id: StreamID): (i: nat)
    ensures i <= |ws| && (i < |ws| ==> ws[i].id == id)
  {
    if ws == [] || ws[0].id == id then 0 else IndexOf(ws[1..], id) + 1
  }

  lemma {:induction false} IndexFinds(ws: seq<Waiting>, id: StreamID, i: nat)
    requires i < |ws| && ws[i].id == id
    ensures IndexOf(ws, id) < |ws|
  {
    if i > 0 && ws[0].id != id {
      IndexFinds(ws[1..], id, i - 1);
    }
  }

  /** Every stream of the map has exactly one task. */
  lemma TaskOfLine(m: ManagerState, id: StreamID)
    requires Agree(m) && id in m.lines
    ensures IndexOf(m.waiting, id) < |m.waiting|
    ensures forall j | 0 <= j < |m.waiting| && j != IndexOf(m.waiting, id) :: m.waiting[j].id != id
  {
    var ids := WaitingIds(m.waiting);
    assert id in multiset(ids);
    var i :| 0 <= i < |ids| && ids[i] == id;
    IndexFinds(m.waiting, id, i);
    forall j | 0 <= j < |m.waiting| && j != IndexOf(m.waiting, id) ensures m.waiting[j].id != id {
      if m.waiting[j].id == id {
        TwiceInIds(ids, IndexOf(m.waiting, id), j);
      }
    }
  }

  lemma NoTaskWithoutLine(m: ManagerState, id: StreamID)
    requires Agree(m) && id !in m.lines
    ensures IndexOf(m.waiting, id) == |m.waiting|
  {
    if IndexOf(m.waiting, id) < |m.waiting| {
      WaitingHasLine(m, IndexOf(m.waiting, id));
    }
  }

  /** The task at `i` goes back with its channel, or goes away with its stream. */
  lemma EmissionKeepsTasks(ws: seq<Waiting>, slots: map<StreamID, Slot>, i: nat, s: Slot)
    requires TasksMatch(ws, slots) && i < |ws|
    requires forall j | 0 <= j < |ws| && j != i :: ws[j].id != ws[i].id
    ensures TasksMatch(ws[i := Waiting(ws[i].id, s.outbox)], slots[ws[i].id := s])
    ensures TasksMatch(Without(ws, i), slots[ws[i].id := s])
  {
    var rest := Without(ws, i);
    forall j | 0 <= j < |rest| ensures rest[j] == ws[if j < i then j else j + 1] {}
  }

  lemma EmissionLines(m: ManagerState, e: Endpoint, i: nat, id: StreamID, m': ManagerState, e': Endpoint)
    requires m.lines == Lines(e) && !m.sentAway && m.sys.queue == [] && e.sys == [] && !e.sentAway
    requires id in e.slots && CanEmit(e.slots[id])
    requires i < |m.waiting| && m.waiting[i] == Waiting(id, e.slots[id].outbox)
    requires m' == PollNextOf(m, Some(i)).1 && e' == WriteNext(e, id)
    ensures m'.lines == Lines(e')
  {
    assert m.lines[id] == LineOf(e.slots[id]);
  }

  lemma EmissionMatches(m: ManagerState, e: Endpoint, i: nat, id: StreamID, m': ManagerState, e': Endpoint)
    requires Matches(m, e) && !m.sentAway && m.sys.queue == []
    requires i < |m.waiting| && m.waiting[i].id == id && id in e.slots && CanEmit(e.slots[id])
    requires forall j | 0 <= j < |m.waiting| && j != i :: m.waiting[j].id != id
    requires m' == PollNextOf(m, Some(i)).1 && e' == WriteNext(e, id)
    requires Agree(m')
    ensures Matches(m', e')
  {
    EmissionLines(m, e, i, id, m', e');
    EmissionKeepsTasks(m.waiting, e.slots, i, SlotEmit(e.slots[id], id));
    assert m.lines[id] == LineOf(e.slots[id]);
  }

  /** A frame put on the byte stream is what `poll_next` returns, and the manager moves with it. */
  lemma WriteIsPollNext(m: ManagerState, e: Endpoint, id: StreamID, i: nat)
    requires Matches(m, e) && !e.sentAway && e.sys == [] && id in e.slots && CanEmit(e.slots[id])
    requires i == IndexOf(m.waiting, id)
    ensures i < |m.waiting| && m.waiting[i].id == id && m.waiting[i].outbox.HasNext() && id in m.lines
    ensures Matches(PollNextOf(m, Some(i)).1, WriteNext(e, id))
    ensures PollNextOf(m, Some(i)).0 ==
      var f := EmissionOf(e.slots[id], id).frame; if f.Some? then Ready(Some(f.value)) else Pending
  {
    TaskOfLine(m, id);
    assert m.lines[id] == LineOf(e.slots[id]);
    PollKeepsAgree(m, i);
    EmissionMatches(m, e, i, id, PollNextOf(m, Some(i)).1, WriteNext(e, id));
  }

  /** System frames go first, and after a go-away nothing goes out. */
  lemma SystemWriteIsPollNext(m: ManagerState, e: Endpoint, id: StreamID)
    requires Matches(m, e) && (e.sentAway || e.sys != [])
    ensures Matches(PollNextOf(m, None).1, WriteNext(e, id))
    ensures PollNextOf(m, None).0 == Ready(if e.sentAway then None else Some(e.sys[0]))
    ensures WriteNext(e, id).wire == e.wire + if e.sentAway then [] else [e.sys[0]]
  {
    assert Lines(WriteNext(e, id)) == Lines(e);
    assert e.wire + [] == e.wire;
  }

  // ----- Receiving -----

  lemma ChangedLineMatches(m: ManagerState, e: Endpoint, id: StreamID, s: Slot, m': ManagerState, e': Endpoint)
    requires Matches(m, e) && id in m.lines && s.entry.Some? && s.outbox == e.slots[id].outbox
    requires m' == m.(lines := m.lines[id := LineOf(s)])
    requires e' == e.(slots := e.slots[id := s], reader := e'.reader, lastProcessed := e'.lastProcessed)
    ensures Matches(m', e')
  {
    assert m'.lines == Lines(e');
    assert m'.lines.Keys == m.lines.Keys;
  }

  lemma SameLinesMatch(m: ManagerState, e: Endpoint, e': Endpoint)
    requires Matches(m, e)
    requires e' == e.(slots := e'.slots, reader := e'.reader, lastProcessed := e'.lastProcessed)
    requires e'.slots == e.slots
    ensures Matches(m, e')
  {
    assert Lines(e') == Lines(e);
  }

  lemma UnknownIsUnchanged(s: Slot, p: Parcel, full: bool)
    requires s.entry.None?
    ensures SlotDeliver(s, p, full) == s
    ensures Deliver(p, None, s.code, s.inbox, full).poll == Deliver(p, None, 0, OPEN_CHAN, full).poll
    ensures Deliver(p, None, s.code, s.inbox, full).parcel == p
  {
    assert s.delivered + [] == s.delivered;
  }

  lemma SendToStreamMatches(m: ManagerState, e: Endpoint, p: Parcel, full: bool)
    requires Matches(m, e) && e.reader == Routing(p)
    ensures Matches(SendToStream(m, p, full).2, Route(e, full))
  {
    var id := p.frame.header.streamId;
    var s := SlotOf(e, id);
    var e' := Route(e, full);
    if id in m.lines {
      assert m.lines[id] == LineOf(s);
      ChangedLineMatches(m, e, id, SlotDeliver(s, p, full), SendToStream(m, p, full).2, e');
    } else {
      assert s.entry.None?;
      UnknownIsUnchanged(s, p, full);
      assert e'.slots == e.slots;
      SameLinesMatch(m, e, e');
    }
  }

  lemma SendersClosedMatches(m: ManagerState, e: Endpoint)
    requires Matches(m, e)
    ensures Matches(SendersClosed(m), EndReader(e))
  {
    assert SendersClosed(m).lines == Lines(EndReader(e));
    assert SendersClosed(m).lines.Keys == m.lines.Keys;
  }

  lemma GoneAwayMatches(m: ManagerState, e: Endpoint)
    requires Matches(m, e)
    ensures Matches(GoneAway(m), HandleGoAway(e)) && SendersClosed(GoneAway(m)) == GoneAway(m)
  {
    assert Lines(HandleGoAway(e)) == map[];
  }

  // ----- The reader, step by step -----

  /** `t` is the manager and the reader of side `e`. */
  ghost predicate Tracks(t: TaskState, e: Endpoint) {
    Matches(t.m, e) && t.reader == e.reader && t.last == e.lastProcessed
  }

  /** The reader moves on, and may add a system frame; the streams stay as they are. */
  lemma QuietStepMatches(m: ManagerState, e: Endpoint, added: Option<Frame>, e': Endpoint)
    requires Matches(m, e)
    requires e' == e.(sys := e'.sys, reader := e'.reader)
    requires e'.sys == if added.Some? then e.sys + [added.value] else e.sys
    ensures Matches(if added.Some? then m.(sys := m.sys.Push(added.value)) else m, e')
  {
    assert Lines(e') == Lines(e);
  }

  lemma DispatchIsDispatched(t: TaskState, e: Endpoint, f: Frame)
    requires Tracks(t, e)
    ensures Tracks(Dispatched(t, f), Dispatch(e, f))
  {
    match f.header.typ
    case GoAway =>
      if f.body.GoAway? {
        GoneAwayMatches(t.m, e);
      } else {
        QuietStepMatches(t.m, e, None, Dispatch(e, f));
      }
    case Invalid(_) =>
      QuietStepMatches(t.m, e, Some(GoAwayFrame(t.last, Protocol, INVALID_FRAME)), Dispatch(e, f));
    case _ => QuietStepMatches(t.m, e, None, Dispatch(e, f));
  }

  /** A frame taken off the byte stream; the id of a SYN must not be in use. */
  lemma TakingIsTook(t: TaskState, e: Endpoint, peer: Endpoint, window: nat)
    requires Tracks(t, e) && e.reader == Resting && peer.wire != []
    requires peer.wire[0].IsSyn() ==> peer.wire[0].header.streamId !in t.m.lines
    ensures Tracks(Took(t, peer.wire[0], window), TakeNext(e, peer, window).0)
  {
    var f, m := peer.wire[0], t.m;
    var id := f.header.streamId;
    LinesAreLive(e);
    assert |m.lines| == |m.lines.Keys|;
    if !f.IsSyn() {
      DispatchIsDispatched(t, e, f);
    } else if |m.lines| != m.streamLimit {
      NewStreamMatches(m, e, id, window, false, Create(m, Some(id), window).1, TakeNext(e, peer, window).0);
    } else {
      SendersClosedMatches(m, e);
    }
  }

  /** When the accept queue is gone it has dropped the stream before the reader goes on. */
  lemma AdmissionIsAdmitted(t: TaskState, e: Endpoint, ok: bool)
    requires e.reader.Admitting?
    requires var id := e.reader.frame.header.streamId;
      id in e.slots && Tracks(t, if ok then e else e.(slots := e.slots[id := SlotDrop(e.slots[id])]))
    ensures Tracks(Admitted(t, ok), Admit(e, ok))
  {
    var id := e.reader.frame.header.streamId;
    if ok {
      DispatchIsDispatched(t, e, e.reader.frame);
    } else {
      SendersClosedMatches(t.m, e.(slots := e.slots[id := SlotDrop(e.slots[id])]));
    }
  }

  lemma RouteIsPolled(t: TaskState, e: Endpoint, full: bool)
    requires Tracks(t, e) && e.reader.Routing?
    ensures Tracks(Polled(t, full), Route(e, full))
  {
    var p := e.reader.parcel;
    var id := p.frame.header.streamId;
    var s := SlotOf(e, id);
    SendToStreamMatches(t.m, e, p, full);
    if id in t.m.lines {
      assert t.m.lines[id] == LineOf(s);
    } else {
      UnknownIsUnchanged(s, p, full);
    }
  }

  lemma ConcludeIsConcluded(t: TaskState, e: Endpoint)
    requires Tracks(t, e)
    ensures Tracks(Concluded(t), Conclude(e))
  {
    match e.reader
    case Finishing(id) =>
      if id in t.m.lines {
        ChangedLineMatches(t.m, e, id, SlotWriteClosed(e.slots[id]), WriteClosed(t.m, id), Conclude(e));
      } else {
        assert Conclude(e).slots == e.slots;
        SameLinesMatch(t.m, e, Conclude(e));
      }
    case Resetting(id, error) => QuietStepMatches(t.m, e, Some(RstFrame(id, error)), Conclude(e));
    case _ =>
  }
}
