/**
 * The stream manager (muxado/src/stream_manager.rs): one handle per live stream, one task per
 * stream waiting for its outgoing frames, and the delivery of incoming frames to streams.
 */
module Managers {
  import opened Wrappers
  import opened Frames
  import opened Flows
  import opened StreamOutput
  import Streams

  // ----- What the manager does to one stream, on values -----

  /** The part of a `StreamHandle` that belongs to the manager alone. */
  datatype Entry = Entry(window: nat, needsFin: bool, dataWriteClosed: bool) {
    /** A reset, sent or received: no more data is accepted and no FIN will be generated. */
    function Reset(): Entry { this.(dataWriteClosed := true, needsFin := false) }
  }

  function NewEntry(window: nat): Entry {
    Entry(window, true, false)
  }

  /** The outcome of taking the next item of a stream's task; no entry means the stream is removed. */
  datatype Emission = Emission(frame: Option<Frame>, entry: Option<Entry>, outbox: Chan)

  /** `poll_next` once the task of stream `id` is ready. */
  function Emit(id: StreamID, e: Entry, code: U32, outbox: Chan): Emission
    requires outbox.HasNext()
  {
    if code != 0 && !e.needsFin then Emission(None, None, outbox.DropReceiver())
    else if outbox.queue != [] then
      var f := outbox.queue[0];
      var e1 := e.(window := e.window + f.Credit(), needsFin := e.needsFin && !f.IsFin());
      Emission(Some(f.WithId(id)), Some(e1), outbox.Pop())
    else
      Emission(if e.needsFin then Some(FinFrame().WithId(id)) else None, None, outbox.DropReceiver())
  }

  /** A frame being delivered, with the part of its size not yet taken off the stream's window. */
  datatype Parcel = Parcel(frame: Frame, shrink: nat)

  function NewParcel(f: Frame): Parcel {
    Parcel(f, |f.Payload()|)
  }

  /** Frames `send_to_stream` is willing to route at all. */
  predicate Routable(f: Frame) {
    !f.body.GoAway? && !f.body.Invalid?
  }

  /** The state of one delivery and of the stream it concerns, after polling the delivery once. */
  datatype Delivery = Delivery(
    poll: Poll<Result<(), Error>>,
    parcel: Parcel,
    entry: Option<Entry>,
    code: U32,
    inbox: Chan)

  /** The closure of `send_to_stream`, for a stream the manager knows. */
  function Attempt(p: Parcel, e: Entry, code: U32, inbox: Chan, full: bool): Delivery {
    if p.frame.header.typ.Data? && e.dataWriteClosed then
      Delivery(Ready(Err(StreamClosed)), p, Some(e), code, inbox)
    else if p.frame.body.Rst? then
      Delivery(Ready(Ok(())), p, Some(e.Reset()), CloseCode(code, p.frame.body.error), inbox)
    else if p.shrink > e.window then
      Delivery(Ready(Err(FlowControl)), p, Some(e), code, inbox)
    else
      var e1 := e.(window := e.window - p.shrink);
      var p1 := p.(shrink := 0);
      if inbox.Disconnected() then
        Delivery(Ready(if p.frame.IsEmptyFin() then Ok(()) else Err(StreamClosed)), p1, Some(e1), code, inbox)
      else if full then Delivery(Pending, p1, Some(e1), code, inbox)
      else Delivery(Ready(Ok(())), p1, Some(e1), code, inbox.Push(p.frame))
  }

  /** One poll of `send_to_stream`. */
  function Deliver(p: Parcel, entry: Option<Entry>, code: U32, inbox: Chan, full: bool): (r: Delivery)
    // Only data is ever refused, and never an empty FIN.
    ensures r.poll.Ready? && r.poll.value.Err? ==> p.frame.header.typ.Data? && !p.frame.IsEmptyFin()
    // A refusal leaves a closed stream behind.
    ensures r.poll.Ready? && r.poll.value.Err? && r.entry.Some? ==>
      r.code != 0 && r.entry.value.dataWriteClosed && !r.entry.value.needsFin
    ensures r.parcel.frame == p.frame && (entry.None? <==> r.entry.None?)
  {
    if entry.None? then
      var ok := !p.frame.header.typ.Data? || p.frame.IsEmptyFin();
      Delivery(Ready(if ok then Ok(()) else Err(StreamClosed)), p, entry, code, inbox)
    else
      var r := Attempt(p, entry.value, code, inbox, full);
      if r.poll.Pending? then r
      else if p.frame.header.typ.Data? && !p.frame.IsEmptyFin() then
        if r.poll.value.Err? then
          r.(code := CloseCode(r.code, StreamClosed), entry := Some(r.entry.value.Reset()))
        else r
      else r.(poll := Ready(Ok(())))
  }

  /**
   * What a poll of a delivery means for a stream of the map. Accepted data has been taken off the
   * window and put at the end of the channel. A poll only waits on a full channel, with the frame
   * already taken off the window. Data is refused when no more may come, when it exceeds the window,
   * or when nobody listens; it never enters the channel, and the stream is closed. A reset closes the
   * sink with its code.
   */
  lemma DeliverMeaning(p: Parcel, e: Entry, code: U32, inbox: Chan, full: bool)
    requires p.frame.header.typ == p.frame.body.Type()
    ensures var d := Deliver(p, Some(e), code, inbox, full);
      var data := p.frame.body.Data? && !p.frame.IsEmptyFin();
      match d.poll
      case Pending =>
        full && d.inbox == inbox && d.code == code && d.parcel.shrink == 0
        && d.entry == Some(e.(window := d.entry.value.window)) && d.entry.value.window + p.shrink == e.window
      case Ready(Ok(_)) =>
        if data then
          !e.dataWriteClosed && !inbox.Disconnected() && d.inbox == inbox.Push(p.frame) && d.code == code
          && d.entry == Some(e.(window := d.entry.value.window)) && d.entry.value.window + p.shrink == e.window
        else if p.frame.body.Rst? then
          d.inbox == inbox && d.code == CloseCode(code, p.frame.body.error) && d.entry == Some(e.Reset())
        else d.code == code
      case Ready(Err(error)) =>
        data && d.inbox == inbox && d.code == CloseCode(code, StreamClosed)
        && d.entry.value.dataWriteClosed && !d.entry.value.needsFin
        && (error == FlowControl <==> !e.dataWriteClosed && p.shrink > e.window)
        && (error == StreamClosed <==> e.dataWriteClosed || (p.shrink <= e.window && inbox.Disconnected()))
        && (error == FlowControl || error == StreamClosed)
  {}

  /** The next locally assigned id: two above the last one, clamped to the id space. */
  function NextLocalId(last: StreamID): (id: StreamID)
    ensures last + 2 <= STREAMID_MAX ==> id == last + 2
    ensures last + 2 > STREAMID_MAX ==> id == STREAMID_MAX
  {
    Clamp(last + 2, STREAMID_MAX)
  }

  function InitialLocalId(client: bool): StreamID {
    if client then 1 else 0
  }

  function InitialRemoteId(client: bool): StreamID {
    if client then 0 else 1
  }

  // ----- Id allocation -----

  function LocalIdAfter(client: bool, opens: nat): StreamID {
    if opens == 0 then InitialLocalId(client) else NextLocalId(LocalIdAfter(client, opens - 1))
  }

  const MAX_OPENS: nat := 0x3FFF_FFFF

  /**
   * The ids handed out are initial + 2k exactly for the first 2^30 - 1 opens; afterwards the clamp
   * hands out the largest id again and again.
   */
  lemma {:induction false} LocalIds(client: bool, opens: nat)
    ensures opens <= MAX_OPENS ==> LocalIdAfter(client, opens) == InitialLocalId(client) + 2 * opens
    ensures opens > MAX_OPENS ==> LocalIdAfter(client, opens) == STREAMID_MAX
  {
    if opens > 0 {
      LocalIds(client, opens - 1);
    }
  }

  /** Within that many opens, ids are non-zero, new each time, and never those of the other side. */
  lemma LocalIdsDistinct(j: nat, k: nat, client: bool)
    requires 0 < j <= MAX_OPENS && 0 < k <= MAX_OPENS
    ensures LocalIdAfter(client, j) != 0
    ensures LocalIdAfter(client, j) == LocalIdAfter(client, k) <==> j == k
    ensures LocalIdAfter(client, j) != LocalIdAfter(!client, k)
  {
    LocalIds(client, j);
    LocalIds(client, k);
    LocalIds(!client, k);
  }

  /** The bound is tight: one more open repeats an id on a client, and takes a client's on a server. */
  lemma IdSpaceExhausted()
    ensures LocalIdAfter(true, MAX_OPENS + 1) == LocalIdAfter(true, MAX_OPENS)
    ensures LocalIdAfter(false, MAX_OPENS + 1) == LocalIdAfter(true, MAX_OPENS)
  {
    LocalIds(true, MAX_OPENS);
    LocalIds(true, MAX_OPENS + 1);
    LocalIds(false, MAX_OPENS + 1);
  }

  // ----- The whole manager, on values -----

  /** One stream of the map: the manager's own fields, the close code, the channel to the stream. */
  datatype Line = Line(entry: Entry, code: U32, inbox: Chan)

  /** One element of the task collection: frames of stream `id` on their way out. */
  datatype Waiting = Waiting(id: StreamID, outbox: Chan)

  datatype ManagerState = ManagerState(
    streamLimit: nat,
    lines: map<StreamID, Line>,
    waiting: seq<Waiting>,
    sys: Chan,
    lastLocalId: StreamID,
    lastRemoteId: StreamID,
    sentAway: bool)

  function NewManager(streamLimit: nat, client: bool): ManagerState {
    ManagerState(streamLimit, map[], [], OPEN_CHAN, InitialLocalId(client), InitialRemoteId(client), false)
  }

  /** `create_stream` for a request with new channels. */
  function Create(m: ManagerState, id: Option<StreamID>, window: nat): (Result<StreamID, Error>, ManagerState) {
    if |m.lines| == m.streamLimit then (Err(StreamsExhausted), m)
    else
      var sid := if id.Some? then id.value else NextLocalId(m.lastLocalId);
      (Ok(sid), m.(
        lines := m.lines[sid := Line(NewEntry(window), 0, OPEN_CHAN)],
        waiting := m.waiting + [Waiting(sid, OPEN_CHAN)],
        lastLocalId := if id.Some? then m.lastLocalId else sid,
        lastRemoteId := if id.Some? then sid else m.lastRemoteId))
  }

  function Without<T>(s: seq<T>, i: nat): seq<T>
    requires i < |s|
  {
    s[..i] + s[i + 1..]
  }

  /** What the task collection may yield: a ready task, or nothing when none is ready. */
  ghost predicate CanPick(m: ManagerState, pick: Option<nat>) {
    match pick
    case Some(i) => i < |m.waiting| && m.waiting[i].outbox.HasNext()
    case None => forall w | w in m.waiting :: !w.outbox.HasNext()
  }

  /** `poll_next`: system frames first, then the task picked by the task collection. */
  function PollNextOf(m: ManagerState, pick: Option<nat>): (Poll<Option<Frame>>, ManagerState)
    requires pick.Some? ==> pick.value < |m.waiting| && m.waiting[pick.value].outbox.HasNext()
    requires pick.Some? && !m.sentAway ==> m.waiting[pick.value].id in m.lines
  {
    if m.sentAway then (Ready(None), m)
    else if m.sys.queue != [] then (Ready(Some(m.sys.queue[0])), m.(sys := m.sys.Pop()))
    else if pick.None? then (Pending, m)
    else
      var w := m.waiting[pick.value];
      var line := m.lines[w.id];
      var e := Emit(w.id, line.entry, line.code, w.outbox);
      (if e.frame.Some? then Ready(Some(e.frame.value)) else Pending,
       if e.entry.Some? then
         // the collection is unordered: a task put back may as well stay in its place
         m.(lines := m.lines[w.id := line.(entry := e.entry.value)],
            waiting := m.waiting[pick.value := Waiting(w.id, e.outbox)])
       else
         m.(lines := m.lines - {w.id}, waiting := Without(m.waiting, pick.value)))
  }

  /** The close code of a stream whose remote has gone away. */
  function GoneCode(code: U32): U32 {
    CloseCode(code, RemoteGoneAway)
  }

  /** `go_away`: every stream is dropped from the map and its sink closed. */
  function GoneAway(m: ManagerState): ManagerState {
    m.(lines := map[], sentAway := true)
  }

  /** The reader's last step after a frame with FIN: the remote will write no more. */
  function WriteClosed(m: ManagerState, id: StreamID): ManagerState {
    if id in m.lines then
      m.(lines := m.lines[id := m.lines[id].(entry := m.lines[id].entry.(dataWriteClosed := true))])
    else m
  }

  /** `close_senders`. */
  function SendersClosed(m: ManagerState): ManagerState {
    m.(lines := map k | k in m.lines :: m.lines[k].(inbox := m.lines[k].inbox.CloseSender()))
  }

  /** One poll of `send_to_stream`. */
  function SendToStream(m: ManagerState, p: Parcel, full: bool): (Poll<Result<(), Error>>, Parcel, ManagerState) {
    var id := p.frame.header.streamId;
    if id in m.lines then
      var line := m.lines[id];
      var d := Deliver(p, Some(line.entry), line.code, line.inbox, full);
      (d.poll, d.parcel, m.(lines := m.lines[id := Line(d.entry.value, d.code, d.inbox)]))
    else
      var d := Deliver(p, None, 0, OPEN_CHAN, full);
      (d.poll, d.parcel, m)
  }

  // ----- Invariants of the manager -----

  function WaitingIds(ws: seq<Waiting>): seq<StreamID> {
    seq(|ws|, i requires 0 <= i < |ws| => ws[i].id)
  }

  /** The ids of the tasks are exactly the keys of the map, each once. */
  ghost predicate Agree(m: ManagerState) {
    multiset(WaitingIds(m.waiting)) == multiset(m.lines.Keys)
  }

  /** A closed sink never still needs a FIN. */
  ghost predicate ClosedNeedsNoFin(m: ManagerState) {
    forall id | id in m.lines :: m.lines[id].code != 0 ==>
      !m.lines[id].entry.needsFin && m.lines[id].entry.dataWriteClosed
  }

  /** Streams are only ever sent data and credit. */
  ghost predicate OnlyStreamFrames(m: ManagerState) {
    forall id | id in m.lines :: AllStreamFrames(m.lines[id].inbox.queue)
  }

  ghost predicate WithinLimit(m: ManagerState) {
    |m.lines| <= m.streamLimit
  }

  ghost predicate ManagerInv(m: ManagerState) {
    && WithinLimit(m) && ClosedNeedsNoFin(m) && OnlyStreamFrames(m)
    && (!m.sentAway ==> Agree(m))
  }

  lemma WaitingHasLine(m: ManagerState, i: nat)
    requires Agree(m) && i < |m.waiting|
    ensures m.waiting[i].id in m.lines
  {
    assert WaitingIds(m.waiting)[i] in multiset(WaitingIds(m.waiting));
  }

  lemma NewManagerInv(streamLimit: nat, client: bool)
    ensures ManagerInv(NewManager(streamLimit, client))
  {
    assert WaitingIds([]) == [];
    var none: set<StreamID> := {};
    assert NewManager(streamLimit, client).lines.Keys == none;
  }

  lemma NewTaskAgreesExactlyWhenFresh(m: ManagerState, id: StreamID, m': ManagerState)
    requires Agree(m)
    requires m'.lines.Keys == m.lines.Keys + {id} && m'.waiting == m.waiting + [Waiting(id, OPEN_CHAN)]
    ensures Agree(m') <==> id !in m.lines
  {
    assert WaitingIds(m'.waiting) == WaitingIds(m.waiting) + [id];
    assert multiset(WaitingIds(m'.waiting))[id] == multiset(m.lines.Keys)[id] + 1;
  }

  /**
   * Opening a stream fails exactly at the limit. It keeps tasks and map in agreement exactly when
   * the id was not in use: a remote id is taken as it comes.
   */
  lemma CreateKeepsAgreementExactlyWhenFresh(m: ManagerState, id: Option<StreamID>, window: nat)
    requires ManagerInv(m)
    ensures var (r, m') := Create(m, id, window);
      && (r.Err? <==> |m.lines| == m.streamLimit)
      && (r.Err? ==> m' == m)
      && WithinLimit(m') && ClosedNeedsNoFin(m') && OnlyStreamFrames(m')
      && (r.Ok? && !m.sentAway ==> (Agree(m') <==> r.value !in m.lines))
  {
    var (r, m') := Create(m, id, window);
    if r.Ok? {
      assert m'.lines.Keys == m.lines.Keys + {r.value};
      if !m.sentAway {
        NewTaskAgreesExactlyWhenFresh(m, r.value, m');
      }
    }
  }

  lemma WithoutIds(ws: seq<Waiting>, i: nat)
    requires i < |ws|
    ensures multiset(WaitingIds(ws)) == multiset(WaitingIds(Without(ws, i))) + multiset{ws[i].id}
  {
    var ids := WaitingIds(ws);
    assert ids == ids[..i] + [ids[i]] + ids[i + 1..];
    assert WaitingIds(Without(ws, i)) == ids[..i] + ids[i + 1..];
  }

  lemma FewerLines(m: ManagerState, i: nat, m': ManagerState)
    requires i < |m.waiting| && m.waiting[i].id in m.lines
    requires m'.lines.Keys == m.lines.Keys || m'.lines.Keys == m.lines.Keys - {m.waiting[i].id}
    ensures |m'.lines| <= |m.lines|
  {
    assert |m.lines| == |m.lines.Keys| && |m'.lines| == |m'.lines.Keys|;
  }

  lemma PollKeepsAgree(m: ManagerState, i: nat)
    requires Agree(m) && !m.sentAway && i < |m.waiting| && m.waiting[i].outbox.HasNext()
    requires m.waiting[i].id in m.lines
    ensures Agree(PollNextOf(m, Some(i)).1)
  {
    var m' := PollNextOf(m, Some(i)).1;
    var id := m.waiting[i].id;
    WithoutIds(m.waiting, i);
    if m.sys.queue == [] {
      if id in m'.lines {
        assert m'.lines.Keys == m.lines.Keys;
        assert WaitingIds(m'.waiting) == WaitingIds(m.waiting);
      } else {
        assert m'.lines.Keys == m.lines.Keys - {id};
        assert multiset(m'.lines.Keys) == multiset(m.lines.Keys) - multiset{id};
      }
    }
  }

  /** `poll_next` keeps every invariant, so it never meets a task without a handle. */
  lemma PollNextKeepsInv(m: ManagerState, pick: Option<nat>)
    requires ManagerInv(m) && CanPick(m, pick)
    ensures pick.Some? && !m.sentAway ==> m.waiting[pick.value].id in m.lines
    ensures ManagerInv(PollNextOf(m, pick).1)
  {
    if !m.sentAway && pick.Some? {
      WaitingHasLine(m, pick.value);
      PollKeepsAgree(m, pick.value);
      if m.sys.queue == [] {
        FewerLines(m, pick.value, PollNextOf(m, pick).1);
      }
    }
  }

  /** A stream with a close code is silent: its next item is swallowed and it leaves the map. */
  lemma ClosedStreamIsSilent(m: ManagerState, i: nat)
    requires ManagerInv(m) && CanPick(m, Some(i)) && !m.sentAway && m.sys.queue == []
    requires m.waiting[i].id in m.lines && m.lines[m.waiting[i].id].code != 0
    ensures PollNextOf(m, Some(i)).0 == Pending
    ensures PollNextOf(m, Some(i)).1.lines == m.lines - {m.waiting[i].id}
  {}

  /** A frame as the codec hands it out: header and body agree. */
  predicate Typed(f: Frame) {
    f.header.typ == f.body.Type()
  }

  lemma LineKeeps(p: Parcel, line: Line, full: bool)
    requires Routable(p.frame) && Typed(p.frame) && AllStreamFrames(line.inbox.queue)
    requires line.code != 0 ==> !line.entry.needsFin && line.entry.dataWriteClosed
    ensures var d := Deliver(p, Some(line.entry), line.code, line.inbox, full);
      && AllStreamFrames(d.inbox.queue)
      && (d.code != 0 ==> !d.entry.value.needsFin && d.entry.value.dataWriteClosed)
  {}

  lemma SendToStreamKeepsInv(m: ManagerState, p: Parcel, full: bool)
    requires ManagerInv(m) && Routable(p.frame) && Typed(p.frame)
    ensures ManagerInv(SendToStream(m, p, full).2)
    ensures SendToStream(m, p, full).2.lines.Keys == m.lines.Keys
  {
    var id := p.frame.header.streamId;
    if id in m.lines {
      LineKeeps(p, m.lines[id], full);
      assert SendToStream(m, p, full).2.lines.Keys == m.lines.Keys;
    }
  }

  /** After a go-away nothing is ever sent again, whatever is opened or delivered meanwhile. */
  lemma GoneAwayForGood(m: ManagerState, pick: Option<nat>)
    requires ManagerInv(m) && CanPick(m, pick)
    ensures ManagerInv(GoneAway(m)) && PollNextOf(GoneAway(m), pick) == (Ready(None), GoneAway(m))
    ensures forall id, window :: Create(GoneAway(m), id, window).1.sentAway
    ensures forall p, full :: SendToStream(GoneAway(m), p, full).2 == GoneAway(m)
  {}

  // ----- The manager object -----

  datatype StreamHandle = StreamHandle(
    toStream: Channel,
    sinkCloser: SinkCloser,
    needsFin: bool,
    dataWriteClosed: bool,
    window: nat)
  {
    function State(): Entry { Entry(window, needsFin, dataWriteClosed) }
  }

  datatype Task = Task(id: StreamID, recv: Channel)

  /** What a request to open a stream brings: both channels, the close code, the window. */
  datatype OpenReq = OpenReq(toStream: Channel, fromStream: Channel, closer: SinkCloser, window: nat)

  /** `OpenReq::create`: a stream and the request for its handle, joined by two new channels. */
  method NewOpenReq(window: nat, needsSyn: bool) returns (req: OpenReq, stream: Streams.Stream)
    ensures stream.Valid() && fresh(stream) && fresh(stream.window)
    ensures fresh(req.toStream) && fresh(req.fromStream) && fresh(req.closer)
    ensures req.window == window && req.toStream != req.fromStream
    ensures stream.fin == req.toStream && stream.fout.sink == req.fromStream && stream.fout.closer == req.closer
    ensures stream.View() ==
      Streams.StreamState(Streams.NewApp(window, needsSyn), 0, OPEN_CHAN, OPEN_CHAN)
  {
    var toStream := new Channel();
    var fromStream := new Channel();
    var sender := new StreamSender(fromStream);
    req := OpenReq(toStream, fromStream, sender.closer, window);
    stream := new Streams.Stream(sender, toStream, window, needsSyn);
  }

  type Handles = map<StreamID, StreamHandle>

  /** No two streams share a channel or a close code. */
  ghost predicate Separate(streams: Handles, tasks: seq<Task>, sys: Channel?) {
    && (forall i, j {:trigger tasks[i].recv, tasks[j].recv} | 0 <= i < j < |tasks| :: tasks[i].recv != tasks[j].recv)
    && (forall a, b {:trigger streams[a].toStream, streams[b].toStream} | a in streams && b in streams && a != b ::
          streams[a].toStream != streams[b].toStream)
    && (forall a, b {:trigger streams[a].sinkCloser, streams[b].sinkCloser} | a in streams && b in streams && a != b ::
          streams[a].sinkCloser != streams[b].sinkCloser)
    && (forall a, i {:trigger streams[a].toStream, tasks[i].recv} | a in streams && 0 <= i < |tasks| ::
          streams[a].toStream != tasks[i].recv)
    && (forall a {:trigger streams[a].toStream} | a in streams :: streams[a].toStream != sys)
    && (forall i {:trigger tasks[i].recv} | 0 <= i < |tasks| :: tasks[i].recv != sys)
  }

  /** Everything the manager shares with its streams is in `repr`. */
  ghost predicate Within(streams: Handles, tasks: seq<Task>, repr: set<object>) {
    && (forall k {:trigger streams[k].toStream} {:trigger streams[k].sinkCloser} | k in streams ::
          streams[k].toStream in repr && streams[k].sinkCloser in repr)
    && (forall i | 0 <= i < |tasks| :: tasks[i].recv in repr)
  }

  /** The channels and the close code of a request are not in use yet. */
  ghost predicate Unused(req: OpenReq, streams: Handles, tasks: seq<Task>, sys: Channel) {
    && req.toStream != req.fromStream && req.toStream != sys && req.fromStream != sys
    && (forall a | a in streams :: streams[a].toStream != req.toStream
          && streams[a].toStream != req.fromStream && streams[a].sinkCloser != req.closer)
    && (forall i | 0 <= i < |tasks| :: tasks[i].recv != req.toStream && tasks[i].recv != req.fromStream)
  }

  lemma WithoutSeparates(streams: Handles, tasks: seq<Task>, sys: Channel, i: nat)
    requires i < |tasks| && Separate(streams, tasks, sys)
    ensures Separate(streams, Without(tasks, i), sys)
    ensures forall j | 0 <= j < |tasks| - 1 :: Without(tasks, i)[j] == tasks[if j < i then j else j + 1]
    ensures forall j | 0 <= j < |tasks| - 1 :: Without(tasks, i)[j].recv != tasks[i].recv
  {
    var tasks' := Without(tasks, i);
    forall j | 0 <= j < |tasks'|
      ensures tasks'[j] == tasks[if j < i then j else j + 1]
    {}
  }

  /** `lines` is what the handles and the channels and codes they refer to hold. */
  ghost predicate ShowsLines(lines: map<StreamID, Line>, streams: Handles, repr: set<object>)
    requires Within(streams, [], repr)
    reads repr
  {
    && lines.Keys == streams.Keys
    && (forall k {:trigger lines[k]} | k in streams :: lines[k] ==
          Line(streams[k].State(), streams[k].sinkCloser.code, streams[k].toStream.View()))
  }

  /** `waiting` is what the tasks hold. */
  ghost predicate ShowsTasks(waiting: seq<Waiting>, tasks: seq<Task>, repr: set<object>)
    requires Within(map[], tasks, repr)
    reads repr
  {
    && |waiting| == |tasks|
    && (forall i | 0 <= i < |tasks| :: waiting[i] == Waiting(tasks[i].id, tasks[i].recv.View()))
  }

  lemma WithoutUpdated<T>(s: seq<T>, i: nat, x: T)
    requires i < |s|
    ensures Without(s[i := x], i) == Without(s, i)
  {}

  /** `close_senders` half way: the streams in `left` are still to be closed. */
  ghost function PartlyClosed(m: ManagerState, left: set<StreamID>): ManagerState {
    m.(lines := map k | k in m.lines ::
      if k in left then m.lines[k] else m.lines[k].(inbox := m.lines[k].inbox.CloseSender()))
  }

  lemma PartlyClosedStep(m: ManagerState, left: set<StreamID>, id: StreamID)
    requires id in left && left <= m.lines.Keys
    ensures var now := PartlyClosed(m, left);
      now.(lines := now.lines[id := now.lines[id].(inbox := now.lines[id].inbox.CloseSender())])
        == PartlyClosed(m, left - {id})
  {}

  lemma PartlyClosedEnds(m: ManagerState)
    ensures PartlyClosed(m, m.lines.Keys) == m && PartlyClosed(m, {}) == SendersClosed(m)
  {
    assert PartlyClosed(m, m.lines.Keys).lines == m.lines;
  }

  lemma UpdatedTwice(lines: map<StreamID, Line>, id: StreamID, a: Line, b: Line)
    ensures lines[id := a][id := b] == lines[id := b]
  {}

  lemma MinusUpdated(lines: map<StreamID, Line>, id: StreamID, l: Line)
    ensures lines[id := l] - {id} == lines - {id}
  {}

  /** What dropping handle `h` on a go-away leaves of a stream that was `line`. */
  ghost predicate Drained(h: StreamHandle, line: Line)
    reads h.sinkCloser, h.toStream
  {
    && h.sinkCloser.code == GoneCode(line.code) != 0
    && h.toStream.View() == line.inbox.CloseSender()
  }

  method DropHandle(handle: StreamHandle, ghost line: Line)
    requires handle.sinkCloser.code == line.code && handle.toStream.View() == line.inbox
    modifies handle.sinkCloser, handle.toStream
    ensures Drained(handle, line)
  {
    handle.sinkCloser.CloseWith(RemoteGoneAway);
    handle.toStream.CloseSender();
  }

  /** Drops a drained set of handles one by one. */
  method CloseHandles(handles: Handles, ghost lines: map<StreamID, Line>)
    requires Separate(handles, [], null)
    requires handles.Keys <= lines.Keys
    requires forall k | k in handles ::
      handles[k].sinkCloser.code == lines[k].code && handles[k].toStream.View() == lines[k].inbox
    modifies (set k | k in handles :: handles[k].sinkCloser), (set k | k in handles :: handles[k].toStream)
    ensures forall k | k in handles :: Drained(handles[k], lines[k])
  {
    var left := handles.Keys;
    while left != {}
      invariant left <= handles.Keys
      invariant forall k {:trigger handles[k]} | k in handles && k !in left :: Drained(handles[k], lines[k])
      invariant forall k {:trigger handles[k]} | k in left ::
        handles[k].sinkCloser.code == lines[k].code && handles[k].toStream.View() == lines[k].inbox
    {
      var id :| id in left;
      DropHandle(handles[id], lines[id]);
      left := left - {id};
    }
  }

  class StreamManager {
    const streamLimit: nat
    var streams: Handles
    const sys: Channel
    var tasks: seq<Task>
    var lastLocalId: StreamID
    var lastRemoteId: StreamID
    var sentAway: bool
    ghost var repr: set<object>

    /** `m` is the state of the manager, with everything its channels and close codes hold. */
    ghost predicate Shows(m: ManagerState)
      reads this, repr
    {
      && Within(streams, tasks, repr) && sys in repr && this !in repr
      && Separate(streams, tasks, sys)
      && ShowsLines(m.lines, streams, repr)
      && ShowsTasks(m.waiting, tasks, repr)
      && m == ManagerState(streamLimit, m.lines, m.waiting, sys.View(), lastLocalId, lastRemoteId, sentAway)
    }

    constructor (streamLimit: nat, client: bool)
      ensures Shows(NewManager(streamLimit, client)) && fresh(sys) && streams == map[] && tasks == []
    {
      this.streamLimit := streamLimit;
      streams := map[];
      sys := new Channel();
      tasks := [];
      lastLocalId := InitialLocalId(client);
      lastRemoteId := InitialRemoteId(client);
      sentAway := false;
      repr := {sys};
    }

    method CloseInbox(id: StreamID, ghost m: ManagerState)
      requires Shows(m) && id in m.lines
      modifies streams[id].toStream
      ensures Shows(m.(lines := m.lines[id := m.lines[id].(inbox := m.lines[id].inbox.CloseSender())]))
    {
      streams[id].toStream.CloseSender();
    }

    method CloseSink(id: StreamID, e: Error, ghost m: ManagerState)
      requires Shows(m) && id in m.lines
      modifies streams[id].sinkCloser
      ensures Shows(m.(lines := m.lines[id := m.lines[id].(code := CloseCode(m.lines[id].code, e))]))
    {
      streams[id].sinkCloser.CloseWith(e);
    }

    method PopTask(i: nat, ghost m: ManagerState) returns (item: Option<Frame>)
      requires Shows(m) && i < |m.waiting| && m.waiting[i].outbox.HasNext()
      modifies tasks[i].recv
      ensures var w := m.waiting[i];
        item == (if w.outbox.queue != [] then Some(w.outbox.queue[0]) else None)
      ensures var w := m.waiting[i];
        Shows(m.(waiting := m.waiting[i := if w.outbox.queue != [] then w.(outbox := w.outbox.Pop()) else w]))
    {
      var r := tasks[i].recv.PollNext();
      item := r.value;
    }

    method SetEntry(id: StreamID, e: Entry, ghost m: ManagerState)
      requires Shows(m) && id in m.lines
      modifies this`streams
      ensures Shows(m.(lines := m.lines[id := m.lines[id].(entry := e)]))
    {
      var h := streams[id];
      streams := streams[id := h.(window := e.window, needsFin := e.needsFin, dataWriteClosed := e.dataWriteClosed)];
    }

    /** The handle of stream `id` and the newest task hold the other ends of this request. */
    ghost predicate Joins(id: StreamID, req: OpenReq)
      reads this
    {
      && id in streams && streams[id].toStream == req.toStream && streams[id].sinkCloser == req.closer
      && tasks != [] && tasks[|tasks| - 1] == Task(id, req.fromStream)
    }

    method Insert(id: StreamID, req: OpenReq, ghost m: ManagerState)
      requires Shows(m) && Unused(req, streams, tasks, sys)
      requires req.closer.code == 0 && req.toStream.View() == OPEN_CHAN && req.fromStream.View() == OPEN_CHAN
      requires this !in {req.toStream as object, req.fromStream, req.closer}
      modifies this`streams, this`tasks, this`repr
      ensures repr == old(repr) + {req.toStream, req.fromStream, req.closer}
      ensures Shows(m.(lines := m.lines[id := Line(NewEntry(req.window), 0, OPEN_CHAN)],
                       waiting := m.waiting + [Waiting(id, OPEN_CHAN)]))
      ensures streams == old(streams)[id := StreamHandle(req.toStream, req.closer, true, false, req.window)]
      ensures tasks == old(tasks) + [Task(id, req.fromStream)]
    {
      streams := streams[id := StreamHandle(req.toStream, req.closer, true, false, req.window)];
      tasks := tasks + [Task(id, req.fromStream)];
      repr := repr + {req.toStream, req.fromStream, req.closer};
    }

    method DropReceiver(i: nat, ghost m: ManagerState)
      requires Shows(m) && i < |m.waiting|
      modifies tasks[i].recv
      ensures Shows(m.(waiting := m.waiting[i := m.waiting[i].(outbox := m.waiting[i].outbox.DropReceiver())]))
    {
      tasks[i].recv.DropReceiver();
    }

    method ForgetTask(i: nat, ghost m: ManagerState)
      requires Shows(m) && i < |m.waiting|
      modifies this`tasks
      ensures Shows(m.(waiting := Without(m.waiting, i)))
    {
      WithoutSeparates(streams, tasks, sys, i);
      tasks := Without(tasks, i);
    }

    method ForgetHandle(id: StreamID, ghost m: ManagerState)
      requires Shows(m)
      modifies this`streams
      ensures Shows(m.(lines := m.lines - {id}))
    {
      streams := streams - {id};
    }

    /** Drops a stream's handle, and its task which is not put back. */
    method RemoveStream(i: nat, ghost m: ManagerState)
      requires Shows(m) && i < |m.waiting| && m.waiting[i].id in m.lines
      modifies this`streams, this`tasks, repr
      ensures Shows(m.(lines := m.lines - {m.waiting[i].id}, waiting := Without(m.waiting, i)))
    {
      ghost var w := m.waiting[i];
      ghost var closed := m.lines[w.id].(inbox := m.lines[w.id].inbox.CloseSender());
      MinusUpdated(m.lines, w.id, closed);
      WithoutUpdated(m.waiting, i, w.(outbox := w.outbox.DropReceiver()));
      CloseInbox(tasks[i].id, m);
      ghost var m1 := m.(lines := m.lines[w.id := closed]);
      DropReceiver(i, m1);
      ForgetHandle(tasks[i].id, m1.(waiting := m1.waiting[i := w.(outbox := w.outbox.DropReceiver())]));
      ForgetTask(i, m.(lines := m.lines - {w.id}, waiting := m.waiting[i := w.(outbox := w.outbox.DropReceiver())]));
    }

    method Count(ghost m: ManagerState) returns (n: nat)
      requires Shows(m)
      ensures n == |m.lines|
    {
      n := |streams|;
      assert |m.lines.Keys| == |streams.Keys|;
    }

    method AssignId(id: Option<StreamID>, ghost m: ManagerState) returns (sid: StreamID)
      requires Shows(m)
      modifies this`lastLocalId, this`lastRemoteId
      ensures sid == if id.Some? then id.value else NextLocalId(m.lastLocalId)
      ensures Shows(m.(lastLocalId := if id.Some? then m.lastLocalId else sid,
                       lastRemoteId := if id.Some? then sid else m.lastRemoteId))
    {
      match id {
        case Some(remote) =>
          lastRemoteId := remote;
          sid := remote;
        case None =>
          sid := NextLocalId(lastLocalId);
          lastLocalId := sid;
      }
    }

    /** Inserting over a handle drops it. */
    method InsertOver(id: StreamID, req: OpenReq, ghost m: ManagerState)
      requires Shows(m) && Unused(req, streams, tasks, sys)
      requires req.closer.code == 0 && req.toStream.View() == OPEN_CHAN && req.fromStream.View() == OPEN_CHAN
      requires this !in {req.toStream as object, req.fromStream, req.closer}
      modifies this`streams, this`tasks, this`repr, repr
      ensures repr == old(repr) + {req.toStream, req.fromStream, req.closer}
      ensures Shows(m.(lines := m.lines[id := Line(NewEntry(req.window), 0, OPEN_CHAN)],
                       waiting := m.waiting + [Waiting(id, OPEN_CHAN)]))
      ensures Joins(id, req)
    {
      if id in streams {
        ghost var closed := m.lines[id].(inbox := m.lines[id].inbox.CloseSender());
        UpdatedTwice(m.lines, id, closed, Line(NewEntry(req.window), 0, OPEN_CHAN));
        CloseInbox(id, m);
        Insert(id, req, m.(lines := m.lines[id := closed]));
      } else {
        Insert(id, req, m);
      }
    }

    method AddStream(id: Option<StreamID>, req: OpenReq, ghost m: ManagerState) returns (sid: StreamID)
      requires Shows(m) && Unused(req, streams, tasks, sys) && |m.lines| != m.streamLimit
      requires req.closer.code == 0 && req.toStream.View() == OPEN_CHAN && req.fromStream.View() == OPEN_CHAN
      requires this !in {req.toStream as object, req.fromStream, req.closer}
      modifies this, repr
      ensures repr == old(repr) + {req.toStream, req.fromStream, req.closer}
      ensures Ok(sid) == Create(m, id, req.window).0 && Shows(Create(m, id, req.window).1)
      ensures Joins(sid, req)
    {
      sid := AssignId(id, m);
      ghost var m1 := m.(lastLocalId := if id.Some? then m.lastLocalId else sid,
                         lastRemoteId := if id.Some? then sid else m.lastRemoteId);
      InsertOver(sid, req, m1);
    }

    /** Opens a stream with new channels, unless the limit has been reached. */
    method CreateStream(id: Option<StreamID>, req: OpenReq, ghost m: ManagerState)
      returns (r: Result<StreamID, Error>)
      requires Shows(m) && Unused(req, streams, tasks, sys)
      requires req.closer.code == 0 && req.toStream.View() == OPEN_CHAN && req.fromStream.View() == OPEN_CHAN
      requires this !in {req.toStream as object, req.fromStream, req.closer}
      modifies this, repr
      ensures repr == if r.Ok? then old(repr) + {req.toStream, req.fromStream, req.closer} else old(repr)
      ensures r == Create(m, id, req.window).0 && Shows(Create(m, id, req.window).1)
      ensures r.Ok? ==> Joins(r.value, req)
    {
      var n := Count(m);
      if n == streamLimit {
        return Err(StreamsExhausted);
      }
      var sid := AddStream(id, req, m);
      return Ok(sid);
    }

    /** The reader's way to have a frame of its own sent. */
    method SendSystem(f: Frame, ghost m: ManagerState)
      requires Shows(m) && !m.sys.Disconnected()
      modifies sys
      ensures Shows(m.(sys := m.sys.Push(f)))
    {
      var _ := sys.StartSend(f);
    }

    /** System frames first. */
    method PollSystem(ghost m: ManagerState) returns (r: Option<Frame>)
      requires Shows(m)
      modifies sys
      ensures r == if m.sys.queue != [] then Some(m.sys.queue[0]) else None
      ensures Shows(if m.sys.queue != [] then m.(sys := m.sys.Pop()) else m)
    {
      var first := sys.PollNext();
      match first {
        case Ready(Some(f)) => return Some(f);
        case _ => return None;
      }
    }

    /** What becomes of the item taken from a task: `w` is the task before it was taken. */
    method Settle(i: nat, item: Option<Frame>, ghost w: Waiting, ghost m: ManagerState)
      returns (r: Poll<Option<Frame>>)
      requires Shows(m) && i < |m.waiting| && m.waiting[i].id == w.id && w.id in m.lines
      requires w.outbox.HasNext() && item == if w.outbox.queue != [] then Some(w.outbox.queue[0]) else None
      modifies this`streams, this`tasks, repr
      ensures var line := m.lines[w.id];
        var e := Emit(w.id, line.entry, line.code, w.outbox);
        && r == (if e.frame.Some? then Ready(Some(e.frame.value)) else Pending)
        && (e.entry.Some? ==> Shows(m.(lines := m.lines[w.id := line.(entry := e.entry.value)])))
        && (e.entry.None? ==> Shows(m.(lines := m.lines - {w.id}, waiting := Without(m.waiting, i))))
    {
      ghost var line := m.lines[w.id];
      ghost var outcome := Emit(w.id, line.entry, line.code, w.outbox);
      var id := tasks[i].id;
      var handle := streams[id];
      var check := handle.sinkCloser.CheckClosed();
      if check.Err? && !handle.needsFin {
        assert outcome.entry.None?;
        RemoveStream(i, m);
        return Pending;
      }
      match item {
        case Some(f) =>
          var e := handle.State();
          if f.body.WndInc? {
            e := e.(window := e.window + f.body.inc);
          }
          if f.IsFin() {
            e := e.(needsFin := false);
          }
          assert outcome.entry == Some(e);
          SetEntry(id, e, m);
          return Ready(Some(f.WithId(id)));
        case None =>
          assert outcome.entry.None?;
          RemoveStream(i, m);
          if handle.needsFin {
            return Ready(Some(FinFrame().WithId(id)));
          }
          return Pending;
      }
    }

    method PollTask(i: nat, ghost m: ManagerState) returns (r: Poll<Option<Frame>>)
      requires Shows(m) && !m.sentAway && m.sys.queue == []
      requires i < |m.waiting| && m.waiting[i].outbox.HasNext() && m.waiting[i].id in m.lines
      modifies this`streams, this`tasks, repr
      ensures r == PollNextOf(m, Some(i)).0 && Shows(PollNextOf(m, Some(i)).1)
    {
      var item := PopTask(i, m);
      ghost var w := m.waiting[i];
      r := Settle(i, item, w, m.(waiting := m.waiting[i := if item.Some? then w.(outbox := w.outbox.Pop()) else w]));
      WithoutUpdated(m.waiting, i, w.(outbox := if item.Some? then w.outbox.Pop() else w.outbox));
    }

    /** The task picked by the task collection is ready, or none is. */
    method PollNext(pick: Option<nat>, ghost m: ManagerState) returns (r: Poll<Option<Frame>>)
      requires Shows(m) && ManagerInv(m) && CanPick(m, pick)
      modifies this`streams, this`tasks, repr
      ensures pick.Some? && !m.sentAway ==> m.waiting[pick.value].id in m.lines
      ensures r == PollNextOf(m, pick).0 && Shows(PollNextOf(m, pick).1)
    {
      if sentAway {
        return Ready(None);
      }
      PollNextKeepsInv(m, pick);
      var first := PollSystem(m);
      if first.Some? {
        return Ready(first);
      }
      if pick.None? {
        return Pending;
      }
      r := PollTask(pick.value, m);
    }

    /** Empties the map: from now on nothing is sent. */
    method TakeHandles(ghost m: ManagerState) returns (drained: Handles)
      requires Shows(m)
      modifies this`streams, this`sentAway
      ensures drained == old(streams) && Shows(GoneAway(m))
    {
      sentAway := true;
      drained := streams;
      streams := map[];
    }

    /** Closing handles that have left the map changes nothing the manager still holds. */
    method CloseDrained(drained: Handles, ghost lines: map<StreamID, Line>, ghost m: ManagerState)
      requires Shows(m) && streams == map[] && Separate(drained, tasks, sys)
      requires Within(drained, tasks, repr) && drained.Keys <= lines.Keys
      requires forall k | k in drained ::
        drained[k].sinkCloser.code == lines[k].code && drained[k].toStream.View() == lines[k].inbox
      modifies (set k | k in drained :: drained[k].sinkCloser), (set k | k in drained :: drained[k].toStream)
      ensures Shows(m)
      ensures forall k | k in drained :: Drained(drained[k], lines[k])
    {
      CloseHandles(drained, lines);
    }

    /** Every stream leaves the map with its sink closed and its incoming channel at its end. */
    method GoAway(ghost m: ManagerState)
      requires Shows(m)
      modifies this`streams, this`sentAway, repr
      ensures Shows(GoneAway(m))
      ensures forall k | k in old(streams) :: Drained(old(streams)[k], m.lines[k])
    {
      assert Separate(streams, tasks, sys) && Within(streams, tasks, repr);
      var drained := TakeHandles(m);
      CloseDrained(drained, m.lines, GoneAway(m));
    }

    method MarkWriteClosed(id: StreamID, ghost m: ManagerState)
      requires Shows(m)
      modifies this`streams
      ensures Shows(WriteClosed(m, id))
    {
      if id in streams {
        SetEntry(id, streams[id].State().(dataWriteClosed := true), m);
      }
    }

    /** The reader has stopped: every stream sees the end of its incoming channel. */
    method CloseSenders(ghost m: ManagerState)
      requires Shows(m)
      modifies repr
      ensures Shows(SendersClosed(m))
    {
      var left := streams.Keys;
      PartlyClosedEnds(m);
      while left != {}
        invariant left <= m.lines.Keys && Shows(PartlyClosed(m, left))
      {
        var id :| id in left;
        PartlyClosedStep(m, left, id);
        CloseInbox(id, PartlyClosed(m, left));
        left := left - {id};
      }
    }

    /** Puts a frame into the channel of a stream. */
    method Push(id: StreamID, f: Frame, ghost m: ManagerState)
      requires Shows(m) && id in m.lines && !m.lines[id].inbox.Disconnected()
      modifies streams[id].toStream
      ensures Shows(m.(lines := m.lines[id := m.lines[id].(inbox := m.lines[id].inbox.Push(f))]))
    {
      var _ := streams[id].toStream.StartSend(f);
    }

    /** A reset, received or about to be sent, closes the sink and rules out any FIN. */
    method ResetHandle(id: StreamID, e: Error, ghost m: ManagerState)
      requires Shows(m) && id in m.lines
      modifies this`streams, streams[id].sinkCloser
      ensures var line := m.lines[id];
        Shows(m.(lines := m.lines[id := line.(code := CloseCode(line.code, e), entry := line.entry.Reset())]))
    {
      var entry := streams[id].State().Reset();
      ghost var l1 := m.lines[id].(code := CloseCode(m.lines[id].code, e));
      UpdatedTwice(m.lines, id, l1, l1.(entry := entry));
      CloseSink(id, e, m);
      SetEntry(id, entry, m.(lines := m.lines[id := l1]));
    }

    /** The frame has been taken off the window: pass it on, unless the channel is full or closed. */
    method Offer(id: StreamID, p: Parcel, full: bool, ghost m: ManagerState)
      returns (r: Poll<Result<(), Error>>)
      requires Shows(m) && id in m.lines
      modifies streams[id].toStream
      ensures var line := m.lines[id];
        && r == (if line.inbox.Disconnected() then
                   Ready(if p.frame.IsEmptyFin() then Ok(()) else Err(StreamClosed))
                 else if full then Pending
                 else Ready(Ok(())))
        && (line.inbox.Disconnected() || full ==> Shows(m))
        && (!line.inbox.Disconnected() && !full ==>
              Shows(m.(lines := m.lines[id := line.(inbox := line.inbox.Push(p.frame))])))
    {
      var ready := streams[id].toStream.PollReady(full);
      match ready {
        case Pending => return Pending;
        case Ready(Err(_)) => return Ready(if p.frame.IsEmptyFin() then Ok(()) else Err(StreamClosed));
        case Ready(Ok(_)) =>
          Push(id, p.frame, m);
          return Ready(Ok(()));
      }
    }

    /** Takes the frame off the stream's window, once, and offers it. */
    method ShrinkAndOffer(id: StreamID, p: Parcel, full: bool, ghost m: ManagerState)
      returns (r: Poll<Result<(), Error>>, p': Parcel)
      requires Shows(m) && id in m.lines && p.shrink <= m.lines[id].entry.window
      requires !(p.frame.header.typ.Data? && m.lines[id].entry.dataWriteClosed) && !p.frame.body.Rst?
      modifies this`streams, repr
      ensures var line := m.lines[id];
        var d := Attempt(p, line.entry, line.code, line.inbox, full);
        && r == d.poll && p' == d.parcel
        && Shows(m.(lines := m.lines[id := Line(d.entry.value, d.code, d.inbox)]))
    {
      var e := streams[id].State().(window := streams[id].window - p.shrink);
      ghost var line := m.lines[id];
      ghost var d := Attempt(p, line.entry, line.code, line.inbox, full);
      ghost var l1 := line.(entry := e);
      ghost var l2 := Line(d.entry.value, d.code, d.inbox);
      assert l2 == if line.inbox.Disconnected() || full then l1 else l1.(inbox := line.inbox.Push(p.frame));
      UpdatedTwice(m.lines, id, l1, l2);
      SetEntry(id, e, m);
      p' := p.(shrink := 0);
      r := Offer(id, p', full, m.(lines := m.lines[id := l1]));
    }

    /** The closure of `send_to_stream` on a stream the manager knows. */
    method TryDeliver(p: Parcel, full: bool, ghost m: ManagerState)
      returns (r: Poll<Result<(), Error>>, p': Parcel)
      requires Shows(m) && p.frame.header.streamId in m.lines
      modifies this`streams, repr
      ensures var id := p.frame.header.streamId;
        var line := m.lines[id];
        var d := Attempt(p, line.entry, line.code, line.inbox, full);
        && r == d.poll && p' == d.parcel
        && Shows(m.(lines := m.lines[id := Line(d.entry.value, d.code, d.inbox)]))
    {
      var id := p.frame.header.streamId;
      var handle := streams[id];
      assert m.lines[id := m.lines[id]] == m.lines;
      if p.frame.header.typ.Data? && handle.dataWriteClosed {
        return Ready(Err(StreamClosed)), p;
      }
      if p.frame.body.Rst? {
        ResetHandle(id, p.frame.body.error, m);
        return Ready(Ok(())), p;
      }
      if p.shrink > handle.window {
        return Ready(Err(FlowControl)), p;
      }
      r, p' := ShrinkAndOffer(id, p, full, m);
    }

    /** One poll of `send_to_stream`, which keeps what is left of the frame in `p`. */
    method PollSend(p: Parcel, full: bool, ghost m: ManagerState)
      returns (r: Poll<Result<(), Error>>, p': Parcel)
      requires Shows(m)
      modifies this`streams, repr
      ensures (r, p') == (SendToStream(m, p, full).0, SendToStream(m, p, full).1)
      ensures Shows(SendToStream(m, p, full).2)
    {
      var id := p.frame.header.streamId;
      var isData := p.frame.header.typ.Data? && !p.frame.IsEmptyFin();
      if id !in streams {
        return Ready(if isData then Err(StreamClosed) else Ok(())), p;
      }
      r, p' := TryDeliver(p, full, m);
      if r.Pending? {
        return r, p';
      }
      if !isData {
        return Ready(Ok(())), p';
      }
      if r.value.Err? {
        ghost var line := m.lines[id];
        ghost var d := Attempt(p, line.entry, line.code, line.inbox, full);
        ghost var l1 := Line(d.entry.value, d.code, d.inbox);
        UpdatedTwice(m.lines, id, l1, Line(l1.entry.Reset(), CloseCode(l1.code, StreamClosed), l1.inbox));
        ResetHandle(id, StreamClosed, m.(lines := m.lines[id := l1]));
      }
    }
  }
}
