/**
 * The reader and writer tasks of a session (muxado/src/session.rs): what they do to the manager
 * they share, first as functions on values, then as classes proved against them. Between two locked
 * regions the reader's place is recorded in `reader`.
 */
module SessionTasks {
  import opened Wrappers
  import opened Frames
  import opened StreamOutput
  import opened Managers
  import opened Sessions
  import Codec
  import Streams

  // ----- On values -----

  /** The manager, and where the reader is. */
  datatype TaskState = TaskState(m: ManagerState, reader: Reader, last: StreamID)

  /** `handle_frame` from its `match` on the frame type. */
  function Dispatched(t: TaskState, f: Frame): TaskState {
    match VerdictOn(f)
    case GoingAway => t.(m := SendersClosed(GoneAway(t.m)), reader := Ended)
    case Panicking => t.(reader := Ended)
    case Complaining =>
      t.(m := t.m.(sys := t.m.sys.Push(GoAwayFrame(t.last, Protocol, INVALID_FRAME))), reader := Resting)
    case Handling(r) => t.(reader := r)
  }

  /** `handle_frame` up to its first wait. */
  function Took(t: TaskState, f: Frame, window: nat): TaskState {
    if !t.reader.Resting? then t
    else if f.IsSyn() then
      var (r, m1) := Create(t.m, Some(f.header.streamId), window);
      if r.Ok? then t.(m := m1, reader := Admitting(f)) else t.(m := SendersClosed(t.m), reader := Ended)
    else Dispatched(t, f)
  }

  /** The accept queue has taken the new stream, or is gone and has dropped it. */
  function Admitted(t: TaskState, ok: bool): TaskState {
    if !t.reader.Admitting? then t
    else if ok then Dispatched(t, t.reader.frame)
    else t.(m := SendersClosed(t.m), reader := Ended)
  }

  function Polled(t: TaskState, full: bool): TaskState {
    if !t.reader.Routing? then t
    else
      var f := t.reader.parcel.frame;
      var (r, p, m1) := SendToStream(t.m, t.reader.parcel, full);
      TaskState(m1, ReaderAfter(f, r, p), if r.Ready? && r.value.Ok? then f.header.streamId else t.last)
  }

  function Concluded(t: TaskState): TaskState {
    match t.reader
    case Finishing(id) => t.(m := WriteClosed(t.m, id), reader := Resting)
    case Resetting(id, e) => t.(m := t.m.(sys := t.m.sys.Push(RstFrame(id, e))), reader := Resting)
    case _ => t
  }

  /** One frame handled without a pause: the accept queue and the stream both have room. */
  function HandledFrame(t: TaskState, f: Frame, window: nat): TaskState {
    Concluded(Polled(Admitted(Took(t, f, window), true), false))
  }

  function HandledAll(t: TaskState, fs: seq<Frame>, window: nat): TaskState
    decreases |fs|
  {
    if fs == [] || t.reader.Ended? then t else HandledAll(HandledFrame(t, fs[0], window), fs[1..], window)
  }

  /** A handled frame leaves the reader at rest, or at its end. */
  lemma HandledIsDone(t: TaskState, f: Frame, window: nat)
    requires t.reader.Resting?
    ensures HandledFrame(t, f, window).reader.Resting? || HandledFrame(t, f, window).reader.Ended?
  {}

  // ----- The reader -----

  /** A request whose channels and close code the manager does not hold. */
  ghost predicate NewChannels(req: OpenReq, manager: StreamManager)
    reads manager, req.toStream, req.fromStream, req.closer
  {
    && Unused(req, manager.streams, manager.tasks, manager.sys)
    && req.closer.code == 0 && req.toStream.View() == OPEN_CHAN && req.fromStream.View() == OPEN_CHAN
    && manager !in {req.toStream as object, req.fromStream, req.closer}
  }

  lemma UnusedWhenNew(req: OpenReq, manager: StreamManager)
    requires Within(manager.streams, manager.tasks, manager.repr) && manager.sys in manager.repr
    requires req.toStream != req.fromStream
    requires req.toStream !in manager.repr && req.fromStream !in manager.repr && req.closer !in manager.repr
    ensures Unused(req, manager.streams, manager.tasks, manager.sys)
  {}

  /** A stream nobody has used yet. */
  ghost predicate IsNew(stream: Streams.Stream, window: nat, needsSyn: bool)
    reads stream, stream.window, stream.fin, stream.fout.sink, stream.fout.closer
  {
    stream.Valid()
    && stream.View() == Streams.StreamState(Streams.NewApp(window, needsSyn), 0, OPEN_CHAN, OPEN_CHAN)
  }

  /** The request that belongs to a stream: it has the other ends of its channels. */
  function RequestFor(stream: Streams.Stream, window: nat): OpenReq {
    OpenReq(stream.fin, stream.fout.sink, stream.fout.closer, window)
  }

  class ReaderTask {
    const manager: StreamManager
    const window: nat
    var reader: Reader
    var lastProcessed: StreamID

    ghost predicate Shows(t: TaskState)
      reads this, manager, manager.repr
    {
      && this !in manager.repr
      && manager.Shows(t.m) && reader == t.reader && lastProcessed == t.last
      && !t.m.sys.Disconnected()
    }

    constructor (manager: StreamManager, window: nat, ghost m: ManagerState)
      requires manager.Shows(m) && !m.sys.Disconnected()
      ensures this.manager == manager && this.window == window
      ensures Shows(TaskState(m, Resting, 0))
    {
      this.manager := manager;
      this.window := window;
      this.reader := Resting;
      this.lastProcessed := 0;
    }

    method EndInput(ghost t: TaskState)
      requires Shows(t)
      modifies this`reader, manager.repr
      ensures Shows(t.(m := SendersClosed(t.m), reader := Ended))
    {
      manager.CloseSenders(t.m);
      reader := Ended;
    }

    method Dispatch(f: Frame, ghost t: TaskState)
      requires Shows(t)
      modifies this, manager, manager.repr
      ensures Shows(Dispatched(t, f)) && manager.repr == old(manager.repr)
    {
      match VerdictOn(f) {
        case GoingAway =>
          manager.GoAway(t.m);
          EndInput(t.(m := GoneAway(t.m)));
        case Panicking =>
          reader := Ended;
        case Complaining =>
          manager.SendSystem(GoAwayFrame(lastProcessed, Protocol, INVALID_FRAME), t.m);
          reader := Resting;
        case Handling(r) =>
          reader := r;
      }
    }

    /** The stream is entered into the map, unless the limit has been reached: then the reader ends. */
    method Register(f: Frame, req: OpenReq, ghost t: TaskState) returns (ok: bool)
      requires Shows(t) && t.reader.Resting? && f.IsSyn() && req.window == window
      requires NewChannels(req, manager) && this !in {req.toStream as object, req.fromStream, req.closer}
      modifies this`reader, manager, manager.repr
      ensures Shows(Took(t, f, window))
      ensures ok <==> Took(t, f, window).reader.Admitting?
      ensures ok ==> manager.repr <= old(manager.repr) + {req.toStream, req.fromStream, req.closer}
      ensures !ok ==> manager.repr == old(manager.repr)
      ensures ok ==> manager.Joins(f.header.streamId, req)
    {
      var r := manager.CreateStream(Some(f.header.streamId), req, t.m);
      ok := r.Ok?;
      if ok {
        reader := Admitting(f);
      } else {
        EndInput(t);
      }
    }

    /** A SYN: a stream is made and entered into the map. */
    method Enter(f: Frame, ghost t: TaskState) returns (stream: Option<Streams.Stream>)
      requires Shows(t) && t.reader.Resting? && f.IsSyn()
      modifies this`reader, manager, manager.repr
      ensures Shows(Took(t, f, window))
      ensures stream.Some? <==> Took(t, f, window).reader.Admitting?
      ensures stream.Some? ==>
        && fresh(stream.value) && IsNew(stream.value, window, false)
        && manager.Joins(f.header.streamId, RequestFor(stream.value, window))
      ensures stream.None? ==> manager.repr == old(manager.repr)
      ensures stream.Some? ==>
        && fresh(stream.value.fin) && fresh(stream.value.fout.sink) && fresh(stream.value.fout.closer)
        && manager.repr <= old(manager.repr) + {stream.value.fin, stream.value.fout.sink, stream.value.fout.closer}
    {
      var req, s := NewOpenReq(window, false);
      UnusedWhenNew(req, manager);
      var ok := Register(f, req, t);
      stream := if ok then Some(s) else None;
    }

    /** A frame is taken; for a SYN the new stream is returned, to be handed to the accept queue. */
    method Take(f: Frame, ghost t: TaskState) returns (stream: Option<Streams.Stream>)
      requires Shows(t) && t.reader.Resting?
      modifies this, manager, manager.repr
      ensures Shows(Took(t, f, window))
      ensures stream.Some? <==> Took(t, f, window).reader.Admitting?
      ensures stream.Some? ==>
        && fresh(stream.value) && IsNew(stream.value, window, false)
        && manager.Joins(f.header.streamId, RequestFor(stream.value, window))
      ensures fresh(manager.repr - old(manager.repr))
    {
      if !f.IsSyn() {
        Dispatch(f, t);
        return None;
      }
      stream := Enter(f, t);
    }

    method Admit(ok: bool, ghost t: TaskState)
      requires Shows(t)
      modifies this, manager, manager.repr
      ensures Shows(Admitted(t, ok)) && manager.repr == old(manager.repr)
    {
      if reader.Admitting? {
        if ok {
          Dispatch(reader.frame, t);
        } else {
          EndInput(t);
        }
      }
    }

    /** One poll of `send_to_stream`. */
    method Poll(full: bool, ghost t: TaskState)
      requires Shows(t)
      modifies this, manager`streams, manager.repr
      ensures Shows(Polled(t, full)) && manager.repr == old(manager.repr)
    {
      if !reader.Routing? {
        return;
      }
      var f := reader.parcel.frame;
      var r, p := manager.PollSend(reader.parcel, full, t.m);
      if r.Ready? && r.value.Ok? {
        lastProcessed := f.header.streamId;
      }
      reader := ReaderAfter(f, r, p);
    }

    method Conclude(ghost t: TaskState)
      requires Shows(t)
      modifies this`reader, manager`streams, manager.repr
      ensures Shows(Concluded(t)) && manager.repr == old(manager.repr)
    {
      match reader {
        case Finishing(id) =>
          manager.MarkWriteClosed(id, t.m);
          reader := Resting;
        case Resetting(id, e) =>
          manager.SendSystem(RstFrame(id, e), t.m);
          reader := Resting;
        case _ =>
      }
    }

    /** One frame from start to end, as long as nothing makes the reader wait. */
    method HandleFrame(f: Frame, ghost t: TaskState)
      requires Shows(t) && t.reader.Resting?
      modifies this, manager, manager.repr
      ensures Shows(HandledFrame(t, f, window)) && fresh(manager.repr - old(manager.repr))
    {
      var _ := Take(f, t);
      Admit(true, Took(t, f, window));
      Poll(false, Admitted(Took(t, f, window), true));
      Conclude(Polled(Admitted(Took(t, f, window), true), false));
    }

    /** All frames that arrive, until the reader ends or the input does. */
    method Run(frames: seq<Frame>, ghost t: TaskState)
      requires Shows(t) && t.reader.Resting?
      modifies this, manager, manager.repr
      ensures var t' := HandledAll(t, frames, window);
        Shows(if t'.reader.Ended? then t' else t'.(m := SendersClosed(t'.m), reader := Ended))
    {
      ghost var now := t;
      var i := 0;
      while i < |frames| && !reader.Ended?
        invariant 0 <= i <= |frames|
        invariant Shows(now) && (now.reader.Resting? || now.reader.Ended?)
        invariant HandledAll(now, frames[i..], window) == HandledAll(t, frames, window)
        invariant fresh(manager.repr - old(manager.repr))
      {
        HandleFrame(frames[i], now);
        HandledIsDone(now, frames[i], window);
        assert frames[i..][1..] == frames[i + 1..];
        now := HandledFrame(now, frames[i], window);
        i := i + 1;
      }
      if !reader.Ended? {
        EndInput(now);
      }
    }
  }

  // ----- The writer -----

  /** The codec takes the frame: its header is valid. */
  predicate Writable(f: Frame) {
    Codec.ValidateHeader(f.header).None?
  }

  /** The frame a poll of the manager gives the writer. */
  function Given(polled: Poll<Option<Frame>>): Option<Frame> {
    if polled.Ready? then polled.value else None
  }

  /** What becomes of it: it goes out, or it is refused and the writer ends. */
  function Sent(given: Option<Frame>): seq<Frame> {
    if given.Some? && Writable(given.value) then [given.value] else []
  }

  predicate Refused(given: Option<Frame>) {
    given.Some? && !Writable(given.value)
  }

  /** What the writer has put on the byte stream, and whether it has ended, beside the manager it shares. */
  class WriterTask {
    const manager: StreamManager
    const window: nat
    var written: seq<Frame>
    var ended: bool

    ghost predicate Shows(m: ManagerState)
      reads this, manager, manager.repr
    {
      this !in manager.repr && manager.Shows(m)
    }

    constructor (manager: StreamManager, window: nat, ghost m: ManagerState)
      requires manager.Shows(m)
      ensures this.manager == manager && this.window == window && written == [] && !ended && Shows(m)
    {
      this.manager := manager;
      this.window := window;
      this.written := [];
      this.ended := false;
    }

    /** The frame is encoded and sent; one the codec refuses ends the writer. */
    method Write(f: Option<Frame>, ghost m: ManagerState)
      requires Shows(m) && !ended
      modifies this`written, this`ended
      ensures Shows(m) && written == old(written) + Sent(f) && ended == Refused(f)
    {
      if f.Some? {
        if Writable(f.value) {
          written := written + [f.value];
        } else {
          ended := true;
        }
      }
    }

    /** The next frame of the manager is written. */
    method WriteFrame(pick: Option<nat>, ghost m: ManagerState)
      requires Shows(m) && ManagerInv(m) && CanPick(m, pick) && !ended
      modifies this, manager, manager.repr
      ensures pick.Some? && !m.sentAway ==> m.waiting[pick.value].id in m.lines
      ensures Shows(PollNextOf(m, pick).1)
      ensures written == old(written) + Sent(Given(PollNextOf(m, pick).0))
      ensures ended == Refused(Given(PollNextOf(m, pick).0))
    {
      var r := manager.PollNext(pick, m);
      Write(Given(r), PollNextOf(m, pick).1);
    }

    method Register(req: OpenReq, ghost m: ManagerState) returns (r: Result<StreamID, Error>)
      requires Shows(m) && req.window == window
      requires NewChannels(req, manager) && this !in {req.toStream as object, req.fromStream, req.closer}
      modifies manager, manager.repr
      ensures Shows(Create(m, None, window).1) && r == Create(m, None, window).0
      ensures r.Ok? ==> manager.Joins(r.value, req)
    {
      r := manager.CreateStream(None, req, m);
    }

    /** A local open request is answered with a stream that still owes its SYN, or with an error. */
    method OpenStream(ghost m: ManagerState) returns (r: Result<Streams.Stream, Error>)
      requires Shows(m)
      modifies this, manager, manager.repr
      ensures Shows(Create(m, None, window).1)
      ensures r.Ok? <==> Create(m, None, window).0.Ok?
      ensures r.Ok? ==>
        && fresh(r.value) && IsNew(r.value, window, true)
        && manager.Joins(Create(m, None, window).0.value, RequestFor(r.value, window))
      ensures r.Err? ==> r.error == StreamsExhausted
    {
      var req, s := NewOpenReq(window, true);
      UnusedWhenNew(req, manager);
      var made := Register(req, m);
      r := if made.Ok? then Ok(s) else Err(made.error);
    }
  }
}
