/**
 * The application's end of a stream (muxado/src/stream.rs): reading, writing and shutting down,
 * first as functions on values, then as a class proved against them. One poll is one atomic step;
 * a `full` argument says whether the bounded outgoing channel is holding the stream back.
 */
module Streams {
  import opened Wrappers
  import opened Frames
  import opened Flows
  import opened Windows
  import opened StreamOutput

  /** The fields of a `Stream`. `finSeen` only records that a FIN frame has been handled. */
  datatype App = App(
    window: WindowState,
    readBuf: seq<Byte>,
    writeClosed: Option<Error>,
    dataReadClosed: bool,
    needsSyn: bool,
    finSeen: bool)

  /** A stream with the close code and the two channels it shares with its manager. */
  datatype StreamState = StreamState(app: App, code: U32, inbox: Chan, outbox: Chan)

  function NewApp(window: nat, needsSyn: bool): App {
    App(WindowState(window, window), [], None, false, needsSyn, false)
  }

  // ----- Receiving -----

  function Absorb(a: App, f: Frame): App
    requires StreamFrame(f)
  {
    var a1 := if f.IsFin() then a.(dataReadClosed := true, finSeen := true) else a;
    match f.body
    case Data(bs) => a1.(readBuf := a1.readBuf + bs)
    case WndInc(n) => a1.(window := a1.window.Inc(n))
  }

  /**
   * `poll_recv_frame_type`: handles frames up to and including the first of the wanted type, or up
   * to the end of the channel. False means that more frames have to arrive first.
   */
  function RecvType(s: StreamState, target: HeaderType): (r: (bool, StreamState))
    requires AllStreamFrames(s.inbox.queue)
    ensures r.1 == s.(app := r.1.app, inbox := s.inbox.(queue := r.1.inbox.queue))
    ensures AllStreamFrames(r.1.inbox.queue)
    ensures |r.1.inbox.queue| <= |s.inbox.queue|
    ensures r.0 ==> |r.1.inbox.queue| < |s.inbox.queue| || r.1.app.dataReadClosed
    ensures r.1.app.needsSyn == s.app.needsSyn && r.1.app.writeClosed == s.app.writeClosed
    ensures !r.0 ==> r.1.inbox.queue == [] && !s.inbox.txClosed
    decreases |s.inbox.queue|
  {
    if s.inbox.queue == [] then
      if s.inbox.txClosed then (true, s.(app := s.app.(dataReadClosed := true))) else (false, s)
    else
      var f := s.inbox.queue[0];
      var s1 := s.(app := Absorb(s.app, f), inbox := s.inbox.Pop());
      if f.header.typ == target then (true, s1) else RecvType(s1, target)
  }

  // ----- Reading -----

  /** How many bytes one read returns: a `usize` narrowed to 32 bits, then clamped to 31. */
  function ReadLen(buffered: nat, remaining: nat): (n: nat)
    ensures n <= buffered && n <= remaining && n <= WNDINC_MAX
    ensures Min(buffered, remaining) <= U32_MAX ==> n == buffered || n == remaining || n == WNDINC_MAX
    ensures n == 0 <==> Min(buffered, remaining) % (U32_MAX + 1) == 0
  {
    Clamp(Truncate(Min(buffered, remaining)), WNDINC_MAX)
  }

  /** `poll_send_wndinc`: a closed sink counts as success. None while the channel is full. */
  function SendWndInc(s: StreamState, n: WndInc, full: bool): Option<StreamState> {
    match SendError(s.code, s.outbox)
    case Some(_) => Some(s.(code := CodeAfterSend(s.code, s.outbox)))
    case None => if full then None else Some(s.(outbox := s.outbox.Push(FrameFrom(Body.WndInc(n)))))
  }

  function ReadBuffered(s: StreamState, remaining: nat, full: bool): (Poll<seq<Byte>>, StreamState) {
    var n := ReadLen(|s.app.readBuf|, remaining);
    if n == 0 then (Ready([]), s)
    else
      match SendWndInc(s, n, full)
      case None => (Pending, s)
      case Some(s1) =>
        (Ready(s.app.readBuf[..n]), s1.(app := s.app.(readBuf := s.app.readBuf[n..])))
  }

  /** `poll_read` into a buffer with `remaining` free bytes. */
  function Read(s: StreamState, remaining: nat, full: bool): (Poll<seq<Byte>>, StreamState)
    requires AllStreamFrames(s.inbox.queue)
    decreases |s.inbox.queue|, !s.app.dataReadClosed
  {
    if s.app.readBuf != [] then ReadBuffered(s, remaining, full)
    else if s.app.dataReadClosed then (Ready([]), s)
    else
      var (ready, s1) := RecvType(s, HeaderType.Data);
      if ready then Read(s1, remaining, full) else (Pending, s1)
  }

  // ----- Writing -----

  /** How much of a buffer one write accepts. */
  function WriteLen(capacity: nat, len: nat): (n: nat)
    ensures n <= capacity && n <= len && n <= LENGTH_MAX
    ensures len <= U32_MAX ==> n == capacity || n == len || n == LENGTH_MAX
    ensures n == 0 <==> capacity == 0 || len % (U32_MAX + 1) == 0
  {
    Min(capacity, Clamp(Truncate(len), LENGTH_MAX))
  }

  /** `StreamProj::closed_err`. */
  function Broken(s: StreamState, e: Error): StreamState {
    s.(app := s.app.(writeClosed := Some(e)), code := CodeAfterSend(s.code, s.outbox))
  }

  function WriteFrame(s: StreamState, chunk: seq<Byte>): Frame {
    var f := FrameFrom(Body.Data(chunk));
    if s.app.needsSyn then f.Syn() else f
  }

  /** The part of `poll_write` after the wait for capacity. */
  function WriteNow(s: StreamState, buf: seq<Byte>, full: bool): (r: (Poll<Result<nat, Error>>, StreamState))
    ensures r.0.Ready? && r.0.value.Ok? ==> r.0.value.value <= |buf|
  {
    match SendError(s.code, s.outbox)
    case Some(e) => (Ready(Err(e)), Broken(s, e))
    case None =>
      if full then (Pending, s)
      else
        var n := WriteLen(s.app.window.size, |buf|);
        (Ready(Ok(n)), s.(
          app := s.app.(needsSyn := false, window := s.app.window.Dec(n)),
          outbox := s.outbox.Push(WriteFrame(s, buf[..n]))))
  }

  /** `poll_write`. */
  function Write(s: StreamState, buf: seq<Byte>, full: bool): (r: (Poll<Result<nat, Error>>, StreamState))
    requires AllStreamFrames(s.inbox.queue)
    ensures r.0.Ready? && r.0.value.Ok? ==> r.0.value.value <= |buf|
  {
    if s.app.writeClosed.Some? then (Ready(Err(s.app.writeClosed.value)), s)
    else if s.app.window.size == 0 then
      var (ready, s1) := RecvType(s, HeaderType.WndInc);
      if ready then WriteNow(s1, buf, full) else (Pending, s1)
    else WriteNow(s, buf, full)
  }

  // ----- Shutting down -----

  function Flush(s: StreamState, blocked: bool): (Poll<Result<(), Error>>, StreamState) {
    if s.code != 0 then
      (Ready(Err(ErrorOf(s.code))), s.(app := s.app.(writeClosed := Some(ErrorOf(s.code)))))
    else if blocked && !s.outbox.Disconnected() then (Pending, s)
    else (Ready(Ok(())), s)
  }

  /** `poll_shutdown`: at most one FIN, then a flush. */
  function Shutdown(s: StreamState, full: bool, blocked: bool): (Poll<Result<(), Error>>, StreamState) {
    if s.app.writeClosed.Some? then Flush(s, blocked)
    else
      match SendError(s.code, s.outbox)
      case Some(e) => (Ready(Err(e)), Broken(s, e))
      case None =>
        if full then (Pending, s)
        else
          Flush(s.(app := s.app.(writeClosed := Some(StreamClosed)), outbox := s.outbox.Push(FinFrame())),
                blocked)
  }

  // ----- What receiving preserves -----

  /** `t` comes after `s` by handling frames only: nothing is lost, reordered or invented. */
  ghost predicate Ingested(s: StreamState, t: StreamState) {
    && t == s.(app := t.app, inbox := s.inbox.(queue := t.inbox.queue))
    && t.app.needsSyn == s.app.needsSyn && t.app.writeClosed == s.app.writeClosed
    && t.app.window.maxSize == s.app.window.maxSize
    && AllStreamFrames(t.inbox.queue)
    && IsSuffix(t.inbox.queue, s.inbox.queue)
    && t.app.readBuf + PayloadOf(t.inbox.queue) == s.app.readBuf + PayloadOf(s.inbox.queue)
    && (s.app.window.size + CreditOf(s.inbox.queue) <= s.app.window.maxSize ==>
          t.app.window.size + CreditOf(t.inbox.queue) == s.app.window.size + CreditOf(s.inbox.queue))
    && (t.app.finSeen || HasFin(t.inbox.queue) <==> s.app.finSeen || HasFin(s.inbox.queue))
    && (s.app.finSeen ==> t.app.finSeen)
    && ((s.app.finSeen ==> s.app.dataReadClosed) ==> (t.app.finSeen ==> t.app.dataReadClosed))
    && (Quiet(s.app.finSeen, s.inbox.queue) ==> Quiet(t.app.finSeen, t.inbox.queue))
    && (t.app.dataReadClosed ==> s.app.dataReadClosed || t.app.finSeen || s.inbox.txClosed)
  }

  lemma IngestedReflexive(s: StreamState)
    requires AllStreamFrames(s.inbox.queue)
    ensures Ingested(s, s)
  {
  }

  lemma IngestedTransitive(s: StreamState, t: StreamState, u: StreamState)
    requires Ingested(s, t) && Ingested(t, u)
    ensures Ingested(s, u)
  {
    var q, p := s.inbox.queue, t.inbox.queue;
    assert p[|p| - |u.inbox.queue|..] == q[|q| - |u.inbox.queue|..];
  }

  /** Absorbing a frame adds its credit to the window when there is room, and its bytes to the buffer. */
  lemma AbsorbedCredit(a: App, f: Frame)
    requires StreamFrame(f)
    ensures a.window.size + f.Credit() <= a.window.maxSize ==> Absorb(a, f).window.size == a.window.size + f.Credit()
    ensures Absorb(a, f).readBuf == a.readBuf + f.Payload()
  {
    match f.body
    case Data(bs) =>
    case WndInc(n) =>
      assert f.Credit() == n;
      assert a.readBuf + f.Payload() == a.readBuf;
  }

  lemma HandleIngests(s: StreamState)
    requires s.inbox.queue != [] && AllStreamFrames(s.inbox.queue)
    ensures Ingested(s, s.(app := Absorb(s.app, s.inbox.queue[0]), inbox := s.inbox.Pop()))
  {
    var q := s.inbox.queue;
    assert q == [q[0]] + q[1..];
    assert CreditOf(q) == q[0].Credit() + CreditOf(q[1..]);
    assert s.inbox.Pop().queue == q[1..];
    AbsorbedCredit(s.app, q[0]);
    assert HasFin(q) <==> q[0].IsFin() || HasFin(q[1..]);
  }

  lemma {:induction false} RecvIngests(s: StreamState, target: HeaderType)
    requires AllStreamFrames(s.inbox.queue)
    ensures Ingested(s, RecvType(s, target).1)
    decreases |s.inbox.queue|
  {
    IngestedReflexive(s);
    if s.inbox.queue != [] {
      var f := s.inbox.queue[0];
      var s1 := s.(app := Absorb(s.app, f), inbox := s.inbox.Pop());
      HandleIngests(s);
      if f.header.typ != target {
        RecvIngests(s1, target);
        IngestedTransitive(s, s1, RecvType(s1, target).1);
      }
    }
  }

  /**
   * A read first handles frames, then serves the caller from the buffer: `mid` is the state in
   * between. The result is a prefix of the buffered bytes, in order, and as much credit is queued
   * as bytes are returned unless the sink is closed. A read returns nothing to a caller with room
   * exactly when it has reached the end of the stream, or the amount is a multiple of 2^32 bytes.
   */
  lemma {:induction false} ReadMeaning(s: StreamState, remaining: nat, full: bool) returns (mid: StreamState)
    requires AllStreamFrames(s.inbox.queue)
    ensures Ingested(s, mid)
    ensures var (r, t) := Read(s, remaining, full);
      match r
      case Pending => t == mid
      case Ready(bs) =>
        && bs + t.app.readBuf == mid.app.readBuf
        && t.app == mid.app.(readBuf := t.app.readBuf)
        && t.inbox == mid.inbox
        && t.code == (if bs == [] then s.code else CodeAfterSend(s.code, s.outbox))
        && |bs| <= WNDINC_MAX
        && t.outbox == (if bs == [] || SendError(s.code, s.outbox).Some? then s.outbox
                        else s.outbox.Push(FrameFrom(Body.WndInc(|bs|))))
        && (remaining > 0 ==>
              (bs == [] <==>
                || (mid.app.readBuf == [] && mid.app.dataReadClosed)
                || (mid.app.readBuf != [] && Min(|mid.app.readBuf|, remaining) % (U32_MAX + 1) == 0)))
    decreases |s.inbox.queue|, !s.app.dataReadClosed
  {
    IngestedReflexive(s);
    mid := s;
    if s.app.readBuf == [] && !s.app.dataReadClosed {
      RecvIngests(s, HeaderType.Data);
      var (ready, s1) := RecvType(s, HeaderType.Data);
      mid := s1;
      if ready {
        mid := ReadMeaning(s1, remaining, full);
        IngestedTransitive(s, s1, mid);
      }
    }
  }

  /** The input for which a read is wrongly empty: 2^32 buffered bytes, and room for all of them. */
  lemma LargeReadReturnsNothing(s: StreamState, full: bool)
    requires |s.app.readBuf| == U32_MAX + 1 && AllStreamFrames(s.inbox.queue)
    ensures Read(s, |s.app.readBuf|, full) == (Ready([]), s)
  {}

  // ----- The stream object -----

  class Stream {
    const window: Window
    var readBuf: seq<Byte>
    const fin: Channel
    const fout: StreamSender
    var writeClosed: Option<Error>
    var dataReadClosed: bool
    var needsSyn: bool
    ghost var finSeen: bool

    ghost function View(): StreamState
      reads this, window, fin, fout.sink, fout.closer
    {
      StreamState(
        App(window.View(), readBuf, writeClosed, dataReadClosed, needsSyn, finSeen),
        fout.closer.code, fin.View(), fout.sink.View())
    }

    /** Two different channels, and only data and credit in the incoming one. */
    ghost predicate Valid()
      reads this, fin
    {
      fin != fout.sink && AllStreamFrames(fin.queue)
    }

    constructor (fout: StreamSender, fin: Channel, windowSize: nat, needsSyn: bool)
      requires fin != fout.sink && AllStreamFrames(fin.queue)
      ensures Valid() && this.fin == fin && this.fout == fout && fresh(window)
      ensures View() == StreamState(NewApp(windowSize, needsSyn), fout.closer.code, fin.View(), fout.sink.View())
    {
      this.window := new Window(windowSize);
      this.readBuf := [];
      this.fin := fin;
      this.fout := fout;
      this.writeClosed := None;
      this.dataReadClosed := false;
      this.needsSyn := needsSyn;
      this.finSeen := false;
    }

    method HandleFrame(f: Frame) returns (typ: HeaderType)
      requires Valid() && StreamFrame(f)
      modifies this, window
      ensures View() == old(View()).(app := Absorb(old(View()).app, f))
      ensures typ == f.header.typ
    {
      if f.IsFin() {
        dataReadClosed := true;
        finSeen := true;
      }
      match f.body {
        case Data(bs) => readBuf := readBuf + bs;
        case WndInc(n) => window.Inc(n);
      }
      return f.header.typ;
    }

    method PollRecvFrameType(target: HeaderType) returns (ready: bool)
      requires Valid()
      modifies this, window, fin
      ensures Valid()
      ensures (ready, View()) == RecvType(old(View()), target)
    {
      ghost var start := View();
      while true
        invariant Valid()
        invariant RecvType(View(), target) == RecvType(start, target)
        decreases |fin.queue|
      {
        var item := fin.PollNext();
        match item {
          case Pending => return false;
          case Ready(None) =>
            dataReadClosed := true;
            return true;
          case Ready(Some(f)) =>
            var typ := this.HandleFrame(f);
            if typ == target {
              return true;
            }
        }
      }
    }

    /** True once the credit is sent, or known to be of no use. */
    method PollSendWndInc(n: WndInc, full: bool) returns (done: bool)
      requires Valid()
      modifies fout.closer, fout.sink
      ensures Valid()
      ensures done == SendWndInc(old(View()), n, full).Some?
      ensures View() == if done then SendWndInc(old(View()), n, full).value else old(View())
    {
      var ready := fout.PollReady(full);
      match ready {
        case Pending => return false;
        case Ready(Err(_)) => return true;
        case Ready(Ok(_)) =>
          var _ := fout.StartSend(FrameFrom(Body.WndInc(n)));
          return true;
      }
    }

    method PollRead(remaining: nat, full: bool) returns (r: Poll<seq<Byte>>)
      requires Valid()
      modifies this, window, fin, fout.closer, fout.sink
      ensures Valid()
      ensures (r, View()) == Read(old(View()), remaining, full)
    {
      ghost var start := View();
      while true
        invariant Valid()
        invariant Read(View(), remaining, full) == Read(start, remaining, full)
        decreases |fin.queue|, !dataReadClosed
      {
        if readBuf != [] {
          var n := ReadLen(|readBuf|, remaining);
          if n > 0 {
            var done := PollSendWndInc(n, full);
            if !done {
              return Pending;
            }
            var front := readBuf[..n];
            readBuf := readBuf[n..];
            return Ready(front);
          }
          return Ready([]);
        }
        if dataReadClosed {
          return Ready([]);
        }
        var ready := PollRecvFrameType(HeaderType.Data);
        if !ready {
          return Pending;
        }
      }
    }

    method PollWrite(buf: seq<Byte>, full: bool) returns (r: Poll<Result<nat, Error>>)
      requires Valid()
      modifies this, window, fin, fout.closer, fout.sink
      ensures Valid()
      ensures (r, View()) == Write(old(View()), buf, full)
    {
      if writeClosed.Some? {
        return Ready(Err(writeClosed.value));
      }
      var capacity := window.Capacity();
      if capacity == 0 {
        var got := PollRecvFrameType(HeaderType.WndInc);
        if !got {
          return Pending;
        }
      }
      ghost var s := View();
      var ready := fout.PollReady(full);
      match ready {
        case Pending => return Pending;
        case Ready(Err(e)) =>
          writeClosed := Some(e);
          return Ready(Err(e));
        case Ready(Ok(_)) =>
          capacity := window.Capacity();
          var n := WriteLen(capacity, |buf|);
          var frame := FrameFrom(Body.Data(buf[..n]));
          if needsSyn {
            needsSyn := false;
            frame := frame.Syn();
          }
          // Within one poll nothing closes the sink after it was found ready.
          var _ := fout.StartSend(frame);
          var actual := window.Dec(n);
          assert actual == n;
          return Ready(Ok(n));
      }
    }

    method PollShutdown(full: bool, blocked: bool) returns (r: Poll<Result<(), Error>>)
      requires Valid()
      modifies this, fout.closer, fout.sink
      ensures Valid()
      ensures (r, View()) == Shutdown(old(View()), full, blocked)
    {
      if writeClosed.None? {
        var ready := fout.PollReady(full);
        match ready {
          case Pending => return Pending;
          case Ready(Err(e)) =>
            writeClosed := Some(e);
            return Ready(Err(e));
          case Ready(Ok(_)) =>
            var _ := fout.StartSend(FinFrame());
            writeClosed := Some(StreamClosed);
        }
      }
      r := fout.PollFlush(blocked);
      if r.Ready? && r.value.Err? {
        writeClosed := Some(r.value.error);
      }
    }
  }
}
