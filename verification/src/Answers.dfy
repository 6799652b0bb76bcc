/**
 * What the calls of a stream answer (muxado/src/stream.rs): how many bytes a read returns and a
 * write accepts, which frames go out, when a call waits and which error it reports. Everything is
 * stated in the frames and fields a peer or a caller can see.
 */
module Answers {
  import opened Wrappers
  import opened Frames
  import opened Flows
  import opened Windows
  import opened StreamOutput
  import opened Streams
  import opened Layout

  /** The stream can still send. */
  predicate OpenSink(s: StreamState) {
    s.code == 0 && !s.outbox.txClosed && !s.outbox.rxClosed
  }

  /** `t` has sent one frame more than `s`, and nothing else is different in what they share. */
  predicate SentOne(s: StreamState, t: StreamState, f: Frame) {
    && t.outbox.queue == s.outbox.queue + [f] && t.code == s.code
    && t.outbox.txClosed == s.outbox.txClosed && t.outbox.rxClosed == s.outbox.rxClosed
  }

  /** Nothing is sent. A manager that is gone is remembered as SessionClosed, error 14. */
  predicate SentNothing(s: StreamState, t: StreamState, tried: bool) {
    && t.outbox == s.outbox
    && t.code == if tried && s.code == 0 && !OpenSink(s) then 14 else s.code
  }

  // ----- Reading -----

  /** A number kept to 32 bits, then to the range of a credit. */
  function Narrowed(n: nat): nat {
    var low := n % 0x1_0000_0000;
    if low > 0x7FFF_FFFF then 0x7FFF_FFFF else low
  }

  /**
   * `s` has `buffered` to give: as many bytes as buffer and caller allow are returned, in order, and
   * one credit frame for as many goes out. With a full channel the read waits, with a closed sink the
   * bytes are returned without credit.
   */
  ghost predicate Serves(s: StreamState, buffered: seq<Byte>, remaining: nat, full: bool,
                         r: Poll<seq<Byte>>, t: StreamState)
  {
    var n := Narrowed(if |buffered| < remaining then |buffered| else remaining);
    if n == 0 then r == Ready([]) && t.app.readBuf == buffered && SentNothing(s, t, false)
    else if OpenSink(s) && full then r == Pending && t.app.readBuf == buffered && SentNothing(s, t, false)
    else
      && n <= |buffered| && r == Ready(buffered[..n]) && t.app.readBuf == buffered[n..]
      && if OpenSink(s) then
           SentOne(s, t, Frame(Header(4, HeaderType.WndInc, Flags(false, false), 0), Body.WndInc(n)))
         else SentNothing(s, t, true)
  }

  lemma BufferedReadServes(s: StreamState, remaining: nat, full: bool)
    requires s.app.readBuf != [] && AllStreamFrames(s.inbox.queue)
    ensures var (r, t) := Read(s, remaining, full);
      && Serves(s, s.app.readBuf, remaining, full, r, t)
      && t.inbox == s.inbox && t.app == s.app.(readBuf := t.app.readBuf)
  {}

  lemma EndedReadIsEmpty(s: StreamState, remaining: nat, full: bool)
    requires s.app.readBuf == [] && s.app.dataReadClosed && AllStreamFrames(s.inbox.queue)
    ensures Read(s, remaining, full) == (Ready([]), s)
  {}

  /** The frame at `i` ends a read's wait: data with bytes, or any data once a FIN was seen. */
  predicate EndsWait(ended: bool, q: seq<Frame>, i: nat)
    requires i < |q|
  {
    q[i].header.typ.Data? && (q[i].Payload() != [] || ended || FinWithin(q, i + 1))
  }

  /** A read with an empty buffer, once it has started to handle frames. */
  function Awaiting(s: StreamState, remaining: nat, full: bool): (Poll<seq<Byte>>, StreamState)
    requires AllStreamFrames(s.inbox.queue) && s.app.readBuf == []
  {
    var (ready, s1) := RecvType(s, HeaderType.Data);
    if ready then Read(s1, remaining, full) else (Pending, s1)
  }

  /** The stream after handling the first frame of its channel. */
  function AfterFirst(s: StreamState): StreamState
    requires s.inbox.queue != [] && AllStreamFrames(s.inbox.queue)
  {
    s.(app := Absorb(s.app, s.inbox.queue[0]), inbox := s.inbox.Pop())
  }

  lemma WaitGoesOn(s: StreamState, remaining: nat, full: bool)
    requires s.app.readBuf == [] && s.inbox.queue != [] && AllStreamFrames(s.inbox.queue)
    requires !EndsWait(s.app.dataReadClosed, s.inbox.queue, 0)
    ensures var s1 := AfterFirst(s);
      && s1.app.readBuf == [] && AllStreamFrames(s1.inbox.queue)
      && s1.app.dataReadClosed == (s.app.dataReadClosed || s.inbox.queue[0].IsFin())
      && Awaiting(s, remaining, full) == Awaiting(s1, remaining, full)
  {
    var f, s1 := s.inbox.queue[0], AfterFirst(s);
    assert f in s.inbox.queue;
    if f.header.typ == HeaderType.Data {
      assert RecvType(s, HeaderType.Data) == (true, s1);
    } else {
      assert RecvType(s, HeaderType.Data) == RecvType(s1, HeaderType.Data);
    }
  }

  lemma WaitIsOver(s: StreamState, remaining: nat, full: bool)
    requires s.app.readBuf == [] && s.inbox.queue != [] && AllStreamFrames(s.inbox.queue)
    requires EndsWait(s.app.dataReadClosed, s.inbox.queue, 0)
    ensures var (r, t) := Awaiting(s, remaining, full);
      && t.inbox == s.inbox.Pop()
      && Serves(s, s.inbox.queue[0].Payload(), remaining, full, r, t)
  {
    var s1 := AfterFirst(s);
    assert s.inbox.queue[0] in s.inbox.queue;
    assert RecvType(s, HeaderType.Data) == (true, s1) && s1.app.readBuf == s.inbox.queue[0].Payload();
    if s1.app.readBuf != [] {
      BufferedReadServes(s1, remaining, full);
    }
  }

  lemma WaitShifts(ended: bool, q: seq<Frame>, i: nat)
    requires i + 1 < |q|
    ensures EndsWait(ended, q, i + 1) <==> EndsWait(ended || q[0].IsFin(), q[1..], i)
  {
    if FinWithin(q, i + 2) {
      var j :| 0 <= j < i + 2 && q[j].IsFin();
      assert j > 0 ==> q[1..][j - 1].IsFin();
    }
    if FinWithin(q[1..], i + 1) {
      var j :| 0 <= j < i + 1 && q[1..][j].IsFin();
      assert q[j + 1].IsFin();
    }
  }

  /** The frame at `d` is the first one that ends the wait. */
  predicate FirstEnding(ended: bool, q: seq<Frame>, d: nat) {
    d < |q| && EndsWait(ended, q, d) && forall i | 0 <= i < d :: !EndsWait(ended, q, i)
  }

  lemma {:induction false} AwaitedFrameServes(s: StreamState, remaining: nat, full: bool, d: nat)
    requires s.app.readBuf == [] && AllStreamFrames(s.inbox.queue)
    requires FirstEnding(s.app.dataReadClosed, s.inbox.queue, d)
    ensures var (r, t) := Awaiting(s, remaining, full);
      && t.inbox == s.inbox.(queue := s.inbox.queue[d + 1..])
      && Serves(s, s.inbox.queue[d].Payload(), remaining, full, r, t)
    decreases d
  {
    var q := s.inbox.queue;
    if d == 0 {
      WaitIsOver(s, remaining, full);
    } else {
      WaitGoesOn(s, remaining, full);
      forall i: nat | i + 1 <= d
        ensures EndsWait(s.app.dataReadClosed, q, i + 1) == EndsWait(AfterFirst(s).app.dataReadClosed, q[1..], i)
      {
        WaitShifts(s.app.dataReadClosed, q, i);
      }
      AwaitedFrameServes(AfterFirst(s), remaining, full, d - 1);
    }
  }

  lemma {:induction false} NothingAwaited(s: StreamState, remaining: nat, full: bool)
    requires s.app.readBuf == [] && AllStreamFrames(s.inbox.queue)
    requires forall i | 0 <= i < |s.inbox.queue| :: !EndsWait(s.app.dataReadClosed, s.inbox.queue, i)
    ensures var (r, t) := Awaiting(s, remaining, full);
      && r == (if s.inbox.txClosed then Ready([]) else Pending)
      && t.inbox == s.inbox.(queue := []) && t.app.readBuf == [] && SentNothing(s, t, false)
    decreases |s.inbox.queue|
  {
    var q := s.inbox.queue;
    if q != [] {
      WaitGoesOn(s, remaining, full);
      forall i: nat | i + 1 < |q| ensures !EndsWait(AfterFirst(s).app.dataReadClosed, q[1..], i) {
        WaitShifts(s.app.dataReadClosed, q, i);
      }
      NothingAwaited(AfterFirst(s), remaining, full);
    }
  }

  lemma {:induction false} NoFirstMeansNone(q: seq<Frame>, i: nat)
    requires i < |q| && forall d :: !FirstEnding(false, q, d)
    ensures !EndsWait(false, q, i)
    decreases i
  {
    forall j | 0 <= j < i ensures !EndsWait(false, q, j) {
      NoFirstMeansNone(q, j);
    }
    assert !FirstEnding(false, q, i);
  }

  /**
   * A read with nothing buffered takes frames up to the first that ends the wait, and serves the
   * caller from that frame; an empty one is the end of the stream.
   */
  lemma UnbufferedReadServes(s: StreamState, remaining: nat, full: bool, d: nat)
    requires s.app.readBuf == [] && !s.app.dataReadClosed && AllStreamFrames(s.inbox.queue)
    requires FirstEnding(false, s.inbox.queue, d)
    ensures var (r, t) := Read(s, remaining, full);
      && t.inbox == s.inbox.(queue := s.inbox.queue[d + 1..])
      && Serves(s, s.inbox.queue[d].Payload(), remaining, full, r, t)
  {
    AwaitedFrameServes(s, remaining, full, d);
  }

  /** Without such a frame it takes all there are, and then waits unless the channel has ended. */
  lemma UnbufferedReadWaits(s: StreamState, remaining: nat, full: bool)
    requires s.app.readBuf == [] && !s.app.dataReadClosed && AllStreamFrames(s.inbox.queue)
    requires forall d :: !FirstEnding(false, s.inbox.queue, d)
    ensures var (r, t) := Read(s, remaining, full);
      && r == (if s.inbox.txClosed then Ready([]) else Pending)
      && t.inbox == s.inbox.(queue := []) && t.app.readBuf == [] && SentNothing(s, t, false)
  {
    var q := s.inbox.queue;
    forall i | 0 <= i < |q| ensures !EndsWait(false, q, i) {
      NoFirstMeansNone(q, i);
    }
    NothingAwaited(s, remaining, full);
  }

  /** A read that can send its credit, or need not, gives as much as buffer and caller allow. */
  lemma ServingGives(s: StreamState, buffered: seq<Byte>, remaining: nat, full: bool,
                     r: Poll<seq<Byte>>, t: StreamState)
    requires Serves(s, buffered, remaining, full, r, t) && buffered != [] && 0 < remaining <= 0x7FFF_FFFF
    requires OpenSink(s) ==> !full
    ensures r == Ready(buffered[..Min(|buffered|, remaining)])
  {}

  // ----- Writing -----

  /** The error a closed sink reports: that of its code, or SessionClosed when the manager is gone. */
  predicate Reports(s: StreamState, e: Error) {
    !OpenSink(s) && if s.code != 0 then Coded(e, s.code) else e == SessionClosed
  }

  /** How much of a buffer may be accepted: the window, the caller's length to 32 bits, one frame. */
  function Acceptable(size: nat, len: nat): nat {
    var low := len % 0x1_0000_0000;
    var most := if low > 0xFF_FFFF then 0xFF_FFFF else low;
    if size < most then size else most
  }

  /**
   * A write through an open sink accepts as much as it may: one data frame with those bytes goes out,
   * with a SYN if and only if the stream still owes it, and the window shrinks by as much. It waits
   * exactly while the channel is full. Through a closed sink it fails, and so will every later write.
   */
  ghost predicate Accepts(s: StreamState, buf: seq<Byte>, full: bool, r: Poll<Result<nat, Error>>, t: StreamState) {
    var n := Acceptable(s.app.window.size, |buf|);
    && t.inbox == s.inbox
    && if !OpenSink(s) then
         SentNothing(s, t, true)
         && exists e :: Reports(s, e) && r == Ready(Err(e)) && t.app == s.app.(writeClosed := Some(e))
       else if full then r == Pending && t == s
       else
         && n <= |buf| && n <= s.app.window.size
         && r == Ready(Ok(n))
         && SentOne(s, t, Frame(Header(n, HeaderType.Data, Flags(false, s.app.needsSyn), 0), Body.Data(buf[..n])))
         && t.app == s.app.(
              needsSyn := false,
              window := WindowState(s.app.window.maxSize, s.app.window.size - n))
  }

  lemma SinkReports(s: StreamState)
    ensures !OpenSink(s) ==> SendError(s.code, s.outbox).Some? && Reports(s, SendError(s.code, s.outbox).value)
  {
    EveryCodeIsAnError(s.code);
  }

  lemma WriteNowAccepts(s: StreamState, buf: seq<Byte>, full: bool)
    ensures var (r, t) := WriteNow(s, buf, full); Accepts(s, buf, full, r, t)
  {
    SinkReports(s);
  }

  lemma WriteAccepts(s: StreamState, buf: seq<Byte>, full: bool)
    requires AllStreamFrames(s.inbox.queue) && s.app.writeClosed.None? && s.app.window.size > 0
    ensures var (r, t) := Write(s, buf, full); Accepts(s, buf, full, r, t)
  {
    WriteNowAccepts(s, buf, full);
  }

  /** A stream closed for writing, by a shutdown or a failure, keeps failing in the same way. */
  lemma ClosedWriteFails(s: StreamState, buf: seq<Byte>, full: bool)
    requires AllStreamFrames(s.inbox.queue) && s.app.writeClosed.Some?
    ensures Write(s, buf, full) == (Ready(Err(s.app.writeClosed.value)), s)
  {}

  predicate IsCredit(f: Frame) { f.header.typ.WndInc? && f.body.WndInc? }

  /** The first credit frame of a channel. */
  predicate FirstCredit(q: seq<Frame>, d: nat) {
    d < |q| && IsCredit(q[d]) && forall i | 0 <= i < d :: !IsCredit(q[i])
  }

  predicate NoCredit(q: seq<Frame>) {
    forall f :: f in q ==> !IsCredit(f)
  }

  /** `m` comes after `s` by handling the first `n` frames of its channel, all of them data. */
  ghost predicate HandledData(s: StreamState, n: nat, m: StreamState) {
    && n <= |s.inbox.queue| && m.code == s.code && m.outbox == s.outbox
    && m.inbox == s.inbox.(queue := s.inbox.queue[n..])
    && m.app == s.app.(readBuf := m.app.readBuf, dataReadClosed := m.app.dataReadClosed, finSeen := m.app.finSeen)
    && m.app.readBuf == s.app.readBuf + PayloadOf(s.inbox.queue[..n])
    && m.app.dataReadClosed == (s.app.dataReadClosed || FinWithin(s.inbox.queue, n))
  }

  lemma HandledOneMore(s: StreamState, n: nat, m: StreamState)
    requires s.inbox.queue != [] && AllStreamFrames(s.inbox.queue) && !IsCredit(s.inbox.queue[0])
    requires HandledData(AfterFirst(s), n, m)
    ensures HandledData(s, n + 1, m)
  {
    var q := s.inbox.queue;
    assert q[0] in q;
    assert q[..n + 1][0] == q[0] && q[..n + 1][1..] == q[1..][..n] && q[n + 1..] == q[1..][n..];
    assert m.app.readBuf == s.app.readBuf + q[0].Payload() + PayloadOf(q[1..][..n]);
    if FinWithin(q, n + 1) {
      var j :| 0 <= j < n + 1 && q[j].IsFin();
      assert j > 0 ==> q[1..][j - 1].IsFin();
    }
    if FinWithin(q[1..], n) {
      var j :| 0 <= j < n && q[1..][j].IsFin();
      assert q[j + 1].IsFin();
    }
  }

  /** Waiting for credit handles data until the first credit frame. */
  lemma {:induction false} CreditAwaited(s: StreamState, d: nat) returns (m: StreamState)
    requires AllStreamFrames(s.inbox.queue) && FirstCredit(s.inbox.queue, d)
    ensures HandledData(s, d, m) && AllStreamFrames(m.inbox.queue)
    ensures m.inbox.queue != [] && m.inbox.queue[0] == s.inbox.queue[d]
    ensures RecvType(s, HeaderType.WndInc) == (true, AfterFirst(m))
    decreases d
  {
    var q := s.inbox.queue;
    assert q[0] in q;
    if d == 0 {
      m := s;
    } else {
      m := CreditAwaited(AfterFirst(s), d - 1);
      HandledOneMore(s, d - 1, m);
    }
  }

  lemma {:induction false} NoCreditAwaited(s: StreamState) returns (m: StreamState)
    requires AllStreamFrames(s.inbox.queue) && NoCredit(s.inbox.queue)
    ensures HandledData(s, |s.inbox.queue|, m)
    ensures RecvType(s, HeaderType.WndInc)
         == (s.inbox.txClosed, if s.inbox.txClosed then m.(app := m.app.(dataReadClosed := true)) else m)
    decreases |s.inbox.queue|
  {
    if s.inbox.queue == [] {
      m := s;
    } else {
      assert s.inbox.queue[0] in s.inbox.queue;
      m := NoCreditAwaited(AfterFirst(s));
      HandledOneMore(s, |s.inbox.queue| - 1, m);
    }
  }

  /** The credit of a frame has been added, up to the window's maximum. */
  predicate Credited(m: StreamState, f: Frame, t: StreamState) {
    && f.body.WndInc? && t.code == m.code && t.outbox == m.outbox
    && t.app == m.app.(window := t.app.window, dataReadClosed := t.app.dataReadClosed, finSeen := t.app.finSeen)
    && t.app.dataReadClosed == (m.app.dataReadClosed || f.IsFin())
    && t.app.window.maxSize == m.app.window.maxSize
    && t.app.window.size == (if m.app.window.size + f.body.inc > m.app.window.maxSize && f.body.inc > 0
                             then m.app.window.maxSize else m.app.window.size + f.body.inc)
  }

  /** Without window a write takes data for later reads up to the first credit, and accepts with that. */
  lemma WriteAfterCredit(s: StreamState, buf: seq<Byte>, full: bool, d: nat) returns (m: StreamState, m': StreamState)
    requires AllStreamFrames(s.inbox.queue) && s.app.writeClosed.None? && s.app.window.size == 0
    requires FirstCredit(s.inbox.queue, d)
    ensures HandledData(s, d, m) && Credited(m, s.inbox.queue[d], m')
    ensures m'.inbox == s.inbox.(queue := s.inbox.queue[d + 1..])
    ensures var (r, t) := Write(s, buf, full); Accepts(m', buf, full, r, t)
  {
    m := CreditAwaited(s, d);
    m' := AfterFirst(m);
    WriteNowAccepts(m', buf, full);
  }

  /**
   * Without window and credit it waits if and only if the channel is open; when it has ended the write
   * goes on without window: through an open sink it accepts nothing and sends an empty frame.
   */
  lemma WriteWithoutCredit(s: StreamState, buf: seq<Byte>, full: bool) returns (m: StreamState)
    requires AllStreamFrames(s.inbox.queue) && s.app.writeClosed.None? && s.app.window.size == 0
    requires NoCredit(s.inbox.queue)
    ensures HandledData(s, |s.inbox.queue|, m)
    ensures var (r, t) := Write(s, buf, full);
      if s.inbox.txClosed then Accepts(m.(app := m.app.(dataReadClosed := true)), buf, full, r, t)
      else r == Pending && t == m
  {
    m := NoCreditAwaited(s);
    WriteNowAccepts(m.(app := m.app.(dataReadClosed := true)), buf, full);
  }

  /** The credit of the first credit frame. */
  function CreditFound(q: seq<Frame>): Option<nat> {
    if q == [] then None else if IsCredit(q[0]) then Some(q[0].body.inc) else CreditFound(q[1..])
  }

  lemma {:induction false} CreditOrNone(q: seq<Frame>) returns (d: nat)
    ensures if NoCredit(q) then CreditFound(q).None?
            else FirstCredit(q, d) && CreditFound(q) == Some(q[d].body.inc)
  {
    if q == [] || IsCredit(q[0]) {
      d := 0;
      assert q != [] ==> q[0] in q;
    } else {
      d := CreditOrNone(q[1..]);
      assert q == [q[0]] + q[1..];
      if !NoCredit(q[1..]) {
        forall i | 0 <= i < d + 1 ensures !IsCredit(q[i]) {
          assert i > 0 ==> q[i] == q[1..][i - 1];
        }
        assert q[1..][d] in q;
      }
      d := d + 1;
    }
  }

  /** The window a write finds: its own, or the first credit that arrives when it has none. */
  function WindowFound(s: StreamState): nat {
    if s.app.window.size > 0 then s.app.window.size
    else
      match CreditFound(s.inbox.queue)
      case None => 0
      case Some(n) => if n > s.app.window.maxSize then s.app.window.maxSize else n
  }

  /**
   * A write waits exactly when it has no window and no credit is queued in an open channel, or when
   * the outgoing channel is full. Otherwise it accepts as much as the window it finds allows.
   */
  lemma WriteAnswer(s: StreamState, buf: seq<Byte>, full: bool)
    requires AllStreamFrames(s.inbox.queue) && s.app.writeClosed.None?
    ensures var r := Write(s, buf, full).0;
      if s.app.window.size == 0 && NoCredit(s.inbox.queue) && !s.inbox.txClosed then r == Pending
      else if !OpenSink(s) then exists e :: Reports(s, e) && r == Ready(Err(e))
      else if full then r == Pending
      else r == Ready(Ok(Acceptable(WindowFound(s), |buf|)))
  {
    if s.app.window.size > 0 {
      WriteAccepts(s, buf, full);
    } else {
      var d := CreditOrNone(s.inbox.queue);
      if NoCredit(s.inbox.queue) {
        var m := WriteWithoutCredit(s, buf, full);
      } else {
        var m, m' := WriteAfterCredit(s, buf, full, d);
      }
    }
  }

  /** The input: without window, a write behind the end of the channel succeeds with nothing, whatever it is given. */
  lemma WriteBehindEndAcceptsNothing(s: StreamState, buf: seq<Byte>)
    requires s.app.writeClosed.None? && OpenSink(s) && s.app.window.size == 0
    requires s.inbox.queue == [] && s.inbox.txClosed
    ensures Write(s, buf, false).0 == Ready(Ok(0))
    ensures SentOne(s, Write(s, buf, false).1, Frame(
      Header(0, HeaderType.Data, Flags(false, s.app.needsSyn), 0), Body.Data([])))
  {
    var m := WriteWithoutCredit(s, buf, false);
    assert buf[..0] == [];
  }

  /** A write accepts nothing exactly without window, at the end of the channel or with credit for nothing. */
  lemma EmptyWriteExactly(s: StreamState, buf: seq<Byte>)
    requires AllStreamFrames(s.inbox.queue) && s.app.writeClosed.None? && OpenSink(s)
    requires 0 < |buf| <= U32_MAX
    ensures Write(s, buf, false).0 == Ready(Ok(0)) <==>
      s.app.window.size == 0 && if NoCredit(s.inbox.queue) then s.inbox.txClosed else WindowFound(s) == 0
  {
    WriteAnswer(s, buf, false);
    var d := CreditOrNone(s.inbox.queue);
  }

  // ----- Shutting down -----

  /** The last part of a shutdown: the error of the sink, or a wait until all is sent. */
  predicate Flushes(s: StreamState, blocked: bool, r: Poll<Result<(), Error>>, t: StreamState) {
    if s.code != 0 then
      exists e :: Coded(e, s.code) && r == Ready(Err(e)) && t == s.(app := s.app.(writeClosed := Some(e)))
    else
      t == s && r == if blocked && !s.outbox.txClosed && !s.outbox.rxClosed then Pending else Ready(Ok(()))
  }

  lemma FlushFlushes(s: StreamState, blocked: bool)
    ensures Flushes(s, blocked, Flush(s, blocked).0, Flush(s, blocked).1)
  {
    EveryCodeIsAnError(s.code);
  }

  /**
   * The first shutdown sends one frame, an empty FIN, and closes the stream for writing; it waits
   * while the channel is full, and fails through a closed sink.
   */
  lemma ShutdownSendsFin(s: StreamState, full: bool, blocked: bool)
    requires s.app.writeClosed.None?
    ensures var (r, t) := Shutdown(s, full, blocked);
      if !OpenSink(s) then
        exists e :: Reports(s, e) && r == Ready(Err(e))
          && t.app == s.app.(writeClosed := Some(e)) && t.inbox == s.inbox && SentNothing(s, t, true)
      else if full then r == Pending && t == s
      else
        && t.app == s.app.(writeClosed := Some(StreamClosed)) && t.inbox == s.inbox
        && SentOne(s, t, Frame(Header(0, HeaderType.Data, Flags(true, false), 0), Body.Data([])))
        && r == if blocked then Pending else Ready(Ok(()))
  {
    SinkReports(s);
  }

  /** Every later one sends nothing: it reports the error of the sink, or waits until all is sent. */
  lemma ShutdownOnce(s: StreamState, full: bool, blocked: bool)
    requires s.app.writeClosed.Some?
    ensures var (r, t) := Shutdown(s, full, blocked); Flushes(s, blocked, r, t) && t.outbox == s.outbox
  {
    FlushFlushes(s, blocked);
  }

  // ----- A new stream -----

  /** A new stream has its whole window, nothing to read, and owes a SYN exactly on its opener's side. */
  lemma NewStream(window: nat, needsSyn: bool)
    ensures var a := NewApp(window, needsSyn);
      && a.window.size == window && a.window.maxSize == window && a.readBuf == []
      && a.writeClosed == None && !a.dataReadClosed && (a.needsSyn <==> needsSyn)
  {}
}
