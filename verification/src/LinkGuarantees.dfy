/** What the invariant of a stream says to the applications at its two ends. */
module LinkGuarantees {
  import opened Wrappers
  import opened Frames
  import opened Flows
  import opened StreamOutput
  import opened Windows
  import opened Streams
  import opened Answers
  import opened Managers
  import opened Links
  import opened LinkProofs
  import opened LinkSteps
  import opened LinkDelivery
  import opened LinkEmission

  function ReadBuf(e: End): seq<Byte> {
    if e.slot.app.Some? then e.slot.app.value.readBuf else []
  }

  /** Bytes accepted at `x` that `y` has not read, in the order in which they will be read. */
  function OnTheWay(x: End, y: End): seq<Byte> {
    ReadBuf(y) + PayloadOf(y.slot.inbox.queue) + PayloadOf(Held(y)) + PayloadOf(y.incoming)
      + PayloadOf(x.slot.outbox.queue)
  }

  // ----- Delivery -----

  lemma ReadsArePrefix(x: End, y: End, opener: bool, window: nat)
    requires PairInv(x, y, opener, window)
    ensures y.slot.read <= x.slot.accepted
  {
    assert y.slot.read <= y.slot.delivered <= PayloadOf(x.slot.emitted) <= x.slot.accepted;
  }

  lemma HealthyHandles(x: End, y: End, opener: bool, window: nat)
    requires PairInv(x, y, opener, window) && Healthy(x, y)
    ensures x.slot.code == 0 && y.slot.code == 0
    ensures x.slot.known ==> x.slot.entry.Some?
    ensures x.resets == 0 && y.resets == 0
  {}

  lemma Regroup<T>(a: seq<T>, b: seq<T>, c: seq<T>, d: seq<T>, e: seq<T>, f: seq<T>)
    ensures a + b + c + (d + e) + f == a + (b + c + d + e + f)
  {}

  lemma NothingIsLost(x: End, y: End, opener: bool, window: nat)
    requires PairInv(x, y, opener, window) && Healthy(x, y)
    ensures x.slot.accepted == y.slot.read + OnTheWay(x, y)
  {
    HealthyHandles(x, y, opener, window);
    Concat(Held(y), y.incoming);
    assert x.slot.accepted == PayloadOf(x.slot.emitted) + PayloadOf(x.slot.outbox.queue);
    assert PayloadOf(x.slot.emitted) == y.slot.delivered + PayloadOf(InTransit(y));
    assert y.slot.delivered == y.slot.read + ReadBuf(y) + PayloadOf(y.slot.inbox.queue) by {
      if y.slot.app.None? { assert y.slot == BLANK; }
    }
    Regroup(y.slot.read, ReadBuf(y), PayloadOf(y.slot.inbox.queue), PayloadOf(Held(y)), PayloadOf(y.incoming),
            PayloadOf(x.slot.outbox.queue));
  }

  // ----- End of stream -----

  /** Once the application has been told of the peer's FIN, it has or can read everything. */
  lemma FinIsComplete(x: End, y: End, opener: bool, window: nat)
    requires PairInv(x, y, opener, window) && y.slot.app.Some? && y.slot.app.value.finSeen
    ensures x.slot.accepted == y.slot.read + ReadBuf(y)
    ensures HasFin(x.slot.emitted)
  {
    QuietMeansEmpty(y.slot.inbox.queue);
    assert y.slot.read + ReadBuf(y) + [] == y.slot.read + ReadBuf(y);
    assert y.slot.finDelivered && y.slot.delivered == PayloadOf(x.slot.emitted) == x.slot.accepted;
  }

  /** Any other end of stream comes after a reset, or after the reader has ended. */
  lemma OtherEnds(x: End, y: End, opener: bool, window: nat)
    requires PairInv(x, y, opener, window)
    requires y.slot.app.Some? && y.slot.app.value.dataReadClosed && !y.slot.app.value.finSeen
    ensures y.stopped || y.slot.code != 0
  {}

  /** Nothing will come any more: the end was seen, or only it is left in the channel. */
  predicate EndsRead(s: StreamState) {
    || s.app.dataReadClosed
    || (PayloadOf(s.inbox.queue) == [] && (HasFin(s.inbox.queue) || s.inbox.txClosed))
  }

  /** What a read of a stream with something in its buffer returns. */
  lemma BufferedRead(s: StreamState, remaining: nat, full: bool)
    requires s.app.readBuf != [] && remaining > 0 && AllStreamFrames(s.inbox.queue)
    ensures var r := Read(s, remaining, full).0;
      && (r == Ready([]) <==> Min(|s.app.readBuf|, remaining) % (U32_MAX + 1) == 0)
      && (SendError(s.code, s.outbox).Some? || !full ==> r.Ready?)
      && (SendError(s.code, s.outbox).None? && full ==> r == Pending || r == Ready([]))
  {}

  /** A read with an empty buffer handles the first frame and goes on. */
  lemma ReadHandlesFirst(s: StreamState, remaining: nat, full: bool)
    requires s.inbox.queue != [] && AllStreamFrames(s.inbox.queue)
    requires s.app.readBuf == [] && !s.app.dataReadClosed
    requires s.inbox.queue[0].IsFin() ==> s.inbox.queue[0].header.typ == HeaderType.Data
    ensures AllStreamFrames(AfterFirst(s).inbox.queue)
    ensures Read(s, remaining, full) == Read(AfterFirst(s), remaining, full)
  {
    var s1 := AfterFirst(s);
    if s.inbox.queue[0].header.typ == HeaderType.Data {
      assert RecvType(s, HeaderType.Data) == (true, s1);
    } else {
      assert s.inbox.queue[0] in s.inbox.queue;
      assert RecvType(s, HeaderType.Data) == RecvType(s1, HeaderType.Data);
      assert s1.app.readBuf == [] && !s1.app.dataReadClosed;
    }
  }

  /** What is left after the first frame. */
  lemma FirstOfQueue(q: seq<Frame>)
    requires q != [] && AllSound(q) && Quiet(false, q)
    ensures PayloadOf(q) == q[0].Payload() + PayloadOf(q[1..])
    ensures HasFin(q) <==> q[0].IsFin() || HasFin(q[1..])
    ensures Sound(q[0]) && AllSound(q[1..]) && Quiet(q[0].IsFin(), q[1..])
    ensures q[0].IsFin() ==> PayloadOf(q) == []
  {
    assert q == [q[0]] + q[1..];
    if q[0].IsFin() {
      QuietMeansEmpty(q[1..]);
    }
  }

  /** What a read of a stream with an empty buffer returns: all frames matter up to the first data or FIN. */
  lemma {:induction false} UnbufferedRead(s: StreamState, remaining: nat, full: bool)
    requires s.app.readBuf == [] && !s.app.dataReadClosed && remaining > 0
    requires AllStreamFrames(s.inbox.queue) && AllSound(s.inbox.queue) && Quiet(false, s.inbox.queue)
    ensures var r := Read(s, remaining, full).0;
      && (r == Ready([]) <==> EndsRead(s))
      && (SendError(s.code, s.outbox).Some? || !full ==>
            (r == Pending <==> PayloadOf(s.inbox.queue) == [] && !EndsRead(s)))
      && (SendError(s.code, s.outbox).None? && full ==> r == Pending || r == Ready([]))
    decreases |s.inbox.queue|
  {
    if s.inbox.queue != [] {
      var f, s1 := s.inbox.queue[0], AfterFirst(s);
      FirstOfQueue(s.inbox.queue);
      ReadHandlesFirst(s, remaining, full);
      if !f.IsFin() {
        assert s1.app.readBuf == f.Payload();
        if f.Payload() != [] {
          BufferedRead(s1, remaining, full);
        } else {
          UnbufferedRead(s1, remaining, full);
        }
      }
    }
  }

  /** What the invariant says about the channel to a stream. */
  lemma InputIsQuiet(e: End, opener: bool, window: nat)
    requires EndInv(e, opener, window) && e.slot.app.Some?
    ensures AllSound(e.slot.inbox.queue) && AllStreamFrames(e.slot.inbox.queue)
    ensures !e.slot.app.value.dataReadClosed ==> Quiet(false, e.slot.inbox.queue)
  {}

  /** An empty read, exactly, from the state before it. */
  lemma EmptyRead(e: End, opener: bool, window: nat, remaining: nat, full: bool)
    requires EndInv(e, opener, window) && e.slot.app.Some? && remaining > 0
    ensures AllStreamFrames(e.slot.inbox.queue)
    ensures var buffered := e.slot.app.value.readBuf;
      Read(e.slot.State(), remaining, full).0 == Ready([]) <==>
        if buffered != [] then Min(|buffered|, remaining) % (U32_MAX + 1) == 0 else EndsRead(e.slot.State())
  {
    InputIsQuiet(e, opener, window);
    if e.slot.app.value.readBuf != [] {
      BufferedRead(e.slot.State(), remaining, full);
    } else if !e.slot.app.value.dataReadClosed {
      UnbufferedRead(e.slot.State(), remaining, full);
    }
  }

  /** Where the end of a stream comes from. */
  lemma EndOfStream(x: End, y: End, opener: bool, window: nat)
    requires PairInv(x, y, opener, window) && y.slot.app.Some?
    requires ReadBuf(y) == [] && EndsRead(y.slot.State())
    ensures (y.slot.finDelivered && x.slot.accepted == y.slot.read) || y.stopped || y.slot.code != 0
  {
    var s := y.slot;
    if s.app.value.dataReadClosed && !s.app.value.finSeen {
      OtherEnds(x, y, opener, window);
    } else if s.finDelivered {
      if s.app.value.finSeen { QuietMeansEmpty(s.inbox.queue); }
      assert s.read + [] + [] == s.read;
      assert s.delivered == PayloadOf(x.slot.emitted) == x.slot.accepted;
    }
  }

  /** On a healthy stream the end is the peer's FIN, with everything read. */
  lemma HealthyEndOfStream(x: End, y: End, opener: bool, window: nat)
    requires PairInv(x, y, opener, window) && Healthy(x, y) && y.slot.app.Some?
    ensures ReadBuf(y) == [] && EndsRead(y.slot.State()) <==> y.slot.finDelivered && x.slot.accepted == y.slot.read
  {
    HealthyHandles(x, y, opener, window);
    var s := y.slot;
    if ReadBuf(y) == [] && EndsRead(s.State()) {
      EndOfStream(x, y, opener, window);
    }
    if s.finDelivered && x.slot.accepted == s.read {
      assert s.delivered == PayloadOf(x.slot.emitted) == x.slot.accepted;
      assert |s.delivered| == |s.read| + |ReadBuf(y)| + |PayloadOf(s.inbox.queue)|;
    }
  }

  /** A stream never holds more bytes than its window. */
  lemma BufferFitsWindow(x: End, y: End, opener: bool, window: nat)
    requires PairInv(x, y, opener, window) && y.slot.app.Some?
    ensures |ReadBuf(y)| + |PayloadOf(y.slot.inbox.queue)| <= window
  {
    assert |y.slot.delivered| <= |PayloadOf(x.slot.emitted)| <= |x.slot.accepted|;
    assert |x.slot.accepted| <= window + CreditOf(y.slot.emitted);
    assert |y.slot.delivered| == |y.slot.read| + |ReadBuf(y)| + |PayloadOf(y.slot.inbox.queue)|;
  }

  /** A reset stream still gives out what it holds; then its end shows once its handle has left the map. */
  lemma ReadAfterCode(e: End, opener: bool, window: nat, remaining: nat, full: bool)
    requires EndInv(e, opener, window) && e.slot.app.Some? && e.slot.code != 0 && remaining > 0
    ensures AllStreamFrames(e.slot.inbox.queue)
    ensures var s := e.slot.State();
      var r := Read(s, remaining, full).0;
      if ReadBuf(e) != [] then r.Ready? && (r.value == [] <==> Min(|ReadBuf(e)|, remaining) % (U32_MAX + 1) == 0)
      else if !s.app.dataReadClosed && PayloadOf(s.inbox.queue) != [] then r.Ready? && r.value != []
      else r == if EndsRead(s) then Ready([]) else Pending
    ensures e.slot.entry.None? ==> e.slot.inbox.txClosed
    ensures e.slot.entry.Some? && !e.stopped ==> !e.slot.inbox.txClosed
  {
    InputIsQuiet(e, opener, window);
    EndsAreSane(e, opener, window);
    if e.slot.app.value.readBuf != [] {
      BufferedRead(e.slot.State(), remaining, full);
    } else if !e.slot.app.value.dataReadClosed {
      UnbufferedRead(e.slot.State(), remaining, full);
    }
  }

  /** A stream that still has its application can send exactly while it has no close code. */
  lemma SinkIsOpen(e: End, opener: bool, window: nat)
    requires EndInv(e, opener, window) && e.slot.app.Some?
    ensures OpenSink(e.slot.State()) <==> e.slot.code == 0
  {
    CodeStays(e, opener);
  }

  /** A read waits exactly when there is nothing to give and no end, or no room to send credit. */
  lemma ReadWaits(e: End, opener: bool, window: nat, remaining: nat, full: bool)
    requires EndInv(e, opener, window) && e.slot.app.Some? && remaining > 0
    ensures AllStreamFrames(e.slot.inbox.queue)
    ensures var s := e.slot.State();
      var r := Read(s, remaining, full).0;
      if full && e.slot.code == 0 then r == Pending || r == Ready([])
      else r == Pending <==> s.app.readBuf == [] && PayloadOf(s.inbox.queue) == [] && !EndsRead(s)
  {
    InputIsQuiet(e, opener, window);
    EndsAreSane(e, opener, window);
    if e.slot.app.value.readBuf != [] {
      BufferedRead(e.slot.State(), remaining, full);
    } else if !e.slot.app.value.dataReadClosed {
      UnbufferedRead(e.slot.State(), remaining, full);
    }
  }

  lemma SkipEmpty(q: seq<Frame>, d: nat)
    requires q != [] && q[0].Payload() == [] && !q[0].IsFin() && d < |q| - 1
    requires FirstEnding(false, q[1..], d) && PayloadOf(q[1..][..d]) == []
    ensures FirstEnding(false, q, d + 1) && PayloadOf(q[..d + 1]) == [] && q[d + 1] == q[1..][d]
  {
    forall i | 0 <= i < d + 1 ensures !EndsWait(false, q, i) {
      if i > 0 {
        WaitShifts(false, q, i - 1);
      }
    }
    WaitShifts(false, q, d);
    assert q[..d + 1][0] == q[0] && q[..d + 1][1..] == q[1..][..d];
  }

  /** The first bytes queued are those of the frame that ends the wait of a read. */
  lemma {:induction false} FirstBytes(q: seq<Frame>) returns (d: nat)
    requires AllSound(q) && Quiet(false, q) && PayloadOf(q) != []
    ensures FirstEnding(false, q, d) && q[d].Payload() != [] && PayloadOf(q[..d]) == []
    ensures |q[d].Payload()| <= LENGTH_MAX
  {
    FirstOfQueue(q);
    if q[0].Payload() != [] {
      d := 0;
    } else {
      var k := FirstBytes(q[1..]);
      SkipEmpty(q, k);
      d := k + 1;
    }
  }

  /** The answer is the start of the first bytes queued, as far as the caller has room. */
  predicate GivesFirstBytes(q: seq<Frame>, remaining: nat, r: Poll<seq<Byte>>) {
    exists d :: 0 <= d < |q| && q[d].Payload() != [] && PayloadOf(q[..d]) == []
      && r == Ready(q[d].Payload()[..Min(|q[d].Payload()|, remaining)])
  }

  lemma BufferedReadGives(s: StreamState, remaining: nat, full: bool)
    requires s.app.readBuf != [] && AllStreamFrames(s.inbox.queue) && (OpenSink(s) ==> !full)
    requires 0 < remaining <= WNDINC_MAX
    ensures Read(s, remaining, full).0 == Ready(s.app.readBuf[..Min(|s.app.readBuf|, remaining)])
  {
    BufferedReadServes(s, remaining, full);
    ServingGives(s, s.app.readBuf, remaining, full, Read(s, remaining, full).0, Read(s, remaining, full).1);
  }

  lemma ReadGivesFrame(s: StreamState, remaining: nat, full: bool, d: nat)
    requires s.app.readBuf == [] && !s.app.dataReadClosed && (OpenSink(s) ==> !full)
    requires AllStreamFrames(s.inbox.queue) && FirstEnding(false, s.inbox.queue, d)
    requires s.inbox.queue[d].Payload() != [] && 0 < remaining <= WNDINC_MAX
    ensures var p := s.inbox.queue[d].Payload(); Read(s, remaining, full).0 == Ready(p[..Min(|p|, remaining)])
  {
    UnbufferedReadServes(s, remaining, full, d);
    ServingGives(s, s.inbox.queue[d].Payload(), remaining, full,
                 Read(s, remaining, full).0, Read(s, remaining, full).1);
  }

  lemma QueuedReadGives(s: StreamState, remaining: nat, full: bool)
    requires s.app.readBuf == [] && !s.app.dataReadClosed && (OpenSink(s) ==> !full)
    requires AllStreamFrames(s.inbox.queue) && AllSound(s.inbox.queue) && Quiet(false, s.inbox.queue)
    requires PayloadOf(s.inbox.queue) != [] && 0 < remaining <= WNDINC_MAX
    ensures GivesFirstBytes(s.inbox.queue, remaining, Read(s, remaining, full).0)
  {
    var d := FirstBytes(s.inbox.queue);
    ReadGivesFrame(s, remaining, full, d);
  }

  /** What a read returns that has room for its credit, or needs none. */
  lemma ReadGives(e: End, opener: bool, window: nat, remaining: nat, full: bool)
    requires EndInv(e, opener, window) && e.slot.app.Some? && (full ==> e.slot.code != 0)
    requires 0 < remaining <= WNDINC_MAX
    ensures AllStreamFrames(e.slot.inbox.queue)
    ensures var s := e.slot.State();
      var r := Read(s, remaining, full).0;
      if s.app.readBuf != [] then r == Ready(s.app.readBuf[..Min(|s.app.readBuf|, remaining)])
      else if !s.app.dataReadClosed && PayloadOf(s.inbox.queue) != [] then
        GivesFirstBytes(s.inbox.queue, remaining, r)
      else r == if EndsRead(s) then Ready([]) else Pending
  {
    InputIsQuiet(e, opener, window);
    SinkIsOpen(e, opener, window);
    var s := e.slot.State();
    if s.app.readBuf != [] {
      BufferedReadGives(s, remaining, full);
    } else if !s.app.dataReadClosed && PayloadOf(s.inbox.queue) != [] {
      QueuedReadGives(s, remaining, full);
    } else {
      ReadWaits(e, opener, window, remaining, full);
      EmptyRead(e, opener, window, remaining, full);
    }
  }

  // ----- The end of the output -----

  /** A stream closed for writing and not reset has sent its FIN. */
  lemma ShutMeansFin(x: End, opener: bool, window: nat)
    requires EndInv(x, opener, window) && x.slot.app.Some? && x.slot.app.value.writeClosed.Some? && x.slot.code == 0
    ensures HasFin(x.slot.Output()) && (x.slot.outbox.queue == [] ==> HasFin(x.slot.emitted))
  {
    OutputFin(x.slot);
  }

  lemma FinIsWithin(fs: seq<Frame>)
    requires HasFin(fs)
    ensures FinWithin(fs, |fs|)
  {
    var f :| f in fs && f.IsFin();
    var i :| 0 <= i < |fs| && fs[i] == f;
  }

  lemma HandledFinIsDelivered(x: End, y: End, window: nat)
    requires Direction(x, y, window) && Healthy(x, y) && y.slot.known && InTransit(y) == []
    requires FinWithin(x.slot.emitted, |x.slot.emitted|)
    ensures y.slot.finDelivered
  {
    assert Handled(x, y) == |x.slot.emitted|;
  }

  /** When all its output has been handled, a healthy peer has got the FIN. */
  lemma FinGetsThrough(x: End, y: End, opener: bool, window: nat)
    requires PairInv(x, y, opener, window) && Healthy(x, y) && y.slot.known
    requires x.slot.app.Some? && x.slot.app.value.writeClosed.Some?
    requires x.slot.outbox.queue == [] && InTransit(y) == []
    ensures y.slot.finDelivered
  {
    HealthyHandles(x, y, opener, window);
    ShutMeansFin(x, opener, window);
    FinIsWithin(x.slot.emitted);
    HandledFinIsDelivered(x, y, window);
  }

  lemma FinalRead(x: End, y: End, opener: bool, window: nat, remaining: nat, full: bool)
    requires PairInv(x, y, opener, window) && Healthy(x, y) && y.slot.app.Some? && remaining > 0
    requires OnTheWay(x, y) == [] && y.slot.finDelivered
    ensures AllStreamFrames(y.slot.inbox.queue)
    ensures Read(y.slot.State(), remaining, full).0 == Ready([]) && x.slot.accepted == y.slot.read
  {
    NothingIsLost(x, y, opener, window);
    assert y.slot.read + [] == y.slot.read;
    HealthyEndOfStream(x, y, opener, window);
    EmptyRead(y, !opener, window, remaining, full);
  }

  // ----- Credit -----

  /** The receiving manager's window always has room for everything on its way to it. */
  lemma WindowHasRoom(x: End, y: End, opener: bool, window: nat)
    requires PairInv(x, y, opener, window) && y.slot.entry.Some? && y.slot.code == 0 && !Blocked(y)
    ensures |PayloadOf(Held(y))| + |PayloadOf(y.incoming)| <= y.slot.entry.value.window + Shrunk(y)
  {
    Concat(Held(y), y.incoming);
    assert |y.slot.delivered| + |PayloadOf(InTransit(y))| == |PayloadOf(x.slot.emitted)| <= |x.slot.accepted|;
    assert |x.slot.accepted| <= window + CreditOf(y.slot.emitted);
  }

  // ----- Output -----

  lemma OutputGrammar(x: End, y: End, opener: bool, window: nat)
    requires PairInv(x, y, opener, window)
    ensures Grammar(x.slot.emitted, opener)
  {
    GrammarPrefix(x.slot.emitted, x.slot.outbox.queue, opener);
  }

  /** A removed stream has sent a FIN or has been reset. */
  lemma FinOrReset(x: End, y: End, opener: bool, window: nat)
    requires PairInv(x, y, opener, window)
    ensures x.slot.known && x.slot.entry.None? ==> (HasFin(x.slot.emitted) || x.slot.code != 0)
  {}

  /** At the end of a dropped stream's output the manager adds a FIN exactly when there was none. */
  lemma ManagerFin(x: End, y: End, opener: bool, window: nat, id: StreamID)
    requires PairInv(x, y, opener, window) && CanEmit(x.slot) && x.slot.outbox.queue == []
    ensures EmissionOf(x.slot, id).frame.Some? <==> x.slot.code == 0 && !HasFin(x.slot.emitted)
    ensures EmissionOf(x.slot, id).entry.None?
  {}

  // ----- Reset -----

  /** `e'` is `e` as far as a reset goes. */
  predicate SameOutput(e: End, e': End) {
    e'.slot.known && e'.slot.code == e.slot.code && e'.slot.emitted == e.slot.emitted
  }

  /** What the invariant says about a reset stream: no FIN will follow, no SYN will arrive. */
  predicate ResetEnd(e: End) {
    && e.slot.known && e.slot.code != 0
    && (e.slot.entry.Some? ==> !e.slot.entry.value.needsFin)
    && (e.phase == Idle && !e.stopped && e.incoming != [] ==> !e.incoming[0].IsSyn())
  }

  lemma CodeMeansReset(x: End, y: End, opener: bool, window: nat)
    requires PairInv(x, y, opener, window) && x.slot.known && x.slot.code != 0
    ensures ResetEnd(x)
  {
    if x.phase == Idle && !x.stopped && x.incoming != [] && x.incoming[0].IsSyn() {
      SynIsFresh(x, y, opener, window);
    }
  }

  lemma ReadKeepsOutput(s: Slot, remaining: nat, full: bool)
    requires s.code != 0
    ensures var t := SlotRead(s, remaining, full);
      t.known == s.known && t.code == s.code && t.emitted == s.emitted
  {
    if s.app.Some? && AllStreamFrames(s.inbox.queue) {
      var _ := ReadMeaning(s.State(), remaining, full);
    }
  }

  lemma WriteKeepsOutput(s: Slot, buf: seq<Byte>, full: bool)
    requires s.code != 0
    ensures var t := SlotWrite(s, buf, full);
      t.known == s.known && t.code == s.code && t.emitted == s.emitted
  {}

  lemma ShutdownKeepsOutput(s: Slot, full: bool, blocked: bool)
    requires s.code != 0
    ensures var t := SlotShutdown(s, full, blocked);
      t.known == s.known && t.code == s.code && t.emitted == s.emitted
  {}

  lemma DeliveryKeepsOutput(s: Slot, p: Parcel, full: bool)
    requires s.code != 0
    ensures SlotDeliver(s, p, full).code == s.code && SlotDeliver(s, p, full).emitted == s.emitted
    ensures SlotDeliver(s, p, full).known == s.known
  {}

  lemma EmissionKeepsOutput(s: Slot, id: StreamID)
    requires CanEmit(s) && s.code != 0 && !s.entry.value.needsFin
    ensures SlotEmit(s, id).code == s.code && SlotEmit(s, id).emitted == s.emitted
    ensures SlotEmit(s, id).known == s.known && EmissionOf(s, id).frame.None?
  {}

  lemma ReaderKeepsOutput(x: End, window: nat, ok: bool, full: bool)
    requires ResetEnd(x)
    ensures SameOutput(x, ReceiveNext(x, window, ok)) && SameOutput(x, AcceptNext(x, ok))
    ensures SameOutput(x, DeliverNext(x, full))
  {
    if x.phase.Sending? {
      DeliveryKeepsOutput(x.slot, x.phase.parcel, full);
    }
  }

  /** A reset stream stays reset and puts out nothing more, whatever its own end does. */
  lemma ResetStays(id: StreamID, window: nat, x: End, y: End, opener: bool, act: Act, x': End, y': End)
    requires ResetEnd(x) && (x', y') == Step(id, window, x, y, opener, act)
    ensures SameOutput(x, x')
  {
    match act
    case ReadBytes(remaining, full) => ReadKeepsOutput(x.slot, remaining, full);
    case WriteBytes(buf, full) => WriteKeepsOutput(x.slot, buf, full);
    case ShutDown(full, blocked) => ShutdownKeepsOutput(x.slot, full, blocked);
    case EmitNext => if CanEmit(x.slot) { EmissionKeepsOutput(x.slot, id); }
    case Receive(ok) => ReaderKeepsOutput(x, window, ok, false);
    case Accept(ok) => ReaderKeepsOutput(x, window, ok, false);
    case Attempted(full) => ReaderKeepsOutput(x, window, false, full);
    case _ =>
  }

  lemma PeerOutputStays(id: StreamID, window: nat, x: End, y: End, opener: bool, act: Act, x': End, y': End)
    requires (x', y') == Step(id, window, x, y, opener, act)
    ensures y'.slot == y.slot
  {}
}
