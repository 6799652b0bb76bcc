/**
 * What holds in every session that can come about between a client and a server, whatever the
 * applications do and however the steps interleave.
 */
module Guarantees {
  import opened Wrappers
  import opened Frames
  import opened Flows
  import opened StreamOutput
  import opened Windows
  import opened Streams
  import opened Answers
  import opened Managers
  import opened Links
  import opened LinkProofs
  import opened LinkSteps
  import opened LinkEmission
  import opened LinkGuarantees
  import opened LinkCredit
  import opened LinkAccounts
  import opened Sessions
  import opened SessionSteps
  import Codec

  /** A session some run leads to, with no more opens than there are ids. */
  ghost predicate Reachable(s: Session) {
    exists window, clientLimit, serverLimit, steps ::
      && IdsSuffice(NewSession(window, clientLimit, serverLimit), steps)
      && s == RunSession(NewSession(window, clientLimit, serverLimit), steps)
  }

  lemma ReachableIsSafe(s: Session)
    requires Reachable(s)
    ensures SessionInv(s)
  {
    var window, clientLimit, serverLimit, steps :|
      && IdsSuffice(NewSession(window, clientLimit, serverLimit), steps)
      && s == RunSession(NewSession(window, clientLimit, serverLimit), steps);
    NewSessionInv(window, clientLimit, serverLimit);
    SessionRunKeeps(NewSession(window, clientLimit, serverLimit), steps);
  }

  // ----- Both directions at once -----

  /** One side of a session: the client, or the server. */
  function Side(s: Session, client: bool): Endpoint {
    if client then s.client else s.server
  }

  /** One end of stream `id`. */
  function EndAt(s: Session, client: bool, id: StreamID): End {
    EndOf(Side(s, client), Side(s, !client), id)
  }

  predicate HealthyStream(s: Session, id: StreamID) {
    Healthy(EndAt(s, true, id), EndAt(s, false, id))
  }

  lemma SideIsSafe(s: Session, client: bool)
    requires Reachable(s)
    ensures Joint(Side(s, client), Side(s, !client), s.window) && Side(s, client).client == client
  {
    ReachableIsSafe(s);
    JointSymmetric(s.client, s.server, s.window);
  }

  lemma StreamIsSafe(s: Session, client: bool, id: StreamID)
    requires Reachable(s)
    ensures PairInv(EndAt(s, client, id), EndAt(s, !client, id), OpensHere(Side(s, client), id), s.window)
  {
    SideIsSafe(s, client);
    SafeAt(Side(s, client), Side(s, !client), s.window, id);
  }

  // ----- Delivery -----

  /**
   * For every stream and direction: what has been read is a prefix of what was accepted. While the
   * stream is healthy, what was accepted is exactly what was read, then what lies in the read
   * buffer, in the channel to the stream, with the reader, on the byte stream and in the channel
   * to the manager, in this order.
   */
  lemma EndToEndDelivery(s: Session, fromClient: bool, id: StreamID)
    requires Reachable(s)
    ensures SlotOf(Side(s, !fromClient), id).read <= SlotOf(Side(s, fromClient), id).accepted
    ensures HealthyStream(s, id) ==>
      SlotOf(Side(s, fromClient), id).accepted
        == SlotOf(Side(s, !fromClient), id).read + OnTheWay(EndAt(s, fromClient, id), EndAt(s, !fromClient, id))
  {
    StreamIsSafe(s, fromClient, id);
    var x, y := EndAt(s, fromClient, id), EndAt(s, !fromClient, id);
    ReadsArePrefix(x, y, OpensHere(Side(s, fromClient), id), s.window);
    if HealthyStream(s, id) {
      NothingIsLost(x, y, OpensHere(Side(s, fromClient), id), s.window);
    }
  }

  /** When the end of the stream was the peer's FIN, every byte ever accepted has been or can be read. */
  lemma CleanEndIsComplete(s: Session, fromClient: bool, id: StreamID)
    requires Reachable(s)
    requires SlotOf(Side(s, !fromClient), id).app.Some? && SlotOf(Side(s, !fromClient), id).app.value.finSeen
    ensures var y := SlotOf(Side(s, !fromClient), id);
      SlotOf(Side(s, fromClient), id).accepted == y.read + y.app.value.readBuf
  {
    StreamIsSafe(s, fromClient, id);
    FinIsComplete(EndAt(s, fromClient, id), EndAt(s, !fromClient, id), OpensHere(Side(s, fromClient), id), s.window);
  }

  /** Streams are only ever sent data and credit. */
  lemma StreamsReceiveOnlyStreamFrames(s: Session, client: bool, id: StreamID)
    requires Reachable(s)
    ensures AllStreamFrames(SlotOf(Side(s, client), id).inbox.queue)
  {
    StreamIsSafe(s, client, id);
    EndsAreSane(EndAt(s, client, id), OpensHere(Side(s, client), id), s.window);
  }

  lemma SlotsAreKnown(s: Session, client: bool, id: StreamID)
    requires Reachable(s)
    ensures id in Side(s, client).slots <==> SlotOf(Side(s, client), id).known
  {
    SideIsSafe(s, client);
  }

  /** A stream's buffer never holds more than its window, whatever the caller leaves unread. */
  lemma BuffersFitWindow(s: Session, client: bool, id: StreamID)
    requires Reachable(s) && SlotOf(Side(s, client), id).app.Some?
    ensures |SlotOf(Side(s, client), id).app.value.readBuf| <= s.window
  {
    StreamIsSafe(s, !client, id);
    BufferFitsWindow(EndAt(s, !client, id), EndAt(s, client, id), OpensHere(Side(s, !client), id), s.window);
  }

  /**
   * A read with room returns nothing exactly when the buffer is empty and only the end of the stream
   * is left, or when the amount to return is a multiple of 2^32.
   */
  lemma EmptyReadExactly(s: Session, client: bool, id: StreamID, remaining: nat, full: bool)
    requires Reachable(s) && SlotOf(Side(s, client), id).app.Some? && remaining > 0
    ensures var y := SlotOf(Side(s, client), id);
      var buffered := y.app.value.readBuf;
      && AllStreamFrames(y.inbox.queue)
      && (Read(y.State(), remaining, full).0 == Ready([]) <==>
            if buffered != [] then Min(|buffered|, remaining) % (U32_MAX + 1) == 0 else EndsRead(y.State()))
  {
    StreamIsSafe(s, client, id);
    EmptyRead(EndAt(s, client, id), OpensHere(Side(s, client), id), s.window, remaining, full);
  }

  /** No read is a multiple of 2^32 bytes if the caller's room or the window is smaller. */
  predicate Moderate(s: Session, remaining: nat) {
    0 < remaining && (remaining <= U32_MAX || s.window <= U32_MAX)
  }

  /** With less room or a smaller window than 2^32 bytes, exactly the end of the stream reads empty. */
  lemma ModerateReadsEndExactly(s: Session, client: bool, id: StreamID, remaining: nat, full: bool)
    requires Reachable(s) && SlotOf(Side(s, client), id).app.Some? && Moderate(s, remaining)
    ensures var y := SlotOf(Side(s, client), id);
      && AllStreamFrames(y.inbox.queue)
      && (Read(y.State(), remaining, full).0 == Ready([]) <==> y.app.value.readBuf == [] && EndsRead(y.State()))
  {
    EmptyReadExactly(s, client, id, remaining, full);
    BuffersFitWindow(s, client, id);
  }

  /**
   * A read that returns nothing although there was room means one of four things: the peer's FIN
   * has arrived and everything it ever accepted has been read; this side's reader has ended; the
   * stream was reset; or the amount to return was a multiple of 2^32.
   */
  lemma EmptyReadMeaning(s: Session, client: bool, id: StreamID, remaining: nat, full: bool)
    requires Reachable(s) && SlotOf(Side(s, client), id).app.Some? && remaining > 0
    ensures var y := SlotOf(Side(s, client), id);
      var buffered := y.app.value.readBuf;
      && AllStreamFrames(y.inbox.queue)
      && (Read(y.State(), remaining, full).0 == Ready([]) ==>
            || (y.finDelivered && SlotOf(Side(s, !client), id).accepted == y.read)
            || Side(s, client).reader.Ended?
            || y.code != 0
            || (buffered != [] && Min(|buffered|, remaining) % (U32_MAX + 1) == 0))
  {
    EmptyReadExactly(s, client, id, remaining, full);
    StreamIsSafe(s, !client, id);
    var x, y := EndAt(s, !client, id), EndAt(s, client, id);
    if y.slot.app.value.readBuf == [] && EndsRead(y.slot.State()) {
      EndOfStream(x, y, OpensHere(Side(s, !client), id), s.window);
    }
  }

  /**
   * On a healthy stream a read returns nothing exactly when the peer's FIN is there and everything
   * the peer ever accepted has been read.
   */
  lemma HealthyReadsEndExactly(s: Session, client: bool, id: StreamID, remaining: nat, full: bool)
    requires Reachable(s) && SlotOf(Side(s, client), id).app.Some? && Moderate(s, remaining)
    requires HealthyStream(s, id)
    ensures var y := SlotOf(Side(s, client), id);
      && AllStreamFrames(y.inbox.queue)
      && (Read(y.State(), remaining, full).0 == Ready([]) <==>
            y.finDelivered && SlotOf(Side(s, !client), id).accepted == y.read)
  {
    ModerateReadsEndExactly(s, client, id, remaining, full);
    StreamIsSafe(s, !client, id);
    HealthyEndOfStream(EndAt(s, !client, id), EndAt(s, client, id), OpensHere(Side(s, !client), id), s.window);
  }

  /**
   * A reset stream first gives out all it holds. After that a read returns nothing once the end was
   * seen, a FIN is queued or the channel has ended, as it has when the handle has left the map; while
   * the handle is there and the reader runs, it has not, and the read waits.
   */
  lemma ReadAfterReset(s: Session, client: bool, id: StreamID, remaining: nat, full: bool)
    requires Reachable(s) && SlotOf(Side(s, client), id).app.Some? && remaining > 0
    requires SlotOf(Side(s, client), id).code != 0
    ensures var y := SlotOf(Side(s, client), id);
      && AllStreamFrames(y.inbox.queue)
      && var a, queued, r := y.app.value, PayloadOf(y.inbox.queue), Read(y.State(), remaining, full).0;
         && (if a.readBuf != [] then
               r.Ready? && (r.value == [] <==> Min(|a.readBuf|, remaining) % (U32_MAX + 1) == 0)
             else if !a.dataReadClosed && queued != [] then r.Ready? && r.value != []
             else r == if a.dataReadClosed || HasFin(y.inbox.queue) || y.inbox.txClosed then Ready([]) else Pending)
         && (id !in LiveIds(Side(s, client)) ==> y.inbox.txClosed)
         && (id in LiveIds(Side(s, client)) && !Side(s, client).reader.Ended? ==> !y.inbox.txClosed)
  {
    StreamIsSafe(s, client, id);
    SlotsAreKnown(s, client, id);
    ReadAfterCode(EndAt(s, client, id), OpensHere(Side(s, client), id), s.window, remaining, full);
  }

  // ----- What calls answer -----

  /** A stream that has its application can send exactly while it has not been reset. */
  lemma SinkIsOpenExactlyUntilReset(s: Session, client: bool, id: StreamID)
    requires Reachable(s) && SlotOf(Side(s, client), id).app.Some?
    ensures var y := SlotOf(Side(s, client), id); OpenSink(y.State()) <==> y.code == 0
  {
    StreamIsSafe(s, client, id);
    SinkIsOpen(EndAt(s, client, id), OpensHere(Side(s, client), id), s.window);
  }

  /**
   * With room for its credit a read waits if and only if nothing is buffered or queued and the stream
   * has not ended. Without room it returns no data, unless the stream was reset: then it needs none.
   */
  lemma ReadsWaitExactly(s: Session, client: bool, id: StreamID, remaining: nat, full: bool)
    requires Reachable(s) && SlotOf(Side(s, client), id).app.Some? && remaining > 0
    ensures var y := SlotOf(Side(s, client), id);
      && AllStreamFrames(y.inbox.queue)
      && var r := Read(y.State(), remaining, full).0;
         if full && y.code == 0 then r == Pending || r == Ready([])
         else r == Pending <==>
           y.app.value.readBuf == [] && PayloadOf(y.inbox.queue) == [] && !EndsRead(y.State())
  {
    StreamIsSafe(s, client, id);
    ReadWaits(EndAt(s, client, id), OpensHere(Side(s, client), id), s.window, remaining, full);
  }

  /**
   * What a read returns that has room for its credit, or needs none: of the buffered bytes, or else
   * of the first bytes queued, as many as the caller has room for.
   */
  lemma ReadsReturnWhatIsThere(s: Session, client: bool, id: StreamID, remaining: nat, full: bool)
    requires Reachable(s) && SlotOf(Side(s, client), id).app.Some? && 0 < remaining <= WNDINC_MAX
    requires full ==> SlotOf(Side(s, client), id).code != 0
    ensures var y := SlotOf(Side(s, client), id);
      && AllStreamFrames(y.inbox.queue)
      && var r, buffered := Read(y.State(), remaining, full).0, y.app.value.readBuf;
         if buffered != [] then r == Ready(buffered[..Min(|buffered|, remaining)])
         else if !y.app.value.dataReadClosed && PayloadOf(y.inbox.queue) != [] then
           GivesFirstBytes(y.inbox.queue, remaining, r)
         else r == if EndsRead(y.State()) then Ready([]) else Pending
  {
    StreamIsSafe(s, client, id);
    ReadGives(EndAt(s, client, id), OpensHere(Side(s, client), id), s.window, remaining, full);
  }

  /**
   * A write to a stream that was neither shut down nor reset waits if and only if the channel is full,
   * or it has no window and no credit is queued while its input is open. Otherwise it accepts the
   * smallest of the window it finds, the bytes it is given, and what fits a frame.
   */
  lemma WritesAcceptWhatFits(s: Session, client: bool, id: StreamID, buf: seq<Byte>, full: bool)
    requires Reachable(s) && SlotOf(Side(s, client), id).app.Some? && |buf| <= U32_MAX
    requires var x := SlotOf(Side(s, client), id); x.app.value.writeClosed.None? && x.code == 0
    ensures var x := SlotOf(Side(s, client), id);
      && AllStreamFrames(x.inbox.queue)
      && var r, t := Write(x.State(), buf, full).0, x.State();
         if full || (t.app.window.size == 0 && NoCredit(x.inbox.queue) && !x.inbox.txClosed) then r == Pending
         else r == Ready(Ok(Min(WindowFound(t), Min(|buf|, 0xFF_FFFF))))
  {
    StreamsReceiveOnlyStreamFrames(s, client, id);
    SinkIsOpenExactlyUntilReset(s, client, id);
    WriteAnswer(SlotOf(Side(s, client), id).State(), buf, full);
  }

  /** After a shutdown that succeeded, now or before, the FIN is among the stream's output. */
  lemma ShutdownMeansFin(s: Session, client: bool, id: StreamID, full: bool, blocked: bool)
    requires Reachable(s) && SlotOf(Side(s, client), id).app.Some?
    ensures var x := SlotOf(Side(s, client), id);
      && (x.app.value.writeClosed.Some? && x.code == 0 ==> HasFin(x.Output()))
      && (Shutdown(x.State(), full, blocked).0 == Ready(Ok(())) ==>
            var t := SlotShutdown(x, full, blocked);
            t.code == 0 && t.app.value.writeClosed.Some? && HasFin(t.Output()))
  {
    StreamIsSafe(s, client, id);
    SinkIsOpenExactlyUntilReset(s, client, id);
    var x := SlotOf(Side(s, client), id);
    if x.app.value.writeClosed.Some? {
      ShutdownOnce(x.State(), full, blocked);
      if x.code == 0 {
        ShutMeansFin(EndAt(s, client, id), OpensHere(Side(s, client), id), s.window);
      }
    } else {
      ShutdownSendsFin(x.State(), full, blocked);
      var t := SlotShutdown(x, full, blocked);
      if Shutdown(x.State(), full, blocked).0 == Ready(Ok(())) {
        assert t.outbox.queue[|x.outbox.queue|].IsFin() && t.outbox.queue[|x.outbox.queue|] in t.Output();
      }
    }
  }

  /**
   * On a healthy stream that one side has shut down: once nothing of it is on its way and the other
   * side has read all bytes, that side has every byte ever accepted, and its next read is empty.
   */
  lemma ShutdownEndsTheOtherSidesReads(s: Session, fromClient: bool, id: StreamID, remaining: nat, full: bool)
    requires Reachable(s) && HealthyStream(s, id) && remaining > 0
    requires var x := SlotOf(Side(s, fromClient), id);
      x.app.Some? && x.app.value.writeClosed.Some? && x.outbox.queue == []
    requires InTransit(EndAt(s, !fromClient, id)) == []
    requires var y := SlotOf(Side(s, !fromClient), id);
      y.app.Some? && y.app.value.readBuf == [] && PayloadOf(y.inbox.queue) == []
    ensures var y := SlotOf(Side(s, !fromClient), id);
      && AllStreamFrames(y.inbox.queue)
      && Read(y.State(), remaining, full).0 == Ready([])
      && SlotOf(Side(s, fromClient), id).accepted == y.read
  {
    StreamIsSafe(s, fromClient, id);
    var x, y := EndAt(s, fromClient, id), EndAt(s, !fromClient, id);
    FinGetsThrough(x, y, OpensHere(Side(s, fromClient), id), s.window);
    assert Held(y) + y.incoming == [];
    FinalRead(x, y, OpensHere(Side(s, fromClient), id), s.window, remaining, full);
  }

  // ----- Credit -----

  /** The window of a sender and all the credit on its way back never exceed the window size. */
  lemma CreditIsNeverDiscarded(s: Session, client: bool, id: StreamID)
    requires Reachable(s) && SlotOf(Side(s, client), id).app.Some?
    ensures var x, y := EndAt(s, client, id), EndAt(s, !client, id);
      x.slot.app.value.window.size + CreditOnTheWay(x, y) <= s.window == x.slot.app.value.window.maxSize
  {
    StreamIsSafe(s, client, id);
    AllCreditFits(EndAt(s, client, id), EndAt(s, !client, id), OpensHere(Side(s, client), id), s.window);
  }

  // ----- No flow-control reset, no go-away -----

  /**
   * Flow control is never violated: a poll of a delivery is only ever refused because the stream
   * is closed, and the manager's window has room for all data on its way.
   */
  lemma NeverFlowControl(s: Session, client: bool, full: bool)
    requires Reachable(s) && Side(s, client).reader.Routing?
    ensures var p := Side(s, client).reader.parcel;
      var line := SlotOf(Side(s, client), p.frame.header.streamId);
      var d := Deliver(p, line.entry, line.code, line.inbox, full);
      d.poll.Ready? && d.poll.value.Err? ==> d.poll.value.error == StreamClosed
  {
    SideIsSafe(s, client);
    RefusalIsStreamClosed(Side(s, client), Side(s, !client), s.window, full);
  }

  lemma WindowCoversDataOnItsWay(s: Session, client: bool, id: StreamID)
    requires Reachable(s)
    requires var y := SlotOf(Side(s, client), id);
      y.entry.Some? && y.code == 0 && !y.entry.value.dataWriteClosed && !Side(s, client).reader.Ended?
    ensures var y := EndAt(s, client, id);
      |PayloadOf(Held(y))| + |PayloadOf(StreamFrames(Side(s, !client).wire, id))|
        <= y.slot.entry.value.window + Shrunk(y)
  {
    StreamIsSafe(s, !client, id);
    WindowHasRoom(EndAt(s, !client, id), EndAt(s, client, id), OpensHere(Side(s, !client), id), s.window);
  }

  /** What the byte stream can carry: data and credit as streams make them, and plain resets. */
  predicate Expected(f: Frame) {
    f.header.streamId != 0 && (Sound(f) || PlainReset(f))
  }

  lemma OnlyExpectedFrames(s: Session, client: bool)
    requires Reachable(s)
    ensures !Side(s, client).sentAway
    ensures forall f :: f in Side(s, client).wire ==> Expected(f)
    ensures forall f :: f in Side(s, client).sys ==> PlainReset(f)
  {
    SideIsSafe(s, !client);
    forall f | f in Side(s, client).wire ensures Expected(f) {
      if !IsReset(f) {
        IncomingIsSound(Side(s, !client), Side(s, client), s.window, f);
      }
    }
  }

  lemma ExpectedIsWellFormed(f: Frame)
    requires Expected(f)
    ensures Codec.WellFormed(f)
  {
    if f.body.Data? {
      assert Codec.EncodeBody(f.body) == f.body.bytes;
    }
  }

  // ----- Healthy streams are not reset -----

  lemma HealthyHandlesAt(s: Session, client: bool, id: StreamID)
    requires Reachable(s) && HealthyStream(s, id)
    ensures SlotOf(Side(s, client), id).code == 0
    ensures SlotOf(Side(s, client), id).known ==> SlotOf(Side(s, client), id).entry.Some?
    ensures ResetsUnderWay(Side(s, client), Side(s, !client), id) == 0
  {
    StreamIsSafe(s, client, id);
    HealthyHandles(EndAt(s, client, id), EndAt(s, !client, id), OpensHere(Side(s, client), id), s.window);
  }

  /** Both handles stay, both close codes stay zero, and no RST for the stream is anywhere. */
  lemma HealthyStreamsAreNeverReset(s: Session, client: bool, id: StreamID)
    requires Reachable(s) && HealthyStream(s, id)
    ensures var me := Side(s, client);
      && SlotOf(me, id).code == 0
      && (id in me.slots ==> id in LiveIds(me))
      && ResetsUnderWay(me, Side(s, !client), id) == 0
  {
    HealthyHandlesAt(s, client, id);
    SlotsAreKnown(s, client, id);
  }

  // ----- Stream ids -----

  /** The id of an arriving SYN is new to this side, and not one it could hand out itself. */
  lemma ArrivingIdsAreFresh(s: Session, client: bool)
    requires Reachable(s)
    requires Side(s, client).reader == Resting && Side(s, !client).wire != [] && Side(s, !client).wire[0].IsSyn()
    ensures Side(s, !client).wire[0].header.streamId !in Side(s, client).slots
    ensures !OpensHere(Side(s, client), Side(s, !client).wire[0].header.streamId)
  {
    SideIsSafe(s, client);
    OnlyExpectedFrames(s, !client);
    assert Expected(Side(s, !client).wire[0]);
    ArrivingIdIsNew(Side(s, client), Side(s, !client), s.window);
  }

  /** A stream its opener does not know is not known to the other side either. */
  lemma UnknownToBoth(s: Session, client: bool, id: StreamID)
    requires Reachable(s) && OpensHere(Side(s, client), id) && id !in Side(s, client).slots
    ensures id !in Side(s, !client).slots
  {
    StreamIsSafe(s, client, id);
    UnknownIsUntouched(EndAt(s, client, id), EndAt(s, !client, id), s.window);
    SlotsAreKnown(s, !client, id);
  }

  /** The next local id is new and one of this side's exactly while ids are left. */
  lemma NextIdIsFreshExactlyWhileIdsAreLeft(s: Session, client: bool)
    requires Reachable(s)
    ensures var me := Side(s, client);
      var next := NextLocalId(me.lastLocalId);
      && (IdSpaceLeft(me) <==> OpensHere(me, next) && next > me.lastLocalId)
      && (IdSpaceLeft(me) ==> next !in me.slots && next !in Side(s, !client).slots)
  {
    var me := Side(s, client);
    SideIsSafe(s, client);
    if IdSpaceLeft(me) {
      UnknownToBoth(s, client, NextLocalId(me.lastLocalId));
    }
  }

  // ----- Output -----

  lemma OutputOf(s: Session, client: bool, id: StreamID)
    requires Reachable(s)
    ensures var x := SlotOf(Side(s, client), id);
      && Grammar(x.emitted, OpensHere(Side(s, client), id))
      && (x.known && x.entry.None? ==> HasFin(x.emitted) || x.code != 0)
  {
    StreamIsSafe(s, client, id);
    var x, y := EndAt(s, client, id), EndAt(s, !client, id);
    OutputGrammar(x, y, OpensHere(Side(s, client), id), s.window);
    FinOrReset(x, y, OpensHere(Side(s, client), id), s.window);
  }

  /**
   * What a side has put on the byte stream for one stream: nothing, a lone FIN, or for the opener
   * one SYN first; then data and credit, at most one FIN, and only credit behind it. A stream that
   * has left the map has sent its FIN or was reset.
   */
  lemma OutputFollowsGrammar(s: Session, client: bool, id: StreamID)
    requires Reachable(s)
    ensures var me := Side(s, client);
      && Grammar(SlotOf(me, id).emitted, OpensHere(me, id))
      && (id in me.slots && id !in LiveIds(me) ==> HasFin(SlotOf(me, id).emitted) || SlotOf(me, id).code != 0)
  {
    OutputOf(s, client, id);
    SlotsAreKnown(s, client, id);
  }

  /** A FIN of the manager's own goes out exactly when the stream sent none and was not reset. */
  lemma OwnFinExactlyWhenNeeded(s: Session, client: bool, id: StreamID)
    requires Reachable(s)
    requires CanEmit(SlotOf(Side(s, client), id)) && SlotOf(Side(s, client), id).outbox.queue == []
    ensures var x := SlotOf(Side(s, client), id);
      && (EmissionOf(x, id).frame.Some? <==> x.code == 0 && !HasFin(x.emitted))
      && EmissionOf(x, id).entry.None?
  {
    StreamIsSafe(s, client, id);
    ManagerFin(EndAt(s, client, id), EndAt(s, !client, id), OpensHere(Side(s, client), id), s.window, id);
  }

  // ----- Resets are final -----

  /** A reset that is received, or decided on, closes a live stream; one that is received is not answered. */
  lemma ResetsTakeEffect(s: Session, client: bool, full: bool)
    requires Reachable(s) && Side(s, client).reader.Routing?
    ensures var me := Side(s, client);
      var f, me' := me.reader.parcel.frame, Route(me, full);
      && (IsReset(f) ==> me'.reader == Resting)
      && ((IsReset(f) || me'.reader.Resetting?) && f.header.streamId in LiveIds(me) ==>
            SlotOf(me', f.header.streamId).code != 0)
  {
    SideIsSafe(s, client);
    var me := Side(s, client);
    var p := me.reader.parcel;
    var x := SlotOf(me, p.frame.header.streamId);
    RouteShape(me, p, p.frame.header.streamId, full, Deliver(p, x.entry, x.code, x.inbox, full), Route(me, full));
    if IsReset(p.frame) {
      ResetDelivered(x, p, full);
    }
  }

  lemma ResetEndAt(me: Endpoint, peer: Endpoint, window: nat, id: StreamID)
    requires Joint(me, peer, window) && SlotOf(me, id).known && SlotOf(me, id).code != 0
    ensures ResetEnd(EndOf(me, peer, id))
  {
    SafeAt(me, peer, window, id);
    CodeMeansReset(EndOf(me, peer, id), EndOf(peer, me, id), OpensHere(me, id), window);
  }

  lemma SideStepKeepsReset(me: Endpoint, peer: Endpoint, window: nat, op: Op, id: StreamID, me': Endpoint,
                           peer': Endpoint)
    requires Joint(me, peer, window) && IdsLeftFor(me, op)
    requires (me', peer') == SideStep(me, peer, window, op)
    ensures SlotOf(me, id).known && SlotOf(me, id).code != 0 ==>
      SameOutput(EndOf(me, peer, id), EndOf(me', peer', id))
    ensures SlotOf(peer', id) == SlotOf(peer, id)
  {
    StepProjects(me, peer, window, op, id);
    var x, y, act := EndOf(me, peer, id), EndOf(peer, me, id), ActOn(me, peer, op, id);
    if act.Some? {
      PeerOutputStays(id, window, x, y, OpensHere(me, id), act.value, EndOf(me', peer', id), EndOf(peer', me', id));
      if x.slot.known && x.slot.code != 0 {
        ResetEndAt(me, peer, window, id);
        ResetStays(id, window, x, y, OpensHere(me, id), act.value, EndOf(me', peer', id), EndOf(peer', me', id));
      }
    }
  }

  /** `s'` is `s` as far as the reset of stream `id` at one side goes. */
  predicate StillReset(s: Session, s': Session, client: bool, id: StreamID) {
    var x, x' := SlotOf(Side(s, client), id), SlotOf(Side(s', client), id);
    x'.known && x'.code == x.code && x'.emitted == x.emitted
  }

  lemma StepKeepsReset(s: Session, step: SessionStep, client: bool, id: StreamID)
    requires SessionInv(s) && IdsLeftForStep(s, step)
    requires SlotOf(Side(s, client), id).known && SlotOf(Side(s, client), id).code != 0
    ensures StillReset(s, StepSession(s, step), client, id)
  {
    var s' := StepSession(s, step);
    match step
    case ByClient(op) =>
      SideStepKeepsReset(s.client, s.server, s.window, op, id, s'.client, s'.server);
    case ByServer(op) =>
      JointSymmetric(s.client, s.server, s.window);
      SideStepKeepsReset(s.server, s.client, s.window, op, id, s'.server, s'.client);
  }

  lemma {:induction false} RunKeepsReset(s: Session, steps: seq<SessionStep>, client: bool, id: StreamID)
    requires SessionInv(s) && IdsSuffice(s, steps)
    requires SlotOf(Side(s, client), id).known && SlotOf(Side(s, client), id).code != 0
    ensures StillReset(s, RunSession(s, steps), client, id)
    decreases |steps|
  {
    if steps != [] {
      StepKeepsReset(s, steps[0], client, id);
      SessionStepKeeps(s, steps[0]);
      RunKeepsReset(StepSession(s, steps[0]), steps[1..], client, id);
    }
  }

  /** Once a stream has a close code it keeps that code, and never puts out another frame. */
  lemma ResetIsFinal(s: Session, steps: seq<SessionStep>, client: bool, id: StreamID)
    requires Reachable(s) && IdsSuffice(s, steps) && id in Side(s, client).slots
    requires SlotOf(Side(s, client), id).code != 0
    ensures StillReset(s, RunSession(s, steps), client, id)
  {
    ReachableIsSafe(s);
    SideIsSafe(s, client);
    RunKeepsReset(s, steps, client, id);
  }
}
