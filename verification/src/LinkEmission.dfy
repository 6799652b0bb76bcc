/** The manager's side of an end: frames handed to the byte stream, streams removed from the map. */
module LinkEmission {
  import opened Wrappers
  import opened Frames
  import opened Flows
  import opened StreamOutput
  import opened Windows
  import opened Streams
  import opened Managers
  import opened Links
  import opened LinkProofs
  import opened LinkSteps
  import opened LinkDelivery

  function Delivered(peer: End, f: Frame): End {
    peer.(incoming := peer.incoming + [f])
  }

  lemma DeliveredTransit(peer: End, f: Frame)
    ensures InTransit(Delivered(peer, f)) == InTransit(peer) + [f]
    ensures PayloadOf(InTransit(Delivered(peer, f))) == PayloadOf(InTransit(peer)) + f.Payload()
    ensures CreditOf(InTransit(Delivered(peer, f))) == CreditOf(InTransit(peer)) + f.Credit()
  {
    assert Held(peer) + (peer.incoming + [f]) == Held(peer) + peer.incoming + [f];
    Append(InTransit(peer), f);
  }

  // ----- A frame leaves -----

  ghost predicate Passing(id: StreamID, me: End, me': End, f: Frame) {
    && me.slot.entry.Some? && me.slot.outbox.queue != [] && me.slot.code == 0
    && f == me.slot.outbox.queue[0].WithId(id)
    && var e, s := me.slot.entry.value, me.slot;
       me' == me.(slot := s.(
         entry := Some(e.(window := e.window + f.Credit(), needsFin := e.needsFin && !f.IsFin())),
         outbox := s.outbox.Pop(),
         emitted := s.emitted + [f]))
  }

  /** Payload and credit move from the queue to the output; the output as a whole stays. */
  lemma PassingFlows(id: StreamID, me: End, me': End, f: Frame)
    requires Passing(id, me, me', f)
    ensures PayloadOf(me'.slot.emitted) == PayloadOf(me.slot.emitted) + f.Payload()
    ensures CreditOf(me'.slot.emitted) == CreditOf(me.slot.emitted) + f.Credit()
    ensures PayloadOf(me.slot.outbox.queue) == f.Payload() + PayloadOf(me'.slot.outbox.queue)
    ensures CreditOf(me.slot.outbox.queue) == f.Credit() + CreditOf(me'.slot.outbox.queue)
  {
    Append(me.slot.emitted, f);
  }

  lemma PassingKeepsGrammar(id: StreamID, me: End, me': End, f: Frame, opener: bool)
    requires Passing(id, me, me', f) && Grammar(me.slot.Output(), opener)
    ensures Grammar(me'.slot.Output(), opener)
  {
    var q := me.slot.outbox.queue;
    var fs, gs := me.slot.Output(), me'.slot.Output();
    assert gs == me.slot.emitted + [f] + q[1..];
    assert fs == me.slot.emitted + [q[0]] + q[1..];
    GrammarSame(fs, gs, opener);
  }

  lemma PassingFins(id: StreamID, me: End, me': End, f: Frame)
    requires Passing(id, me, me', f)
    ensures HasFin(me'.slot.emitted) <==> HasFin(me.slot.emitted) || f.IsFin()
    ensures HasFin(me.slot.outbox.queue) <==> f.IsFin() || HasFin(me'.slot.outbox.queue)
  {
    var q := me.slot.outbox.queue;
    assert q == [q[0]] + q[1..];
    assert f.IsFin() == q[0].IsFin() && q[0] in q;
    assert f in me'.slot.emitted;
  }

  /** A FIN leaves last: everything accepted has left before it. */
  lemma PassingFinIsLast(id: StreamID, me: End, me': End, f: Frame, opener: bool)
    requires Passing(id, me, me', f) && Shapes(me) && Grammar(me.slot.Output(), opener)
    ensures HasFin(me.slot.emitted) ==> f.Payload() == []
    ensures f.IsFin() ==> f.Payload() == [] && PayloadOf(me'.slot.outbox.queue) == []
  {
    var q := me.slot.outbox.queue;
    assert q[0] in q && Sound(q[0]);
    if HasFin(me.slot.emitted) {
      OnlyCreditAfterFin(me.slot.emitted, q, opener);
      assert KindOf(q[0]) == CreditKind;
    }
    if f.IsFin() {
      assert me.slot.Output() == (me.slot.emitted + [q[0]]) + q[1..];
      assert q[0] in me.slot.emitted + [q[0]] && q[0].IsFin();
      OnlyCreditAfterFin(me.slot.emitted + [q[0]], q[1..], opener);
    }
  }

  /** What was accepted is still what left and what waits. */
  lemma PassingPayload(id: StreamID, me: End, me': End, f: Frame)
    requires Passing(id, me, me', f)
    requires PayloadOf(me.slot.emitted) + PayloadOf(me.slot.outbox.queue) == me.slot.accepted
    ensures PayloadOf(me'.slot.emitted) + PayloadOf(me'.slot.outbox.queue) == me.slot.accepted
    ensures PayloadOf(me'.slot.emitted) <= me.slot.accepted
  {
    PassingFlows(id, me, me', f);
    assert PayloadOf(me.slot.emitted) + f.Payload() + PayloadOf(me'.slot.outbox.queue)
        == PayloadOf(me.slot.emitted) + (f.Payload() + PayloadOf(me'.slot.outbox.queue));
  }

  lemma PassingFinPayload(id: StreamID, me: End, me': End, f: Frame, opener: bool)
    requires Passing(id, me, me', f) && Shapes(me) && Grammar(me.slot.Output(), opener)
    requires PayloadOf(me'.slot.emitted) + PayloadOf(me'.slot.outbox.queue) == me.slot.accepted
    requires HasFin(me.slot.emitted) ==> PayloadOf(me.slot.emitted) == me.slot.accepted
    ensures HasFin(me'.slot.emitted) ==> PayloadOf(me'.slot.emitted) == me.slot.accepted
  {
    PassingFlows(id, me, me', f);
    PassingFins(id, me, me', f);
    PassingFinIsLast(id, me, me', f, opener);
    assert PayloadOf(me.slot.emitted) + [] == PayloadOf(me.slot.emitted);
    assert PayloadOf(me'.slot.emitted) + [] == PayloadOf(me'.slot.emitted);
  }

  lemma PassingKeepsOutgoing(id: StreamID, me: End, me': End, f: Frame, opener: bool)
    requires Passing(id, me, me', f) && Shapes(me) && Outgoing(me, opener) && Wiring(me)
    ensures Outgoing(me', opener)
  {
    PassingPayload(id, me, me', f);
    PassingFinPayload(id, me, me', f, opener);
    PassingKeepsGrammar(id, me, me', f, opener);
    PassingFins(id, me, me', f);
    assert me'.slot.Output() != [];
  }

  lemma PassingKeepsShapes(id: StreamID, me: End, me': End, f: Frame)
    requires Passing(id, me, me', f) && Shapes(me) && Wiring(me)
    ensures Shapes(me') && Wiring(me')
  {
    assert me.slot.outbox.queue[0] in me.slot.outbox.queue;
  }

  lemma PassingKeepsIncoming(id: StreamID, me: End, me': End, f: Frame, window: nat)
    requires Passing(id, me, me', f) && Incoming(me, window)
    ensures Incoming(me', window)
  {
    PassingFlows(id, me, me', f);
  }

  lemma PassingKeepsEnd(id: StreamID, me: End, me': End, f: Frame, opener: bool, window: nat)
    requires Passing(id, me, me', f) && EndInv(me, opener, window)
    ensures EndInv(me', opener, window)
  {
    PassingKeepsOutgoing(id, me, me', f, opener);
    PassingKeepsShapes(id, me, me', f);
    PassingKeepsIncoming(id, me, me', f, window);
  }

  lemma PassingKeepsPeer(id: StreamID, me: End, me': End, f: Frame, peer: End, opener: bool, window: nat)
    requires Passing(id, me, me', f) && Shapes(me) && EndInv(peer, opener, window)
    ensures EndInv(Delivered(peer, f), opener, window)
  {
    assert me.slot.outbox.queue[0] in me.slot.outbox.queue;
    DeliveredTransit(peer, f);
  }

  lemma FinStaysWithin(fs: seq<Frame>, f: Frame, n: nat)
    requires FinWithin(fs, n)
    ensures FinWithin(fs + [f], n)
  {
    var i :| 0 <= i < n && i < |fs| && fs[i].IsFin();
    assert (fs + [f])[i].IsFin();
  }

  lemma DeliveredSuffix(out: seq<Frame>, tail: seq<Frame>, f: Frame)
    requires IsSuffix(tail, out)
    ensures IsSuffix(tail + [f], out + [f])
  {}

  /** A frame added at both ends of the way. */
  lemma DeliveredKeepsOrder(x: End, x': End, y: End, f: Frame)
    requires InOrder(x, y) && x'.slot.emitted == x.slot.emitted + [f]
    ensures InOrder(x', Delivered(y, f))
    ensures Handled(x', Delivered(y, f)) == Handled(x, y)
    ensures FinWithin(x.slot.emitted, Handled(x, y)) ==> FinWithin(x'.slot.emitted, Handled(x, y))
  {
    DeliveredSuffix(x.slot.emitted, InTransit(y), f);
    DeliveredTransit(y, f);
    if FinWithin(x.slot.emitted, Handled(x, y)) {
      FinStaysWithin(x.slot.emitted, f, Handled(x, y));
    }
  }

  lemma DeliveredKeepsConserved(x: End, x': End, y: End, f: Frame)
    requires Conserved(x, y) && x'.slot.emitted == x.slot.emitted + [f]
    requires x'.stopped == x.stopped && x'.slot.known == x.slot.known && x'.slot.app == x.slot.app
    requires HasFin(x.slot.emitted) ==> f.Payload() == []
    ensures Conserved(x', Delivered(y, f))
  {
    DeliveredTransit(y, f);
    Append(x.slot.emitted, f);
    assert y.slot.delivered + (PayloadOf(InTransit(y)) + f.Payload())
        == y.slot.delivered + PayloadOf(InTransit(y)) + f.Payload();
    if HasFin(x.slot.emitted) {
      assert PayloadOf(x.slot.emitted) + [] == PayloadOf(x.slot.emitted);
      assert HasFin(x'.slot.emitted);
    }
  }

  lemma PassingKeepsOutTransfer(id: StreamID, me: End, me': End, f: Frame, peer: End)
    requires Passing(id, me, me', f) && Transfer(me, peer) && (HasFin(me.slot.emitted) ==> f.Payload() == [])
    ensures Transfer(me', Delivered(peer, f))
  {
    DeliveredKeepsOrder(me, me', peer, f);
    DeliveredKeepsConserved(me, me', peer, f);
  }

  lemma PassingKeepsOutCredit(id: StreamID, me: End, me': End, f: Frame, peer: End, window: nat)
    requires Passing(id, me, me', f) && Crediting(me, peer, window)
    ensures Crediting(me', Delivered(peer, f), window)
  {}

  lemma PassingKeepsOutHealth(id: StreamID, me: End, me': End, f: Frame, peer: End, window: nat)
    requires Passing(id, me, me', f) && InOrder(me, peer) && Health(me, peer, window)
    requires |InTransit(Delivered(peer, f))| <= |me'.slot.emitted|
    requires Handled(me', Delivered(peer, f)) == Handled(me, peer)
    ensures Health(me', Delivered(peer, f), window)
  {
    PassingFlows(id, me, me', f);
    if FinWithin(me.slot.emitted, Handled(me, peer)) {
      FinStaysWithin(me.slot.emitted, f, Handled(me, peer));
    }
  }

  lemma PassingKeepsOut(id: StreamID, me: End, me': End, f: Frame, peer: End, opener: bool, window: nat)
    requires Passing(id, me, me', f) && EndInv(me, opener, window)
    requires Direction(me, peer, window) && Direction(peer, me, window)
    ensures Direction(me', Delivered(peer, f), window)
  {
    PassingFinIsLast(id, me, me', f, opener);
    PassingKeepsOutTransfer(id, me, me', f, peer);
    PassingKeepsOutCredit(id, me, me', f, peer, window);
    DeliveredKeepsOrder(me, me', peer, f);
    PassingKeepsOutHealth(id, me, me', f, peer, window);
  }

  lemma PassingKeepsInTransfer(id: StreamID, me: End, me': End, f: Frame, peer: End)
    requires Passing(id, me, me', f) && Transfer(peer, me)
    ensures Transfer(Delivered(peer, f), me')
  {}

  lemma PassingKeepsInCredit(id: StreamID, me: End, me': End, f: Frame, peer: End, window: nat)
    requires Passing(id, me, me', f) && Crediting(peer, me, window)
    ensures Crediting(Delivered(peer, f), me', window)
  {
    PassingFlows(id, me, me', f);
    DeliveredTransit(peer, f);
  }

  lemma PassingKeepsIn(id: StreamID, me: End, me': End, f: Frame, peer: End, opener: bool, window: nat)
    requires Passing(id, me, me', f) && Direction(peer, me, window)
    ensures Direction(Delivered(peer, f), me', window)
  {
    PassingKeepsInTransfer(id, me, me', f, peer);
    PassingKeepsInCredit(id, me, me', f, peer, window);
    PassingFlows(id, me, me', f);
    DeliveredTransit(peer, f);
  }

  lemma PassingKeepsOpening(id: StreamID, me: End, me': End, f: Frame, peer: End, opener: bool)
    requires Passing(id, me, me', f) && OpeningOf(me, peer, opener) && InOrder(me, peer)
    ensures OpeningOf(me', Delivered(peer, f), opener)
  {}

  lemma PassingKeeps(id: StreamID, me: End, me': End, f: Frame, peer: End, opener: bool, window: nat)
    requires Passing(id, me, me', f) && PairInv(me, peer, opener, window)
    ensures PairInv(me', Delivered(peer, f), opener, window)
  {
    PassingKeepsEnd(id, me, me', f, opener, window);
    PassingKeepsPeer(id, me, me', f, peer, !opener, window);
    PassingKeepsOut(id, me, me', f, peer, opener, window);
    PassingKeepsIn(id, me, me', f, peer, opener, window);
    PassingKeepsOpening(id, me, me', f, peer, opener);
    Assemble(me', Delivered(peer, f), opener, window);
  }

  // ----- A stream leaves the map -----

  function Removed(me: End): End {
    me.(slot := me.slot.(entry := None, outbox := me.slot.outbox.DropReceiver(), inbox := me.slot.inbox.CloseSender()))
  }

  lemma RemovedKeepsEnd(me: End, opener: bool, window: nat)
    requires EndInv(me, opener, window) && me.slot.entry.Some?
    requires me.slot.code == 0 ==> me.slot.app.None? && me.slot.outbox.queue == [] && HasFin(me.slot.emitted)
    ensures EndInv(Removed(me), opener, window)
  {
    assert Removed(me).slot.Output() == me.slot.emitted;
    GrammarPrefix(me.slot.emitted, me.slot.outbox.queue, opener);
  }

  lemma RemovedKeepsOut(me: End, peer: End, window: nat, me': End)
    requires Direction(me, peer, window) && me.slot.known && (me.slot.app.None? || me.slot.code != 0)
    requires me' == Removed(me)
    ensures Direction(me', peer, window)
  {}

  lemma RemovedKeepsIn(me: End, peer: End, window: nat, me': End)
    requires Direction(me, peer, window) && Direction(peer, me, window) && me.slot.known
    requires me.slot.app.None? || me.slot.code != 0
    requires me' == Removed(me)
    ensures Direction(peer, me', window)
  {}

  lemma RemovedKeeps(me: End, peer: End, opener: bool, window: nat, me': End)
    requires PairInv(me, peer, opener, window) && me.slot.entry.Some? && me' == Removed(me)
    requires me.slot.code == 0 ==> me.slot.app.None? && me.slot.outbox.queue == [] && HasFin(me.slot.emitted)
    ensures PairInv(me', peer, opener, window)
  {
    RemovedKeepsEnd(me, opener, window);
    RemovedKeepsOut(me, peer, window, me');
    RemovedKeepsIn(me, peer, window, me');
    OpeningIsKept(me, me', peer, opener);
    Assemble(me', peer, opener, window);
  }

  /** A dropped stream that sent no FIN: the manager's own FIN counts as one queued and passed on. */
  function WithOwnFin(me: End): End {
    me.(slot := me.slot.(outbox := me.slot.outbox.Push(FinFrame())))
  }

  lemma OwnFinKeepsEnd(me: End, opener: bool, window: nat)
    requires EndInv(me, opener, window) && me.slot.entry.Some? && me.slot.app.None?
    requires me.slot.code == 0 && me.slot.outbox.queue == [] && !HasFin(me.slot.emitted)
    ensures EndInv(WithOwnFin(me), opener, window)
  {
    FinIsSound();
    PushedOutput(me.slot, FinFrame());
    GrammarAppend(me.slot.Output(), FinFrame(), opener);
    assert PayloadOf(me.slot.emitted) + [] == PayloadOf(me.slot.emitted);
  }

  lemma OwnFinKeepsOut(me: End, peer: End, window: nat, me': End)
    requires Direction(me, peer, window) && me.slot.known && me.slot.app.None? && me' == WithOwnFin(me)
    ensures Direction(me', peer, window)
  {
    OutIsKept(me, me', peer, window);
  }

  lemma OwnFinKeepsIn(me: End, peer: End, window: nat, me': End)
    requires Direction(peer, me, window) && me.slot.known && me.slot.app.None? && me' == WithOwnFin(me)
    ensures Direction(peer, me', window)
  {
    InIsKept(me, me', peer, window);
  }

  lemma OwnFinKeeps(me: End, peer: End, opener: bool, window: nat, me': End)
    requires PairInv(me, peer, opener, window) && me.slot.entry.Some? && me.slot.app.None?
    requires me.slot.code == 0 && me.slot.outbox.queue == [] && !HasFin(me.slot.emitted)
    requires me' == WithOwnFin(me)
    ensures PairInv(me', peer, opener, window)
  {
    OwnFinKeepsEnd(me, opener, window);
    OwnFinKeepsOut(me, peer, window, me');
    OwnFinKeepsIn(me, peer, window, me');
    OpeningIsKept(me, me', peer, opener);
    Assemble(me', peer, opener, window);
  }

  /** The manager's own FIN, first as a frame passed on, then as the end of the stream. */
  function OwnFinPassed(me: End, id: StreamID): End
    requires me.slot.entry.Some?
  {
    me.(slot := me.slot.(
      entry := Some(me.slot.entry.value.(needsFin := false)),
      emitted := me.slot.emitted + [FinFrame().WithId(id)]))
  }

  lemma OwnFinIsPassing(id: StreamID, me: End)
    requires me.slot.entry.Some? && me.slot.code == 0 && me.slot.outbox.queue == []
    ensures Passing(id, WithOwnFin(me), OwnFinPassed(me, id), FinFrame().WithId(id))
  {
    assert WithOwnFin(me).slot.outbox.queue == [FinFrame()];
    assert WithOwnFin(me).slot.outbox.Pop() == me.slot.outbox;
  }

  lemma LastFinLeaves(id: StreamID, me: End, peer: End, opener: bool, window: nat, me1: End, me2: End, peer': End)
    requires PairInv(me, peer, opener, window) && me.slot.entry.Some? && me.slot.app.None?
    requires me.slot.code == 0 && me.slot.outbox.queue == [] && !HasFin(me.slot.emitted)
    requires me1 == WithOwnFin(me) && me2 == OwnFinPassed(me, id)
    requires peer' == Delivered(peer, FinFrame().WithId(id))
    ensures PairInv(me2, peer', opener, window)
  {
    OwnFinKeeps(me, peer, opener, window, me1);
    OwnFinIsPassing(id, me);
    PassingKeeps(id, me1, me2, FinFrame().WithId(id), peer, opener, window);
  }

  lemma LastFinKeeps(id: StreamID, me: End, peer: End, opener: bool, window: nat, me2: End, me': End, peer': End)
    requires PairInv(me, peer, opener, window) && me.slot.entry.Some? && me.slot.app.None?
    requires me.slot.code == 0 && me.slot.outbox.queue == [] && !HasFin(me.slot.emitted)
    requires me2 == OwnFinPassed(me, id) && me' == Removed(me2)
    requires peer' == Delivered(peer, FinFrame().WithId(id))
    ensures PairInv(me', peer', opener, window)
  {
    LastFinLeaves(id, me, peer, opener, window, WithOwnFin(me), me2, peer');
    assert FinFrame().WithId(id) in me2.slot.emitted && FinFrame().WithId(id).IsFin();
    RemovedKeeps(me2, peer', opener, window, me');
  }

  /** What `poll_next` needs to know of an end. */
  lemma EmitFacts(me: End, opener: bool, window: nat)
    requires EndInv(me, opener, window) && CanEmit(me.slot)
    ensures me.slot.code != 0 ==> !me.slot.entry.value.needsFin
    ensures me.slot.code == 0 ==> (me.slot.entry.value.needsFin <==> !HasFin(me.slot.emitted))
    ensures me.slot.outbox.queue == [] ==> me.slot.app.None? && me.slot.outbox.txClosed
  {}

  /** The three outcomes of `poll_next` on a ready stream. */
  lemma EmitShape(id: StreamID, window: nat, me: End, peer: End, opener: bool, me': End, peer': End)
    requires CanEmit(me.slot) && (me.slot.code != 0 ==> !me.slot.entry.value.needsFin)
    requires (me', peer') == Step(id, window, me, peer, opener, EmitNext)
    ensures
      var s, own := me.slot, FinFrame().WithId(id);
      if s.code != 0 || (s.outbox.queue == [] && !s.entry.value.needsFin) then
        me' == Removed(me) && peer' == peer
      else if s.outbox.queue != [] then
        Passing(id, me, me', s.outbox.queue[0].WithId(id)) && peer' == Delivered(peer, s.outbox.queue[0].WithId(id))
      else
        me' == Removed(OwnFinPassed(me, id)) && peer' == Delivered(peer, own)
  {
    assert peer.incoming + [] == peer.incoming;
    assert me.slot.emitted + [] == me.slot.emitted;
  }

  lemma EmitKeeps(id: StreamID, window: nat, me: End, peer: End, opener: bool, me': End, peer': End)
    requires PairInv(me, peer, opener, window) && CanEmit(me.slot)
    requires (me', peer') == Step(id, window, me, peer, opener, EmitNext)
    ensures PairInv(me', peer', opener, window)
  {
    EmitFacts(me, opener, window);
    EmitShape(id, window, me, peer, opener, me', peer');
    var s := me.slot;
    if s.code != 0 || (s.outbox.queue == [] && !s.entry.value.needsFin) {
      RemovedKeeps(me, peer, opener, window, me');
    } else if s.outbox.queue != [] {
      PassingKeeps(id, me, me', s.outbox.queue[0].WithId(id), peer, opener, window);
    } else {
      LastFinKeeps(id, me, peer, opener, window, OwnFinPassed(me, id), me', peer');
    }
  }

  // ----- Every step -----

  lemma ReadLinked(me: End, peer: End, opener: bool, window: nat, remaining: nat, full: bool, me': End)
    requires Linked(me, peer, opener, window) && me' == me.(slot := SlotRead(me.slot, remaining, full))
    ensures Linked(me', peer, opener, window)
  {
    LinkedMeans(me, peer, opener, window);
    ReadKeeps(me, peer, opener, window, remaining, full, me');
    PairIsLinked(me', peer, opener, window);
  }

  lemma WriteLinked(me: End, peer: End, opener: bool, window: nat, buf: seq<Byte>, full: bool, me': End)
    requires Linked(me, peer, opener, window) && me' == me.(slot := SlotWrite(me.slot, buf, full))
    ensures Linked(me', peer, opener, window)
  {
    LinkedMeans(me, peer, opener, window);
    WriteKeeps(me, peer, opener, window, buf, full, me');
    PairIsLinked(me', peer, opener, window);
  }

  lemma ShutdownLinked(me: End, peer: End, opener: bool, window: nat, full: bool, blocked: bool, me': End)
    requires Linked(me, peer, opener, window) && me' == me.(slot := SlotShutdown(me.slot, full, blocked))
    ensures Linked(me', peer, opener, window)
  {
    LinkedMeans(me, peer, opener, window);
    ShutdownKeeps(me, peer, opener, window, full, blocked, me');
    PairIsLinked(me', peer, opener, window);
  }

  lemma DropLinked(me: End, peer: End, opener: bool, window: nat, me': End)
    requires Linked(me, peer, opener, window) && me' == me.(slot := SlotDrop(me.slot))
    ensures Linked(me', peer, opener, window)
  {
    LinkedMeans(me, peer, opener, window);
    DropKeeps(me, peer, opener, window, me');
    PairIsLinked(me', peer, opener, window);
  }

  lemma OpenLinked(me: End, peer: End, opener: bool, window: nat, me': End)
    requires Linked(me, peer, opener, window) && opener && !me.slot.known && me' == me.(slot := NewSlot(window, true))
    ensures Linked(me', peer, opener, window)
  {
    LinkedMeans(me, peer, opener, window);
    OpenKeeps(me, peer, window, me');
    PairIsLinked(me', peer, opener, window);
  }

  lemma CloseLinked(me: End, peer: End, opener: bool, window: nat, me': End)
    requires Linked(me, peer, opener, window) && me.phase == Closing && me' == WriteClosedEnd(me)
    ensures Linked(me', peer, opener, window)
  {
    LinkedMeans(me, peer, opener, window);
    CloseKeeps(me, peer, opener, window, me');
    PairIsLinked(me', peer, opener, window);
  }

  lemma StopLinked(me: End, peer: End, opener: bool, window: nat, me': End)
    requires Linked(me, peer, opener, window) && me.phase == Idle && me' == Stopped(me)
    ensures Linked(me', peer, opener, window)
  {
    LinkedMeans(me, peer, opener, window);
    StopKeeps(me, peer, opener, window, me');
    PairIsLinked(me', peer, opener, window);
  }

  lemma ReceiveLinked(me: End, peer: End, opener: bool, window: nat, ok: bool, me': End)
    requires Linked(me, peer, opener, window) && me' == ReceiveNext(me, window, ok)
    ensures Linked(me', peer, opener, window)
  {
    LinkedMeans(me, peer, opener, window);
    ReceiveKeeps(me, peer, opener, window, ok, me');
    PairIsLinked(me', peer, opener, window);
  }

  lemma AcceptLinked(me: End, peer: End, opener: bool, window: nat, ok: bool, me': End)
    requires Linked(me, peer, opener, window) && me' == AcceptNext(me, ok)
    ensures Linked(me', peer, opener, window)
  {
    LinkedMeans(me, peer, opener, window);
    AcceptKeeps(me, peer, opener, window, ok, me');
    PairIsLinked(me', peer, opener, window);
  }

  lemma DeliveryLinked(me: End, peer: End, opener: bool, window: nat, full: bool, me': End)
    requires Linked(me, peer, opener, window) && me' == DeliverNext(me, full)
    ensures Linked(me', peer, opener, window)
  {
    LinkedMeans(me, peer, opener, window);
    DeliverKeeps(me, peer, opener, window, full, me');
    PairIsLinked(me', peer, opener, window);
  }

  lemma ResetLinked(me: End, peer: End, opener: bool, window: nat, me': End, peer': End)
    requires Linked(me, peer, opener, window) && peer.resets > 0
    requires me' == me.(slot := SlotReset(me.slot, StreamClosed)) && peer' == peer.(resets := peer.resets - 1)
    ensures Linked(me', peer', opener, window)
  {
    LinkedMeans(me, peer, opener, window);
    ResetKeeps(me, peer, opener, window, me', peer');
    PairIsLinked(me', peer', opener, window);
  }

  lemma EmissionLinked(me: End, peer: End, opener: bool, window: nat, id: StreamID, me': End, peer': End)
    requires Linked(me, peer, opener, window) && CanEmit(me.slot)
    requires (me', peer') == Step(id, window, me, peer, opener, EmitNext)
    ensures Linked(me', peer', opener, window)
  {
    LinkedMeans(me, peer, opener, window);
    EmitKeeps(id, window, me, peer, opener, me', peer');
    PairIsLinked(me', peer', opener, window);
  }

  lemma StepKeeps(id: StreamID, window: nat, me: End, peer: End, opener: bool, act: Act, me': End, peer': End)
    requires Linked(me, peer, opener, window) && (me', peer') == Step(id, window, me, peer, opener, act)
    ensures Linked(me', peer', opener, window)
  {
    match act
    case Open => if opener && !me.slot.known { OpenLinked(me, peer, opener, window, me'); }
    case ReadBytes(remaining, full) => ReadLinked(me, peer, opener, window, remaining, full, me');
    case WriteBytes(buf, full) => WriteLinked(me, peer, opener, window, buf, full, me');
    case ShutDown(full, blocked) => ShutdownLinked(me, peer, opener, window, full, blocked, me');
    case DropStream => DropLinked(me, peer, opener, window, me');
    case EmitNext => if CanEmit(me.slot) { EmissionLinked(me, peer, opener, window, id, me', peer'); }
    case Receive(ok) => ReceiveLinked(me, peer, opener, window, ok, me');
    case Accept(ok) => AcceptLinked(me, peer, opener, window, ok, me');
    case Attempted(full) => DeliveryLinked(me, peer, opener, window, full, me');
    case CloseWrite => if me.phase == Closing { CloseLinked(me, peer, opener, window, me'); }
    case HandleReset => if peer.resets > 0 { ResetLinked(me, peer, opener, window, me', peer'); }
    case Stop => if me.phase == Idle { StopLinked(me, peer, opener, window, me'); }
  }
}
