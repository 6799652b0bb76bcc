/** The steps of the reader, and the opening and closing of streams, at either end of a stream. */
module LinkSteps {
  import opened Wrappers
  import opened Frames
  import opened Flows
  import opened StreamOutput
  import opened Windows
  import opened Streams
  import opened Managers
  import opened Links
  import opened LinkProofs

  ghost predicate OpeningOf(x: End, y: End, xOpens: bool) {
    if xOpens then Opening(x, y) else Opening(y, x)
  }

  lemma Assemble(x: End, y: End, xOpens: bool, window: nat)
    requires EndInv(x, xOpens, window) && EndInv(y, !xOpens, window)
    requires Direction(x, y, window) && Direction(y, x, window) && OpeningOf(x, y, xOpens)
    ensures PairInv(x, y, xOpens, window)
  {}

  lemma OpeningIsKept(me: End, me': End, peer: End, opener: bool)
    requires OpeningOf(me, peer, opener) && me'.stopped == me.stopped && me'.incoming == me.incoming
    requires me'.slot.known == me.slot.known && me'.slot.emitted == me.slot.emitted
    ensures OpeningOf(me', peer, opener)
  {}

  // ----- Opening, stopping, closing, resetting -----

  /** Before an opener knows a stream, nothing at all has happened to it. */
  lemma UnknownIsUntouched(me: End, peer: End, window: nat)
    requires PairInv(me, peer, true, window) && !me.slot.known
    ensures me.slot == BLANK && peer.slot == BLANK && InTransit(me) == [] && InTransit(peer) == []
  {}

  lemma OpenKeepsTransfer(me: End, peer: End, me': End, window: nat)
    requires me.slot == BLANK && peer.slot == BLANK && InTransit(peer) == []
    requires Transfer(me, peer) && me' == me.(slot := NewSlot(window, true))
    ensures Transfer(me', peer)
  {}

  lemma OpenKeepsCredit(me: End, peer: End, me': End, window: nat)
    requires me.slot == BLANK && peer.slot == BLANK && InTransit(me) == [] && InTransit(peer) == []
    requires InOrder(me, peer) && (Healthy(me, peer) ==> me.resets == 0)
    requires me' == me.(slot := NewSlot(window, true))
    ensures Crediting(me', peer, window) && InOrder(me', peer) && Health(me', peer, window)
  {
    assert InTransit(me') == [];
  }

  lemma OpenKeepsOut(me: End, peer: End, window: nat, me': End)
    requires me.slot == BLANK && peer.slot == BLANK && InTransit(me) == [] && InTransit(peer) == []
    requires Direction(me, peer, window) && me' == me.(slot := NewSlot(window, true))
    ensures Direction(me', peer, window)
  {
    OpenKeepsTransfer(me, peer, me', window);
    OpenKeepsCredit(me, peer, me', window);
  }

  lemma OpenKeepsIn(me: End, peer: End, window: nat, me': End)
    requires me.slot == BLANK && me' == me.(slot := NewSlot(window, true))
    requires Direction(peer, me, window) && peer.slot == BLANK && InTransit(me) == []
    ensures Direction(peer, me', window)
  {
    InIsKept(me, me', peer, window);
  }

  lemma OpenKeepsEnd(me: End, window: nat)
    requires EndInv(me, true, window) && me.slot == BLANK && InTransit(me) == []
    ensures EndInv(me.(slot := NewSlot(window, true)), true, window)
  {}

  lemma OpenKeeps(me: End, peer: End, window: nat, me': End)
    requires PairInv(me, peer, true, window) && !me.slot.known && me' == me.(slot := NewSlot(window, true))
    ensures PairInv(me', peer, true, window)
  {
    UnknownIsUntouched(me, peer, window);
    OpenKeepsOut(me, peer, window, me');
    OpenKeepsIn(me, peer, window, me');
    OpenKeepsEnd(me, window);
    Assemble(me', peer, true, window);
  }

  lemma StopKeepsEnd(me: End, opener: bool, window: nat)
    requires EndInv(me, opener, window) && me.phase == Idle
    ensures EndInv(Stopped(me), opener, window)
  {}

  lemma StopKeepsOut(me: End, peer: End, window: nat)
    requires Direction(me, peer, window) && me.phase == Idle
    ensures Direction(Stopped(me), peer, window)
  {
    OutIsKept(me, Stopped(me), peer, window);
  }

  lemma StopKeepsIn(me: End, peer: End, window: nat)
    requires Direction(peer, me, window) && me.phase == Idle
    ensures Direction(peer, Stopped(me), window)
  {
    InIsCut(me, Stopped(me), peer, window);
  }

  lemma StopKeepsOpening(me: End, peer: End, opener: bool)
    requires OpeningOf(me, peer, opener)
    ensures OpeningOf(Stopped(me), peer, opener)
  {}

  lemma StopKeeps(me: End, peer: End, opener: bool, window: nat, me': End)
    requires PairInv(me, peer, opener, window) && me.phase == Idle && me' == Stopped(me)
    ensures PairInv(me', peer, opener, window)
  {
    StopKeepsEnd(me, opener, window);
    StopKeepsOut(me, peer, window);
    StopKeepsIn(me, peer, window);
    StopKeepsOpening(me, peer, opener);
    Assemble(me', peer, opener, window);
  }

  lemma DropKeeps(me: End, peer: End, opener: bool, window: nat, me': End)
    requires PairInv(me, peer, opener, window) && me' == me.(slot := SlotDrop(me.slot))
    ensures PairInv(me', peer, opener, window)
  {
    DropKeepsEnd(me, opener, window);
    DropKeepsDirections(me, peer, window, me');
    OpeningIsKept(me, me', peer, opener);
    Assemble(me', peer, opener, window);
  }

  function WriteClosedEnd(me: End): End {
    me.(slot := SlotWriteClosed(me.slot), phase := Idle)
  }

  lemma CloseKeepsEnd(me: End, opener: bool, window: nat)
    requires EndInv(me, opener, window) && me.phase == Closing
    ensures EndInv(WriteClosedEnd(me), opener, window)
  {}

  lemma CloseKeepsOut(me: End, peer: End, window: nat)
    requires Direction(me, peer, window) && me.phase == Closing
    ensures Direction(WriteClosedEnd(me), peer, window)
  {
    OutIsKept(me, WriteClosedEnd(me), peer, window);
  }

  lemma CloseKeepsIn(me: End, peer: End, window: nat)
    requires Direction(me, peer, window) && Direction(peer, me, window) && me.phase == Closing
    ensures Direction(peer, WriteClosedEnd(me), window)
  {}

  lemma CloseKeeps(me: End, peer: End, opener: bool, window: nat, me': End)
    requires PairInv(me, peer, opener, window) && me.phase == Closing && me' == WriteClosedEnd(me)
    ensures PairInv(me', peer, opener, window)
  {
    CloseKeepsEnd(me, opener, window);
    CloseKeepsOut(me, peer, window);
    CloseKeepsIn(me, peer, window);
    OpeningIsKept(me, me', peer, opener);
    Assemble(me', peer, opener, window);
  }

  lemma ResetKeepsEnd(me: End, opener: bool, window: nat)
    requires EndInv(me, opener, window)
    ensures EndInv(me.(slot := SlotReset(me.slot, StreamClosed)), opener, window)
  {}

  lemma ResetKeepsOut(me: End, peer: End, window: nat, me': End)
    requires Direction(me, peer, window) && !Healthy(me, peer)
    requires me' == me.(slot := SlotReset(me.slot, StreamClosed))
    ensures Direction(me', peer, window)
  {}

  lemma ResetKeepsIn(me: End, peer: End, window: nat, me': End)
    requires Direction(peer, me, window) && !Healthy(me, peer)
    requires me' == me.(slot := SlotReset(me.slot, StreamClosed))
    ensures Direction(peer, me', window)
  {}

  lemma ResetKeepsOpening(me: End, peer: End, opener: bool, me': End)
    requires OpeningOf(me, peer, opener) && me' == me.(slot := SlotReset(me.slot, StreamClosed))
    ensures OpeningOf(me', peer, opener)
  {
    OpeningIsKept(me, me', peer, opener);
  }

  lemma ResetSlotKeeps(me: End, peer: End, opener: bool, window: nat, me': End)
    requires PairInv(me, peer, opener, window) && !Healthy(me, peer)
    requires me' == me.(slot := SlotReset(me.slot, StreamClosed))
    ensures PairInv(me', peer, opener, window)
  {
    ResetKeepsEnd(me, opener, window);
    ResetKeepsOut(me, peer, window, me');
    ResetKeepsIn(me, peer, window, me');
    ResetKeepsOpening(me, peer, opener, me');
    Assemble(me', peer, opener, window);
  }

  lemma ResetsDoNotMatter(e: End, opener: bool, window: nat, resets: nat)
    requires EndInv(e, opener, window)
    ensures EndInv(e.(resets := resets), opener, window)
  {}

  lemma ResetsChangeNoInput(x: End, y: End, window: nat, y': End)
    requires Direction(x, y, window) && y' == y.(resets := y'.resets)
    ensures Direction(x, y', window)
  {
    InIsKept(y, y', x, window);
  }

  lemma ResetsChangeNoOutput(x: End, y: End, window: nat, y': End)
    requires Direction(y, x, window) && y' == y.(resets := y'.resets) && (y'.resets == 0 || !Healthy(x, y))
    ensures Direction(y', x, window)
  {}

  lemma ResetsKeep(x: End, y: End, xOpens: bool, window: nat, y': End)
    requires PairInv(x, y, xOpens, window) && y' == y.(resets := y'.resets)
    requires y'.resets == 0 || !Healthy(x, y)
    ensures PairInv(x, y', xOpens, window)
  {
    ResetsDoNotMatter(y, !xOpens, window, y'.resets);
    ResetsChangeNoInput(x, y, window, y');
    ResetsChangeNoOutput(x, y, window, y');
    OpeningIsKept(y, y', x, !xOpens);
    Assemble(x, y', xOpens, window);
  }

  /** A reset is on its way only where one end is no longer healthy. */
  lemma ResetMeansUnhealthy(me: End, peer: End, window: nat)
    requires Direction(me, peer, window) && Direction(peer, me, window) && peer.resets > 0
    ensures !Healthy(me, peer) && !Healthy(me.(slot := SlotReset(me.slot, StreamClosed)), peer)
  {}

  lemma ResetKeeps(me: End, peer: End, opener: bool, window: nat, me': End, peer': End)
    requires PairInv(me, peer, opener, window) && peer.resets > 0
    requires me' == me.(slot := SlotReset(me.slot, StreamClosed)) && peer' == peer.(resets := peer.resets - 1)
    ensures PairInv(me', peer', opener, window)
  {
    ResetMeansUnhealthy(me, peer, window);
    ResetSlotKeeps(me, peer, opener, window, me');
    ResetsKeep(me', peer, opener, window, peer');
  }

  // ----- Accepting a new stream -----

  function StartSending(me: End): End
    requires me.phase.Accepting?
  {
    me.(phase := Sending(NewParcel(me.phase.frame)))
  }

  lemma StartSendingKeepsEnd(me: End, opener: bool, window: nat, me': End)
    requires EndInv(me, opener, window) && me.phase.Accepting? && me' == StartSending(me)
    ensures EndInv(me', opener, window) && InTransit(me') == InTransit(me)
  {}

  lemma StartSendingKeeps(me: End, peer: End, opener: bool, window: nat, me': End)
    requires PairInv(me, peer, opener, window) && me.phase.Accepting? && me' == StartSending(me)
    ensures PairInv(me', peer, opener, window)
  {
    StartSendingKeepsEnd(me, opener, window, me');
    OutIsKept(me, me', peer, window);
    InIsKept(me, me', peer, window);
    OpeningIsKept(me, me', peer, opener);
    Assemble(me', peer, opener, window);
  }

  function Rejected(me: End): End {
    Stopped(me.(slot := SlotDrop(me.slot)))
  }

  lemma RejectedKeepsEnd(me: End, opener: bool, window: nat, me': End)
    requires EndInv(me, opener, window) && me.phase.Accepting? && me' == Rejected(me)
    ensures EndInv(me', opener, window)
  {}

  lemma RejectedKeepsOut(me: End, peer: End, window: nat)
    requires Direction(me, peer, window) && me.phase.Accepting? && me.slot.known
    ensures Direction(Rejected(me), peer, window)
  {
    Concat(Held(me), me.incoming);
    assert InTransit(Rejected(me)) == me.incoming;
    OutIsKept(me, Rejected(me), peer, window);
  }

  lemma RejectedKeepsIn(me: End, peer: End, window: nat)
    requires Direction(peer, me, window) && me.phase.Accepting? && me.slot.known
    ensures Direction(peer, Rejected(me), window)
  {
    assert InTransit(Rejected(me)) == me.incoming;
    InIsCut(me, Rejected(me), peer, window);
  }

  lemma RejectedKeeps(me: End, peer: End, opener: bool, window: nat, me': End)
    requires PairInv(me, peer, opener, window) && me.phase.Accepting? && me' == Rejected(me)
    ensures PairInv(me', peer, opener, window)
  {
    RejectedKeepsEnd(me, opener, window, me');
    RejectedKeepsOut(me, peer, window);
    RejectedKeepsIn(me, peer, window);
    StopKeepsOpening(me.(slot := SlotDrop(me.slot)), peer, opener);
    Assemble(me', peer, opener, window);
  }

  lemma AcceptKeeps(me: End, peer: End, opener: bool, window: nat, ok: bool, me': End)
    requires PairInv(me, peer, opener, window) && me' == AcceptNext(me, ok)
    ensures PairInv(me', peer, opener, window)
  {
    if me.phase.Accepting? {
      if ok {
        StartSendingKeeps(me, peer, opener, window, me');
      } else {
        RejectedKeeps(me, peer, opener, window, me');
      }
    }
  }

  // ----- Taking a frame off the byte stream -----

  lemma NextInTransit(me: End, peer: End)
    requires Transfer(peer, me) && me.phase == Idle && me.incoming != []
    ensures var i := |peer.slot.emitted| - |me.incoming|;
      0 <= i < |peer.slot.emitted| && peer.slot.emitted[i] == me.incoming[0]
  {
    assert InTransit(me) == me.incoming;
  }

  /** A SYN is the first frame of its opener, and reaches an end that does not know the stream yet. */
  lemma SynIsFresh(me: End, peer: End, opener: bool, window: nat)
    requires PairInv(me, peer, opener, window) && me.phase == Idle && !me.stopped
    requires me.incoming != [] && me.incoming[0].IsSyn()
    ensures !opener && me.slot == BLANK && InTransit(me) == me.incoming == peer.slot.emitted
  {
    NextInTransit(me, peer);
    var i := |peer.slot.emitted| - |me.incoming|;
    assert me.incoming[0] in InTransit(me);
    assert KindOf(peer.slot.emitted[i]) == SynKind;
    assert peer.slot.Output()[i] == peer.slot.emitted[i];
    assert InTransit(me) == me.incoming;
  }

  function TakeFrame(me: End): End
    requires me.incoming != []
  {
    me.(incoming := me.incoming[1..], phase := Sending(NewParcel(me.incoming[0])))
  }

  lemma TakeFrameKeepsOpening(me: End, peer: End, opener: bool)
    requires OpeningOf(me, peer, opener) && 0 < |me.incoming| <= |peer.slot.emitted|
    requires peer.slot.emitted[|peer.slot.emitted| - |me.incoming|] == me.incoming[0]
    requires KindOf(me.incoming[0]) != SynKind
    ensures OpeningOf(TakeFrame(me), peer, opener)
  {}

  lemma TakenIsInTransit(me: End, me': End)
    requires me.phase == Idle && me.incoming != [] && me' == TakeFrame(me)
    ensures InTransit(me') == InTransit(me) && Held(me') == [me.incoming[0]]
  {
    assert InTransit(me') == me.incoming;
  }

  lemma TakeFrameKeepsEnd(me: End, opener: bool, window: nat, me': End)
    requires EndInv(me, opener, window) && me.phase == Idle && !me.stopped && me.incoming != []
    requires me' == TakeFrame(me)
    ensures EndInv(me', opener, window)
  {
    TakenIsInTransit(me, me');
  }

  lemma TakeFrameKeepsOut(me: End, peer: End, window: nat, me': End)
    requires Direction(me, peer, window) && me.phase == Idle && me.incoming != [] && me' == TakeFrame(me)
    ensures Direction(me', peer, window)
  {
    TakenIsInTransit(me, me');
    OutIsKept(me, me', peer, window);
  }

  lemma TakeFrameKeepsIn(me: End, peer: End, window: nat, me': End)
    requires Direction(peer, me, window) && me.phase == Idle && me.incoming != [] && me' == TakeFrame(me)
    ensures Direction(peer, me', window)
  {
    TakenIsInTransit(me, me');
    InIsKept(me, me', peer, window);
  }

  lemma TakeFrameKeeps(me: End, peer: End, opener: bool, window: nat, me': End)
    requires PairInv(me, peer, opener, window) && me.phase == Idle && !me.stopped
    requires me.incoming != [] && !me.incoming[0].IsSyn() && me' == TakeFrame(me)
    ensures PairInv(me', peer, opener, window)
  {
    TakeFrameKeepsEnd(me, opener, window, me');
    TakeFrameKeepsOut(me, peer, window, me');
    TakeFrameKeepsIn(me, peer, window, me');
    NextInTransit(me, peer);
    TakeFrameKeepsOpening(me, peer, opener);
    Assemble(me', peer, opener, window);
  }

  function AdmitStream(me: End, window: nat): End
    requires me.incoming != []
  {
    me.(incoming := me.incoming[1..], slot := NewSlot(window, false), phase := Accepting(me.incoming[0]))
  }

  lemma AdmitKeepsOut(me: End, peer: End, window: nat, me': End)
    requires Direction(me, peer, window) && InTransit(me') == InTransit(me)
    requires me.incoming != [] && me' == AdmitStream(me, window) && me.slot == BLANK
    requires InTransit(me) == peer.slot.emitted
    ensures Direction(me', peer, window)
  {}

  lemma AdmitKeepsIn(me: End, peer: End, window: nat, me': End)
    requires Direction(peer, me, window) && InTransit(me') == InTransit(me)
    requires me.incoming != [] && me' == AdmitStream(me, window) && me.slot == BLANK
    requires InTransit(me) == peer.slot.emitted
    ensures Direction(peer, me', window)
  {
    InIsKept(me, me', peer, window);
  }

  lemma AdmitKeepsDirections(me: End, peer: End, window: nat, me': End)
    requires Direction(me, peer, window) && Direction(peer, me, window)
    requires me.phase == Idle && !me.stopped && me.incoming != [] && me' == AdmitStream(me, window)
    requires me.slot == BLANK && InTransit(me) == me.incoming == peer.slot.emitted
    ensures Direction(me', peer, window) && Direction(peer, me', window)
  {
    assert InTransit(me') == InTransit(me);
    AdmitKeepsIn(me, peer, window, me');
    AdmitKeepsOut(me, peer, window, me');
  }

  lemma AdmitKeepsEnd(me: End, window: nat)
    requires EndInv(me, false, window) && me.phase == Idle && !me.stopped && me.incoming != []
    requires me.slot == BLANK && me.incoming[0].IsSyn()
    ensures EndInv(AdmitStream(me, window), false, window)
  {
    assert InTransit(AdmitStream(me, window)) == InTransit(me);
  }

  lemma AdmitKeepsOpening(me: End, peer: End, window: nat, me': End)
    requires OpeningOf(me, peer, false) && me.incoming != [] && me.incoming == peer.slot.emitted
    requires KindOf(peer.slot.emitted[0]) == SynKind && me' == AdmitStream(me, window)
    ensures OpeningOf(me', peer, false)
  {}

  lemma AdmitKeeps(me: End, peer: End, opener: bool, window: nat, me': End)
    requires PairInv(me, peer, opener, window) && me.phase == Idle && !me.stopped
    requires me.incoming != [] && me.incoming[0].IsSyn() && me' == AdmitStream(me, window)
    ensures PairInv(me', peer, opener, window)
  {
    SynIsFresh(me, peer, opener, window);
    AdmitKeepsEnd(me, window);
    AdmitKeepsDirections(me, peer, window, me');
    assert KindOf(peer.slot.emitted[0]) == SynKind by {
      assert me.incoming[0] in InTransit(me);
    }
    AdmitKeepsOpening(me, peer, window, me');
    Assemble(me', peer, opener, window);
  }

  function RefuseStream(me: End): End
    requires me.incoming != []
  {
    Stopped(me.(incoming := me.incoming[1..]))
  }

  lemma RefuseKeepsDirections(me: End, peer: End, window: nat, me': End)
    requires Direction(me, peer, window) && Direction(peer, me, window)
    requires me.phase == Idle && me.incoming != [] && me.slot == BLANK && me' == RefuseStream(me)
    ensures Direction(me', peer, window) && Direction(peer, me', window)
  {
    assert InTransit(me) == me.incoming;
    assert InTransit(me') == me.incoming[1..];
    OutIsKept(me, me', peer, window);
    InIsCut(me, me', peer, window);
  }

  lemma RefuseKeepsEnd(me: End, window: nat)
    requires EndInv(me, false, window) && me.phase == Idle && me.incoming != [] && me.slot == BLANK
    ensures EndInv(RefuseStream(me), false, window)
  {
    assert InTransit(me) == me.incoming;
    assert InTransit(RefuseStream(me)) == me.incoming[1..];
  }

  lemma RefuseKeepsOpening(me: End, peer: End, opener: bool, me': End)
    requires OpeningOf(me, peer, opener) && !opener && me.incoming != [] && me' == RefuseStream(me)
    ensures OpeningOf(me', peer, opener)
  {}

  lemma RefuseKeeps(me: End, peer: End, opener: bool, window: nat, me': End)
    requires PairInv(me, peer, opener, window) && me.phase == Idle && !me.stopped
    requires me.incoming != [] && me.incoming[0].IsSyn() && me' == RefuseStream(me)
    ensures PairInv(me', peer, opener, window)
  {
    SynIsFresh(me, peer, opener, window);
    RefuseKeepsEnd(me, window);
    RefuseKeepsDirections(me, peer, window, me');
    RefuseKeepsOpening(me, peer, opener, me');
    Assemble(me', peer, opener, window);
  }

  lemma ReceiveKeeps(me: End, peer: End, opener: bool, window: nat, ok: bool, me': End)
    requires PairInv(me, peer, opener, window) && me' == ReceiveNext(me, window, ok)
    ensures PairInv(me', peer, opener, window)
  {
    if me.phase == Idle && !me.stopped && me.incoming != [] {
      if !me.incoming[0].IsSyn() {
        TakeFrameKeeps(me, peer, opener, window, me');
      } else if ok {
        AdmitKeeps(me, peer, opener, window, me');
      } else {
        RefuseKeeps(me, peer, opener, window, me');
      }
    }
  }
}
