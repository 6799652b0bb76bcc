/** The accounts of a stream, with everything lost so far, balance after every step. */
module LinkAccounts {
  import opened Wrappers
  import opened Frames
  import opened Flows
  import opened StreamOutput
  import opened Windows
  import opened Streams
  import opened Managers
  import opened Links
  import opened LinkProofs
  import opened LinkSteps
  import opened LinkDelivery
  import opened LinkEmission
  import opened LinkGuarantees
  import opened LinkCredit

  // ----- Facts -----

  lemma {:induction false} CreditOfSuffix(tail: seq<Frame>, fs: seq<Frame>)
    requires IsSuffix(tail, fs)
    ensures CreditOf(tail) <= CreditOf(fs)
    decreases |fs|
  {
    if |tail| < |fs| {
      assert tail == fs[1..][|fs[1..]| - |tail|..];
      CreditOfSuffix(tail, fs[1..]);
    } else {
      assert tail == fs;
    }
  }

  lemma NothingHeld(y: End, window: nat)
    requires Wiring(y) && Incoming(y, window) && y.slot.delivered == []
    ensures Owing(y) == 0 && CreditOf(y.slot.emitted) == 0
  {
    assert y.slot.read == [];
    if y.slot.app.Some? {
      assert |y.slot.delivered| == |y.slot.read| + |ReadBuf(y)| + |PayloadOf(y.slot.inbox.queue)|;
    }
  }

  lemma NothingComing(fs: seq<Frame>, y: End)
    requires IsSuffix(InTransit(y), fs) && |fs| == 0
    ensures DataComing(y) == 0
  {
    assert |Held(y)| + |y.incoming| == |InTransit(y)| == 0;
  }

  lemma NothingReturned(x: End, y: End)
    requires InOrder(y, x) && CreditOf(y.slot.emitted) == 0
    ensures CreditComing(x) == 0
  {
    Concat(Held(x), x.incoming);
    CreditOfSuffix(InTransit(x), y.slot.emitted);
  }

  lemma NothingArrived(x: End, y: End, window: nat)
    requires Direction(x, y, window) && x.slot.emitted == []
    ensures IsSuffix(InTransit(y), x.slot.emitted) && y.slot.delivered == []
  {
    assert y.slot.delivered <= PayloadOf(x.slot.emitted);
  }

  /** Nothing is on its way from or to a sender that has not put out anything. */
  lemma NothingYet(x: End, y: End, opener: bool, window: nat)
    requires PairInv(x, y, opener, window) && x.slot.emitted == []
    ensures CreditComing(x) == 0 && DataComing(y) == 0 && Owing(y) == 0
  {
    NothingArrived(x, y, window);
    NothingComing(x.slot.emitted, y);
    NothingHeld(y, window);
    NothingReturned(x, y);
  }

  /** What `KnownStays` says of one step. */
  predicate Stays(x: End, x': End, window: nat, opens: bool) {
    && (x.slot.known ==> x'.slot.known)
    && (x.slot.known && x.slot.app.None? ==> x'.slot.app.None?)
    && (x.slot.known && x.slot.entry.None? ==> x'.slot.entry.None?)
    && (!x.slot.known && x'.slot.known ==>
          x'.slot == NewSlot(window, opens) && (x'.phase.Accepting? || x'.phase == x.phase))
    && (!x.slot.known && !x'.slot.known ==> x'.slot == BLANK)
  }

  lemma AppKeepsKnown(s: Slot, act: Act)
    requires !s.known ==> s == BLANK
    ensures act.ReadBytes? ==> SlotRead(s, act.remaining, act.full) == s || s.app.Some?
    ensures act.WriteBytes? ==> SlotWrite(s, act.buf, act.full) == s || s.app.Some?
    ensures act.ShutDown? ==> SlotShutdown(s, act.full, act.blocked) == s || s.app.Some?
    ensures SlotDrop(s) == s || s.app.Some?
  {}

  lemma AppActStays(id: StreamID, window: nat, x: End, y: End, opener: bool, act: Act, x': End, y': End)
    requires (x', y') == Step(id, window, x, y, opener, act) && (!x.slot.known ==> x.slot == BLANK)
    requires act.ReadBytes? || act.WriteBytes? || act.ShutDown? || act.DropStream?
    ensures Stays(x, x', window, false)
  {
    AppKeepsKnown(x.slot, act);
  }

  lemma DeliveryStays(x: End, full: bool, window: nat)
    requires !x.slot.known ==> x.slot == BLANK
    ensures Stays(x, DeliverNext(x, full), window, false)
  {
    assert BLANK.delivered + [] == BLANK.delivered;
  }

  lemma ReaderActStays(id: StreamID, window: nat, x: End, y: End, opener: bool, act: Act, x': End, y': End)
    requires (x', y') == Step(id, window, x, y, opener, act) && (act.Receive? || act.Accept? || act.Stop?)
    requires x.phase == Idle && !x.stopped && x.incoming != [] && x.incoming[0].IsSyn() ==> x.slot == BLANK
    requires !x.slot.known ==> x.slot == BLANK
    ensures Stays(x, x', window, false)
  {}

  /** A stream that is known stays known; a part of it that is gone stays gone; a new one is fresh. */
  lemma KnownStays(id: StreamID, window: nat, x: End, y: End, opener: bool, act: Act, x': End, y': End)
    requires (x', y') == Step(id, window, x, y, opener, act)
    requires x.phase == Idle && !x.stopped && x.incoming != [] && x.incoming[0].IsSyn() ==> x.slot == BLANK
    requires !x.slot.known ==> x.slot == BLANK
    ensures Stays(x, x', window, act.Open?)
  {
    if act.ReadBytes? || act.WriteBytes? || act.ShutDown? || act.DropStream? {
      AppActStays(id, window, x, y, opener, act, x', y');
    } else if act.Attempted? {
      DeliveryStays(x, act.full, window);
    } else if act.Receive? || act.Accept? || act.Stop? {
      ReaderActStays(id, window, x, y, opener, act, x', y');
    }
  }

  // ----- The window of the sender -----

  /** Nothing is lost before the stream is known, and what is lost is all that is missing. */
  predicate SenderBalances(x: End, y: End, lost: nat, window: nat) {
    && (!x.slot.known ==> lost == 0)
    && (x.slot.app.Some? ==> SenderTotal(x, y) + lost == window)
  }

  /** The two ways of saying what a poll of the application loses agree. */
  lemma AppSettlesBoth(id: StreamID, x: End, act: Act, x': End)
    requires act.ReadBytes? || act.WriteBytes? || act.ShutDown?
    requires AppSettles(x, x')
    requires |x'.slot.read| == |x.slot.read| + if act.ReadBytes? then |Returned(x.slot, act.remaining, act.full)| else 0
    ensures Settles(x, x', LostBySender(id, x, act), LostByReceiver(id, x, act))
  {}

  lemma AppActSettles(id: StreamID, window: nat, x: End, y: End, opener: bool, act: Act, x': End, y': End)
    requires PairInv(x, y, opener, window) && (x', y') == Step(id, window, x, y, opener, act)
    requires act.ReadBytes? || act.WriteBytes? || act.ShutDown?
    ensures AppSettles(x, x') && y' == y
    ensures |x'.slot.read| == |x.slot.read| + if act.ReadBytes? then |Returned(x.slot, act.remaining, act.full)| else 0
  {
    match act
    case ReadBytes(remaining, full) => ReadSettles(x, y, opener, window, remaining, full, x');
    case WriteBytes(buf, full) => WriteSettles(x, y, opener, window, buf, full, x');
    case ShutDown(full, blocked) => ShutdownSettles(x, y, opener, window, full, blocked, x');
  }

  lemma QuietOrReaderActSettles(id: StreamID, window: nat, x: End, y: End, opener: bool, act: Act, x': End, y': End)
    requires (x', y') == Step(id, window, x, y, opener, act)
    requires !(act.ReadBytes? || act.WriteBytes? || act.ShutDown? || act.EmitNext?)
    requires x.phase == Idle && !x.stopped && x.incoming != [] && x.incoming[0].IsSyn() ==> x.slot == BLANK
    requires !x.slot.known ==> x.slot == BLANK
    ensures Settles(x, x', LostBySender(id, x, act), LostByReceiver(id, x, act))
    ensures y' == y.(resets := y'.resets)
  {
    match act
    case Receive(ok) => ReceptionSettles(id, x, window, ok);
    case Accept(ok) => AcceptanceSettles(id, x, ok);
    case Attempted(full) => DeliverySettles(id, x, full, x');
    case Open => LifeActSettles(id, window, x, y, opener, act, x', y');
    case DropStream => LifeActSettles(id, window, x, y, opener, act, x', y');
    case _ => QuietActSettles(id, window, x, y, opener, act, x', y');
  }

  /** Every step but an emission settles at the end that takes it. */
  lemma ActSettles(id: StreamID, window: nat, x: End, y: End, opener: bool, act: Act, x': End, y': End)
    requires PairInv(x, y, opener, window) && (x', y') == Step(id, window, x, y, opener, act) && !act.EmitNext?
    ensures Settles(x, x', LostBySender(id, x, act), LostByReceiver(id, x, act))
    ensures y' == y.(resets := y'.resets)
  {
    SynMeansBlank(x, y, opener, window);
    if act.ReadBytes? || act.WriteBytes? || act.ShutDown? {
      AppActSettles(id, window, x, y, opener, act, x', y');
      AppSettlesBoth(id, x, act, x');
    } else {
      QuietOrReaderActSettles(id, window, x, y, opener, act, x', y');
    }
  }

  /** A step of the sender's own end takes what it loses off the total. */
  lemma SenderActs(id: StreamID, window: nat, x: End, y: End, opener: bool, act: Act, x': End, y': End)
    requires PairInv(x, y, opener, window) && (x', y') == Step(id, window, x, y, opener, act)
    requires x.slot.app.Some? && x'.slot.app.Some?
    ensures SenderTotal(x', y') + LostBySender(id, x, act) == SenderTotal(x, y)
  {
    TotalIsShares(x, y);
    TotalIsShares(x', y');
    if act.EmitNext? {
      EmissionSettles(id, window, x, y, opener, x', y');
    } else {
      ActSettles(id, window, x, y, opener, act, x', y');
    }
  }

  /** So does a step of the receiver's end, whether the sender still holds the stream or not. */
  lemma ReceiverActs(id: StreamID, window: nat, y: End, x: End, opener: bool, act: Act, y': End, x': End)
    requires PairInv(y, x, opener, window) && (y', x') == Step(id, window, y, x, opener, act)
    ensures CreditComing(x') + DataComing(y') + Owing(y') + LostByReceiver(id, y, act)
         == CreditComing(x) + DataComing(y) + Owing(y)
    ensures x'.slot == x.slot
  {
    if act.EmitNext? {
      EmissionSettles(id, window, y, x, opener, y', x');
    } else {
      ActSettles(id, window, y, x, opener, act, y', x');
    }
  }

  /** The first step of a sender is to know the stream, with its whole window. */
  lemma NewSenderBalances(x: End, y: End, opener: bool, window: nat, needsSyn: bool)
    requires PairInv(x, y, opener, window) && x.slot == NewSlot(window, needsSyn)
    ensures SenderBalances(x, y, 0, window)
  {
    NothingYet(x, y, opener, window);
    TotalIsShares(x, y);
  }

  lemma UnknownSenderLosesNothing(id: StreamID, x: End, act: Act)
    requires x.slot == BLANK && CreditComing(x) == 0
    ensures LostBySender(id, x, act) == 0
  {}

  lemma SenderStepBalances(id: StreamID, window: nat, x: End, y: End, opener: bool, act: Act, x': End, y': End,
                           lost: nat)
    requires Linked(x, y, opener, window) && Linked(x', y', opener, window)
    requires (x', y') == Step(id, window, x, y, opener, act) && SenderBalances(x, y, lost, window)
    ensures SenderBalances(x', y', lost + LostBySender(id, x, act), window)
  {
    LinkedMeans(x, y, opener, window);
    LinkedMeans(x', y', opener, window);
    SynMeansBlank(x, y, opener, window);
    KnownStays(id, window, x, y, opener, act, x', y');
    if !x.slot.known {
      NothingYet(x, y, opener, window);
      UnknownSenderLosesNothing(id, x, act);
      if x'.slot.known {
        NewSenderBalances(x', y', opener, window, act.Open?);
      }
    } else if x'.slot.app.Some? {
      SenderActs(id, window, x, y, opener, act, x', y');
    }
  }

  lemma ReceiverStepBalances(id: StreamID, window: nat, y: End, x: End, opener: bool, act: Act, y': End, x': End,
                             lost: nat)
    requires Linked(y, x, opener, window)
    requires (y', x') == Step(id, window, y, x, opener, act) && SenderBalances(x, y, lost, window)
    ensures SenderBalances(x', y', lost + LostByReceiver(id, y, act), window)
  {
    LinkedMeans(y, x, opener, window);
    ReceiverActs(id, window, y, x, opener, act, y', x');
    if !x.slot.known {
      PairSymmetric(y, x, opener, window);
      SynMeansBlank(x, y, !opener, window);
      NothingYet(x, y, !opener, window);
    } else if x.slot.app.Some? {
      TotalIsShares(x, y);
      TotalIsShares(x', y');
    }
  }

  // ----- The window of the receiving manager -----

  predicate HandleBalances(y: End, lost: nat, window: nat) {
    && (!y.slot.known ==> lost == 0)
    && (y.slot.entry.Some? ==> HandleTotal(y) + lost == window)
  }

  /** A poll of a delivery: what is taken off the window is no longer to be taken. */
  lemma DeliverShrinks(p: Parcel, e: Entry, code: U32, inbox: Chan, full: bool)
    ensures var d := Deliver(p, Some(e), code, inbox, full);
      && d.entry.Some? && d.parcel.frame == p.frame && d.parcel.shrink <= p.shrink
      && d.entry.value.window + p.shrink == e.window + d.parcel.shrink
      && (d.inbox != inbox ==> d.parcel.shrink == 0)
  {}

  lemma DeliveryWindow(y: End, full: bool, y': End)
    requires y.phase.Sending? && y' == DeliverNext(y, full) && y.slot.entry.Some?
    ensures var p, d := y.phase.parcel, Deliver(y.phase.parcel, y.slot.entry, y.slot.code, y.slot.inbox, full);
      && y'.slot.entry == d.entry && y'.slot.inbox == d.inbox
      && (if d.poll.Pending? then y'.phase == Sending(d.parcel) else !y'.phase.Sending? && Held(y') == [])
  {}

  lemma DeliveryKeepsHandle(y: End, full: bool, y': End)
    requires y.phase.Sending? && y' == DeliverNext(y, full) && y.slot.entry.Some?
    requires y.phase.parcel.shrink <= |y.phase.parcel.frame.Payload()|
    ensures y'.slot.entry.Some? && HandleTotal(y') + LostByHandle(y, Attempted(full)) == HandleTotal(y)
  {
    DeliveryCases(y, full, y');
    DeliveryWindow(y, full, y');
    DeliverShrinks(y.phase.parcel, y.slot.entry.value, y.slot.code, y.slot.inbox, full);
    Append(y.slot.inbox.queue, y.phase.parcel.frame);
  }

  lemma EmissionKeepsHandle(id: StreamID, window: nat, y: End, x: End, opener: bool, y': End, x': End)
    requires (y', x') == Step(id, window, y, x, opener, EmitNext) && y.slot.entry.Some? && y'.slot.entry.Some?
    ensures HandleTotal(y') == HandleTotal(y)
  {
    if CanEmit(y.slot) {
      var q := y.slot.outbox.queue;
      assert q != [] && CreditOf(q) == q[0].Credit() + CreditOf(q[1..]);
    }
  }

  lemma ReceivingKeepsHandle(y: End, window: nat, ok: bool, y': End)
    requires y' == ReceiveNext(y, window, ok) && y.slot.entry.Some? && y'.slot.entry.Some?
    requires y.phase == Idle && !y.stopped && y.incoming != [] && y.incoming[0].IsSyn() ==> y.slot == BLANK
    ensures HandleTotal(y') + LostByHandle(y, Receive(ok)) == HandleTotal(y)
  {}

  lemma AcceptingKeepsHandle(y: End, ok: bool, y': End)
    requires y' == AcceptNext(y, ok) && y.slot.entry.Some? && y'.slot.entry.Some?
    ensures HandleTotal(y') + LostByHandle(y, Accept(ok)) == HandleTotal(y)
  {}

  lemma ReaderActKeepsHandle(id: StreamID, window: nat, y: End, x: End, opener: bool, act: Act, y': End, x': End)
    requires (y', x') == Step(id, window, y, x, opener, act)
    requires act.Receive? || act.Accept?
    requires y.phase == Idle && !y.stopped && y.incoming != [] && y.incoming[0].IsSyn() ==> y.slot == BLANK
    requires y.slot.entry.Some? && y'.slot.entry.Some?
    ensures HandleTotal(y') + LostByHandle(y, act) == HandleTotal(y)
  {
    if act.Receive? {
      ReceivingKeepsHandle(y, window, act.ok, y');
    } else {
      AcceptingKeepsHandle(y, act.ok, y');
    }
  }

  lemma OtherActKeepsHandle(id: StreamID, window: nat, y: End, x: End, opener: bool, act: Act, y': End, x': End)
    requires (y', x') == Step(id, window, y, x, opener, act)
    requires act.Open? || act.DropStream? || act.CloseWrite? || act.HandleReset? || act.Stop?
    requires y.slot.known && y.slot.entry.Some? && y'.slot.entry.Some?
    ensures HandleTotal(y') + LostByHandle(y, act) == HandleTotal(y)
  {}

  lemma ShrinkIsBounded(y: End, x: End, opener: bool, window: nat)
    requires PairInv(y, x, opener, window) && y.phase.Sending?
    ensures y.phase.parcel.shrink <= |y.phase.parcel.frame.Payload()|
  {
    assert Shapes(y);
  }

  lemma AppKeepsHandle(y: End, act: Act, y': End)
    requires act.ReadBytes? || act.WriteBytes? || act.ShutDown?
    requires AppSettles(y, y') && y.slot.entry.Some?
    requires |y'.slot.read| == |y.slot.read| + if act.ReadBytes? then |Returned(y.slot, act.remaining, act.full)| else 0
    ensures HandleTotal(y') + LostByHandle(y, act) == HandleTotal(y)
  {}

  lemma ActKeepsHandle(id: StreamID, window: nat, y: End, x: End, opener: bool, act: Act, y': End, x': End)
    requires PairInv(y, x, opener, window) && (y', x') == Step(id, window, y, x, opener, act)
    requires y.slot.known && y.slot.entry.Some? && y'.slot.entry.Some?
    ensures HandleTotal(y') + LostByHandle(y, act) == HandleTotal(y)
  {
    if act.ReadBytes? || act.WriteBytes? || act.ShutDown? {
      AppActSettles(id, window, y, x, opener, act, y', x');
      AppKeepsHandle(y, act, y');
    } else if act.EmitNext? {
      EmissionKeepsHandle(id, window, y, x, opener, y', x');
    } else if act.Attempted? {
      if y.phase.Sending? {
        ShrinkIsBounded(y, x, opener, window);
        DeliveryKeepsHandle(y, act.full, y');
      }
    } else if act.Receive? || act.Accept? {
      SynMeansBlank(y, x, opener, window);
      ReaderActKeepsHandle(id, window, y, x, opener, act, y', x');
    } else {
      OtherActKeepsHandle(id, window, y, x, opener, act, y', x');
    }
  }

  lemma UnknownLosesNothing(y: End, act: Act)
    requires y.slot == BLANK
    ensures LostByHandle(y, act) == 0
  {}

  lemma NewHandleBalances(y: End, window: nat, needsSyn: bool)
    requires y.slot == NewSlot(window, needsSyn) && !y.phase.Sending?
    ensures HandleBalances(y, 0, window)
  {}

  lemma OnlyOpensAndSyns(id: StreamID, window: nat, y: End, x: End, opener: bool, act: Act, y': End, x': End)
    requires !opener && y.slot == BLANK && y.phase.Sending?
    requires (y', x') == Step(id, window, y, x, opener, act)
    ensures !y'.slot.known
  {}

  lemma NewHandleIsNotSending(id: StreamID, window: nat, y: End, x: End, opener: bool, act: Act, y': End, x': End)
    requires PairInv(y, x, opener, window) && y.slot == BLANK
    requires (y', x') == Step(id, window, y, x, opener, act)
    requires y'.slot == NewSlot(window, act.Open?) && (y'.phase.Accepting? || y'.phase == y.phase)
    ensures !y'.phase.Sending?
  {
    if opener {
      UnknownIsUntouched(y, x, window);
    } else if y'.phase.Sending? {
      OnlyOpensAndSyns(id, window, y, x, opener, act, y', x');
    }
  }

  lemma UnknownHandle(id: StreamID, window: nat, y: End, x: End, opener: bool, act: Act, y': End, x': End)
    requires PairInv(y, x, opener, window) && y.slot == BLANK
    requires (y', x') == Step(id, window, y, x, opener, act)
    requires y'.slot == BLANK
          || (y'.slot == NewSlot(window, act.Open?) && (y'.phase.Accepting? || y'.phase == y.phase))
    ensures LostByHandle(y, act) == 0
    ensures HandleBalances(y', 0, window)
  {
    UnknownLosesNothing(y, act);
    if y'.slot != BLANK {
      NewHandleIsNotSending(id, window, y, x, opener, act, y', x');
      NewHandleBalances(y', window, act.Open?);
    }
  }

  lemma HandleStepBalances(id: StreamID, window: nat, y: End, x: End, opener: bool, act: Act, y': End, x': End,
                           lost: nat)
    requires Linked(y, x, opener, window) && (y', x') == Step(id, window, y, x, opener, act)
    requires HandleBalances(y, lost, window)
    ensures HandleBalances(y', lost + LostByHandle(y, act), window)
  {
    LinkedMeans(y, x, opener, window);
    SynMeansBlank(y, x, opener, window);
    KnownStays(id, window, y, x, opener, act, y', x');
    if !y.slot.known {
      UnknownHandle(id, window, y, x, opener, act, y', x');
    } else if y'.slot.entry.Some? {
      ActKeepsHandle(id, window, y, x, opener, act, y', x');
    }
  }

  // ----- Healthy streams -----

  /** The credit that comes back to a healthy end. */
  lemma HealthyCredit(x: End, y: End, opener: bool, window: nat)
    requires PairInv(x, y, opener, window) && Healthy(x, y) && x.slot.app.Some?
    ensures x.slot.app.value.window.size + |x.slot.accepted| + CreditOf(x.slot.inbox.queue) + CreditOf(InTransit(x))
         == window + CreditOf(y.slot.emitted)
    ensures CreditOf(y.slot.emitted) + CreditOf(y.slot.outbox.queue) == |y.slot.read|
  {}

  lemma WholeSender(x: End, y: End, window: nat)
    requires x.slot.app.Some? && x.slot.accepted == y.slot.read + OnTheWay(x, y)
    requires x.slot.app.value.window.size + |x.slot.accepted| + CreditOf(x.slot.inbox.queue) + CreditOf(InTransit(x))
          == window + CreditOf(y.slot.emitted)
    requires CreditOf(y.slot.emitted) + CreditOf(y.slot.outbox.queue) == |y.slot.read|
    ensures SenderTotal(x, y) == window
  {
    Concat(Held(x), x.incoming);
    assert |x.slot.accepted| == |y.slot.read| + |OnTheWay(x, y)|;
  }

  /** While both ends are healthy nothing is missing from either window. */
  lemma HealthySenderIsWhole(x: End, y: End, opener: bool, window: nat)
    requires PairInv(x, y, opener, window) && Healthy(x, y) && x.slot.app.Some?
    ensures SenderTotal(x, y) == window
  {
    NothingIsLost(x, y, opener, window);
    HealthyCredit(x, y, opener, window);
    WholeSender(x, y, window);
  }

  lemma WholeHandle(y: End, window: nat)
    requires Incoming(y, window) && y.slot.entry.Some? && y.slot.app.Some? && y.slot.code == 0
    requires CreditOf(y.slot.emitted) + CreditOf(y.slot.outbox.queue) == |y.slot.read|
    ensures HandleTotal(y) == window
  {
    assert |y.slot.delivered| == |y.slot.read| + |y.slot.app.value.readBuf| + |PayloadOf(y.slot.inbox.queue)|;
  }

  lemma HealthyEnds(x: End, y: End, opener: bool, window: nat)
    requires PairInv(x, y, opener, window) && Healthy(x, y) && y.slot.entry.Some?
    ensures Incoming(y, window) && y.slot.app.Some? && y.slot.code == 0
    ensures CreditOf(y.slot.emitted) + CreditOf(y.slot.outbox.queue) == |y.slot.read|
  {
    HealthyHandles(x, y, opener, window);
  }

  lemma HealthyHandleIsWhole(x: End, y: End, opener: bool, window: nat)
    requires PairInv(x, y, opener, window) && Healthy(x, y) && y.slot.entry.Some?
    ensures HandleTotal(y) == window
  {
    HealthyEnds(x, y, opener, window);
    WholeHandle(y, window);
  }

  /** All credit that may still come back fits under the cap of the window. */
  lemma AllCreditFits(x: End, y: End, opener: bool, window: nat)
    requires PairInv(x, y, opener, window) && x.slot.app.Some?
    ensures x.slot.app.value.window.size + CreditOnTheWay(x, y) <= window == x.slot.app.value.window.maxSize
  {
    Concat(Held(x), x.incoming);
    assert CreditOf(y.slot.emitted) + CreditOf(y.slot.outbox.queue) <= |y.slot.read| <= |y.slot.delivered|
        <= |PayloadOf(x.slot.emitted)| <= |x.slot.accepted|;
  }
}
