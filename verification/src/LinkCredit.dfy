/**
 * Where the credit of a stream is, and which steps lose some: every step of either end takes exactly
 * what it loses off the total.
 */
module LinkCredit {
  import opened Wrappers
  import opened Frames
  import opened Flows
  import opened StreamOutput
  import opened Windows
  import opened Streams
  import opened Managers
  import opened Links
  import opened LinkProofs
  import opened LinkSteps
  import opened LinkDelivery
  import opened LinkEmission
  import opened LinkGuarantees

  // ----- The totals -----

  /** Credit on its way back to `x`, in the four places it can be in. */
  function CreditOnTheWay(x: End, y: End): nat {
    CreditOf(y.slot.outbox.queue) + CreditOf(Held(x)) + CreditOf(x.incoming) + CreditOf(x.slot.inbox.queue)
  }

  /** The sender's window, the bytes on their way to the reader, and the credit on its way back. */
  function SenderTotal(x: End, y: End): nat
    requires x.slot.app.Some?
  {
    x.slot.app.value.window.size + |OnTheWay(x, y)| + CreditOnTheWay(x, y)
  }

  /** Bytes the stream holds unread, and credit it has queued for bytes that were read. */
  function Owing(e: End): nat {
    |ReadBuf(e)| + |PayloadOf(e.slot.inbox.queue)| + CreditOf(e.slot.outbox.queue)
  }

  /** The receiving manager's window, what has been taken off it, and the credit not yet passed on. */
  function HandleTotal(y: End): nat
    requires y.slot.entry.Some?
  {
    y.slot.entry.value.window + Shrunk(y) + Owing(y)
  }

  /** The sender's window, the bytes queued behind it and the credit it has not handled. */
  function Paid(e: End): nat {
    (if e.slot.app.Some? then e.slot.app.value.window.size else 0)
    + |PayloadOf(e.slot.outbox.queue)| + CreditOf(e.slot.inbox.queue)
  }

  function DataComing(e: End): nat {
    |PayloadOf(Held(e))| + |PayloadOf(e.incoming)|
  }

  function CreditComing(e: End): nat {
    CreditOf(Held(e)) + CreditOf(e.incoming)
  }

  lemma TotalIsShares(x: End, y: End)
    requires x.slot.app.Some?
    ensures SenderTotal(x, y) == Paid(x) + CreditComing(x) + DataComing(y) + Owing(y)
  {}

  // ----- What a step loses -----

  /** A delivery finishes without the frame entering the channel of the stream. */
  predicate Discards(e: End, full: bool) {
    && e.phase.Sending?
    && var d := Deliver(e.phase.parcel, e.slot.entry, e.slot.code, e.slot.inbox, full);
       d.poll.Ready? && d.inbox == e.slot.inbox
  }

  /** The manager removes the stream, with whatever waits in its outgoing channel. */
  predicate Removes(e: End, id: StreamID) {
    CanEmit(e.slot) && EmissionOf(e.slot, id).entry.None?
  }

  /** What a dropped stream had not given to its application. */
  function Unread(e: End): nat {
    if e.slot.app.Some? then |ReadBuf(e)| + |PayloadOf(e.slot.inbox.queue)| else 0
  }

  /** Lost to the window of sender `x` by its own end: queued bytes dropped, or credit discarded. */
  function LostBySender(id: StreamID, x: End, act: Act): nat {
    match act
    case EmitNext => if Removes(x, id) then |PayloadOf(x.slot.outbox.queue)| else 0
    case Attempted(full) => if Discards(x, full) then CreditOf(Held(x)) else 0
    case _ => 0
  }

  /**
   * Lost to the sender by the receiving end `y`: bytes read while the sink is closed, bytes refused,
   * bytes dropped with their stream or with a refused SYN, queued credit dropped on removal.
   */
  function LostByReceiver(id: StreamID, y: End, act: Act): nat {
    match act
    case ReadBytes(remaining, full) => if y.slot.code != 0 then |Returned(y.slot, remaining, full)| else 0
    case DropStream => Unread(y)
    case EmitNext => if Removes(y, id) then CreditOf(y.slot.outbox.queue) else 0
    case Receive(ok) =>
      if y.phase == Idle && !y.stopped && y.incoming != [] && y.incoming[0].IsSyn() && !ok then
        |y.incoming[0].Payload()|
      else 0
    case Accept(ok) => if y.phase.Accepting? && !ok then |PayloadOf(Held(y))| + Unread(y) else 0
    case Attempted(full) => if Discards(y, full) then |PayloadOf(Held(y))| else 0
    case _ => 0
  }

  /** Lost to the window of the receiving manager: the same, as far as it had been taken off it. */
  function LostByHandle(y: End, act: Act): nat {
    match act
    case ReadBytes(remaining, full) => if y.slot.code != 0 then |Returned(y.slot, remaining, full)| else 0
    case DropStream => Unread(y)
    case Accept(ok) => if y.phase.Accepting? && !ok then Unread(y) else 0
    case Attempted(full) =>
      if Discards(y, full) && y.slot.entry.Some? then
        var d := Deliver(y.phase.parcel, y.slot.entry, y.slot.code, y.slot.inbox, full);
        if d.parcel.shrink <= |y.phase.parcel.frame.Payload()| then
          |y.phase.parcel.frame.Payload()| - d.parcel.shrink
        else 0
      else 0
    case _ => 0
  }

  // ----- Applications -----

  /** What a poll of the application does to both shares; bytes read through a closed sink are lost. */
  ghost predicate AppSettles(me: End, me': End) {
    && me'.phase == me.phase && me'.incoming == me.incoming && me'.slot.entry == me.slot.entry
    && me'.slot.code == me.slot.code && |me.slot.read| <= |me'.slot.read|
    && (me.slot.app.Some? <==> me'.slot.app.Some?)
    && Paid(me') == Paid(me)
    && Owing(me') + (if me.slot.code != 0 then |me'.slot.read| - |me.slot.read| else 0) == Owing(me)
  }

  lemma MoveSettles(me: End, m: Move, window: nat)
    requires Allowed(me, m)
    requires me.slot.app.value.window.size + CreditOf(me.slot.inbox.queue) <= window == me.slot.app.value.window.maxSize
    ensures AppSettles(me, Apply(me, m))
  {
    match m
    case Handle(mid) =>
      assert |mid.app.readBuf + PayloadOf(mid.inbox.queue)|
          == |me.slot.app.value.readBuf + PayloadOf(me.slot.inbox.queue)|;
    case Take(n) =>
      PushedOutput(TakeBytes(me, n).slot, FrameFrom(Body.WndInc(n)));
      CreditIsSound(n);
    case Mark(_) =>
    case Chunk(chunk) =>
      PushedOutput(me.slot, WriteFrame(me.slot.State(), chunk));
      ChunkIsSound(me.slot.State(), chunk);
    case Finish =>
      PushedOutput(MarkClosed(me, StreamClosed).slot, FinFrame());
      FinIsSound();
  }

  lemma FitsAt(me: End, peer: End, opener: bool, window: nat)
    requires PairInv(me, peer, opener, window) && me.slot.app.Some?
    ensures me.slot.app.value.window.size + CreditOf(me.slot.inbox.queue) <= window == me.slot.app.value.window.maxSize
  {
    CreditFits(me, peer, opener, window);
  }

  lemma AppSettlesTransitive(a: End, b: End, c: End)
    requires AppSettles(a, b) && AppSettles(b, c)
    ensures AppSettles(a, c)
  {}

  lemma {:induction false} MovesSettle(me: End, peer: End, opener: bool, window: nat, ms: seq<Move>, me': End)
    requires PairInv(me, peer, opener, window) && AllAllowed(me, ms) && me' == ApplyAll(me, ms)
    ensures AppSettles(me, me')
    decreases |ms|
  {
    if ms != [] {
      var me1 := Apply(me, ms[0]);
      FitsAt(me, peer, opener, window);
      MoveSettles(me, ms[0], window);
      MoveKeeps(me, peer, opener, window, ms[0]);
      MovesSettle(me1, peer, opener, window, ms[1..], me');
      AppSettlesTransitive(me, me1, me');
    }
  }

  lemma ReadSettles(me: End, peer: End, opener: bool, window: nat, remaining: nat, full: bool, me': End)
    requires PairInv(me, peer, opener, window) && me' == me.(slot := SlotRead(me.slot, remaining, full))
    ensures AppSettles(me, me') && |me'.slot.read| == |me.slot.read| + |Returned(me.slot, remaining, full)|
  {
    EndsAreSane(me, opener, window);
    var ms := ReadMoves(me, remaining, full);
    MovesSettle(me, peer, opener, window, ms, me');
  }

  lemma WriteSettles(me: End, peer: End, opener: bool, window: nat, buf: seq<Byte>, full: bool, me': End)
    requires PairInv(me, peer, opener, window) && me' == me.(slot := SlotWrite(me.slot, buf, full))
    ensures AppSettles(me, me') && me'.slot.read == me.slot.read
  {
    EndsAreSane(me, opener, window);
    var ms := WriteMoves(me, buf, full);
    MovesSettle(me, peer, opener, window, ms, me');
  }

  lemma ShutdownSettles(me: End, peer: End, opener: bool, window: nat, full: bool, blocked: bool, me': End)
    requires PairInv(me, peer, opener, window) && me' == me.(slot := SlotShutdown(me.slot, full, blocked))
    ensures AppSettles(me, me') && me'.slot.read == me.slot.read
  {
    EndsAreSane(me, opener, window);
    var ms := ShutdownMoves(me, full, blocked);
    MovesSettle(me, peer, opener, window, ms, me');
  }

  // ----- The reader, and the other steps of one end -----

  /** Frames move towards the stream or are lost on the way. */
  ghost predicate Settles(e: End, e': End, asSender: nat, asReceiver: nat) {
    && (e.slot.app.Some? && e'.slot.app.Some? ==> Paid(e') + CreditComing(e') + asSender == Paid(e) + CreditComing(e))
    && Owing(e') + DataComing(e') + asReceiver == Owing(e) + DataComing(e)
  }

  /** A poll of a delivery keeps the frame, discards it, or puts it into the channel. */
  lemma DeliveryCases(e: End, full: bool, e': End)
    requires e.phase.Sending? && e' == DeliverNext(e, full)
    ensures e' == e.(slot := e'.slot, phase := e'.phase, resets := e'.resets)
    ensures e'.slot.app == e.slot.app && e'.slot.outbox == e.slot.outbox
    ensures Held(e') == Held(e) || Held(e') == []
    ensures Discards(e, full) ==> Held(e') == [] && e'.slot.inbox == e.slot.inbox
    ensures !Discards(e, full) ==>
      if Held(e') == [] then e'.slot.inbox == e.slot.inbox.Push(e.phase.parcel.frame) else e'.slot.inbox == e.slot.inbox
  {
    assert |e.slot.inbox.Push(e.phase.parcel.frame).queue| == |e.slot.inbox.queue| + 1;
  }

  lemma DeliveryCaseSettles(e: End, e': End, discarded: bool)
    requires e' == e.(slot := e'.slot, phase := e'.phase, resets := e'.resets)
    requires e'.slot.app == e.slot.app && e'.slot.outbox == e.slot.outbox && |Held(e)| == 1
    requires Held(e') == Held(e) || Held(e') == []
    requires discarded ==> Held(e') == [] && e'.slot.inbox == e.slot.inbox
    requires !discarded ==>
      if Held(e') == [] then e'.slot.inbox == e.slot.inbox.Push(Held(e)[0]) else e'.slot.inbox == e.slot.inbox
    ensures Settles(e, e', if discarded then CreditOf(Held(e)) else 0, if discarded then |PayloadOf(Held(e))| else 0)
  {
    Concat(e.slot.inbox.queue, Held(e));
    assert Held(e) == [Held(e)[0]];
  }

  lemma DeliverySettles(id: StreamID, e: End, full: bool, e': End)
    requires e' == DeliverNext(e, full)
    ensures Settles(e, e', LostBySender(id, e, Attempted(full)), LostByReceiver(id, e, Attempted(full)))
  {
    if e.phase.Sending? {
      DeliveryCases(e, full, e');
      DeliveryCaseSettles(e, e', Discards(e, full));
    }
  }

  lemma FirstComing(e: End)
    requires e.incoming != []
    ensures PayloadOf(e.incoming) == e.incoming[0].Payload() + PayloadOf(e.incoming[1..])
    ensures CreditOf(e.incoming) == e.incoming[0].Credit() + CreditOf(e.incoming[1..])
    ensures PayloadOf([e.incoming[0]]) == e.incoming[0].Payload()
    ensures CreditOf([e.incoming[0]]) == e.incoming[0].Credit()
  {
    Single(e.incoming[0]);
  }

  lemma ReceptionSettles(id: StreamID, e: End, window: nat, ok: bool)
    requires e.phase == Idle && !e.stopped && e.incoming != [] && e.incoming[0].IsSyn() ==> e.slot == BLANK
    ensures Settles(e, ReceiveNext(e, window, ok), LostBySender(id, e, Receive(ok)), LostByReceiver(id, e, Receive(ok)))
  {
    if e.phase == Idle && !e.stopped && e.incoming != [] {
      FirstComing(e);
    }
  }

  lemma AcceptanceSettles(id: StreamID, e: End, ok: bool)
    ensures Settles(e, AcceptNext(e, ok), LostBySender(id, e, Accept(ok)), LostByReceiver(id, e, Accept(ok)))
  {}

  lemma LifeActSettles(id: StreamID, window: nat, e: End, peer: End, opener: bool, act: Act, e': End, peer': End)
    requires (e', peer') == Step(id, window, e, peer, opener, act) && (act.Open? || act.DropStream?)
    requires !e.slot.known ==> e.slot == BLANK
    ensures Settles(e, e', LostBySender(id, e, act), LostByReceiver(id, e, act)) && peer' == peer
  {}

  lemma QuietActSettles(id: StreamID, window: nat, e: End, peer: End, opener: bool, act: Act, e': End, peer': End)
    requires (e', peer') == Step(id, window, e, peer, opener, act)
    requires act.CloseWrite? || act.HandleReset? || act.Stop?
    ensures Settles(e, e', LostBySender(id, e, act), LostByReceiver(id, e, act))
    ensures peer' == peer.(resets := peer'.resets)
  {}

  // ----- The manager passes frames on -----

  /** The queue is what stays, what is passed on, and what is dropped with a removed stream. */
  lemma EmissionParts(id: StreamID, s: Slot)
    requires CanEmit(s)
    ensures var em, q := EmissionOf(s, id), s.outbox.queue;
      var passed := if em.frame.Some? then [em.frame.value] else [];
      && |PayloadOf(em.outbox.queue)| + |PayloadOf(passed)| + (if em.entry.None? then |PayloadOf(q)| else 0)
          == |PayloadOf(q)|
      && CreditOf(em.outbox.queue) + CreditOf(passed) + (if em.entry.None? then CreditOf(q) else 0) == CreditOf(q)
  {
    var em, q := EmissionOf(s, id), s.outbox.queue;
    if em.frame.Some? {
      Single(em.frame.value);
    }
    if q != [] {
      assert PayloadOf(q) == q[0].Payload() + PayloadOf(q[1..]) && CreditOf(q) == q[0].Credit() + CreditOf(q[1..]);
    } else {
      FinIsSound();
    }
  }

  function PassedOn(id: StreamID, s: Slot): seq<Frame> {
    if CanEmit(s) && EmissionOf(s, id).frame.Some? then [EmissionOf(s, id).frame.value] else []
  }

  lemma EmissionMoves(id: StreamID, window: nat, e: End, peer: End, opener: bool, e': End, peer': End)
    requires (e', peer') == Step(id, window, e, peer, opener, EmitNext)
    ensures peer' == peer.(incoming := peer.incoming + PassedOn(id, e.slot))
    ensures e' == e.(slot := e'.slot) && e'.slot.app == e.slot.app && e'.slot.inbox.queue == e.slot.inbox.queue
    ensures e'.slot.outbox == if CanEmit(e.slot) then EmissionOf(e.slot, id).outbox else e.slot.outbox
  {
    assert peer.incoming + [] == peer.incoming;
  }

  /** What leaves the queue of `e` is passed on to `peer`, or lost. */
  lemma PassedAddsUp(e: End, peer: End, e': End, peer': End, passed: seq<Frame>, bytes: nat, credit: nat)
    requires peer' == peer.(incoming := peer.incoming + passed)
    requires e'.slot.app == e.slot.app && e'.slot.inbox.queue == e.slot.inbox.queue
    requires |PayloadOf(e'.slot.outbox.queue)| + |PayloadOf(passed)| + bytes == |PayloadOf(e.slot.outbox.queue)|
    requires CreditOf(e'.slot.outbox.queue) + CreditOf(passed) + credit == CreditOf(e.slot.outbox.queue)
    ensures Paid(e') + DataComing(peer') + bytes == Paid(e) + DataComing(peer)
    ensures Owing(e') + CreditComing(peer') + credit == Owing(e) + CreditComing(peer)
  {
    Concat(peer.incoming, passed);
    assert Held(peer') == Held(peer) && ReadBuf(e') == ReadBuf(e);
  }

  lemma EmissionSettles(id: StreamID, window: nat, e: End, peer: End, opener: bool, e': End, peer': End)
    requires (e', peer') == Step(id, window, e, peer, opener, EmitNext)
    ensures Paid(e') + DataComing(peer') + LostBySender(id, e, EmitNext) == Paid(e) + DataComing(peer)
    ensures Owing(e') + CreditComing(peer') + LostByReceiver(id, e, EmitNext) == Owing(e) + CreditComing(peer)
    ensures e'.incoming == e.incoming && e'.phase == e.phase && e'.slot.app == e.slot.app
    ensures peer' == peer.(incoming := peer'.incoming)
  {
    EmissionMoves(id, window, e, peer, opener, e', peer');
    if CanEmit(e.slot) {
      EmissionParts(id, e.slot);
      PassedAddsUp(e, peer, e', peer', PassedOn(id, e.slot),
                   LostBySender(id, e, EmitNext), LostByReceiver(id, e, EmitNext));
    } else {
      assert peer.incoming + [] == peer.incoming;
    }
  }

  // ----- Every step -----

  lemma SynMeansBlank(x: End, y: End, opener: bool, window: nat)
    requires PairInv(x, y, opener, window)
    ensures x.phase == Idle && !x.stopped && x.incoming != [] && x.incoming[0].IsSyn() ==> x.slot == BLANK
    ensures !x.slot.known ==> x.slot == BLANK
  {
    if x.phase == Idle && !x.stopped && x.incoming != [] && x.incoming[0].IsSyn() {
      SynIsFresh(x, y, opener, window);
    }
  }
}
