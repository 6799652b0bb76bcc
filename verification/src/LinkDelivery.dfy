/** The delivery of a frame to a stream: what is refused, what is lost, what arrives. */
module LinkDelivery {
  import opened Wrappers
  import opened Frames
  import opened Flows
  import opened StreamOutput
  import opened Windows
  import opened Streams
  import opened Managers
  import opened Links
  import opened LinkProofs
  import opened LinkSteps

  /** The frame in the reader's hands is the next one of the other end's output. */
  lemma HeldIsNext(me: End, peer: End)
    requires InOrder(peer, me) && me.phase.Sending?
    ensures var out := peer.slot.emitted;
      var i := Handled(peer, me);
      && i < |out| && out[i] == me.phase.parcel.frame && me.incoming == out[i + 1..]
      && |me.incoming| == |out| - i - 1
      && out[..i + 1] == out[..i] + [me.phase.parcel.frame]
      && out == out[..i] + InTransit(me)
  {
    var out := peer.slot.emitted;
    var i := Handled(peer, me);
    assert InTransit(me)[0] == me.phase.parcel.frame;
    assert InTransit(me)[1..] == me.incoming;
  }

  /** The reader is done with the held frame; `me'` may hold `Closing` for it if it was a FIN. */
  ghost predicate HeldDone(me: End, me': End) {
    && me.phase.Sending? && me'.incoming == me.incoming && Held(me') == []
    && (me'.phase == Closing ==> me.phase.parcel.frame.IsFin())
  }

  lemma AfterHeld(me: End, peer: End, me': End)
    requires InOrder(peer, me) && HeldDone(me, me')
    ensures InTransit(me') == me.incoming && IsSuffix(me.incoming, peer.slot.emitted)
    ensures Handled(peer, me') == Handled(peer, me) + 1
    ensures me'.phase == Closing ==> FinWithin(peer.slot.emitted, Handled(peer, me'))
    ensures FinWithin(peer.slot.emitted, Handled(peer, me)) ==> FinWithin(peer.slot.emitted, Handled(peer, me'))
  {
    HeldIsNext(me, peer);
    assert InTransit(me') == me.incoming;
  }

  lemma HeldDoneKeepsOrder(me: End, peer: End, me': End)
    requires InOrder(peer, me) && HeldDone(me, me')
    ensures InOrder(peer, me')
  {
    AfterHeld(me, peer, me');
  }

  lemma HeldIsSound(me: End)
    requires Shapes(me) && me.phase.Sending?
    ensures Sound(me.phase.parcel.frame)
  {
    assert me.phase.parcel.frame in InTransit(me);
  }

  lemma InTransitSplit(me: End)
    requires me.phase.Sending?
    ensures PayloadOf(InTransit(me)) == me.phase.parcel.frame.Payload() + PayloadOf(me.incoming)
    ensures CreditOf(InTransit(me)) == me.phase.parcel.frame.Credit() + CreditOf(me.incoming)
  {
    Concat(Held(me), me.incoming);
    Single(me.phase.parcel.frame);
  }

  /**
   * Between two ends with the same window the receiver's count never falls short: the check that
   * would reset the stream for flow control does not fail.
   */
  lemma NoFlowControl(me: End, peer: End, opener: bool, window: nat)
    requires PairInv(me, peer, opener, window) && me.phase.Sending?
    requires me.slot.entry.Some? && !me.slot.entry.value.dataWriteClosed
    ensures me.phase.parcel.shrink <= me.slot.entry.value.window
  {
    var p := me.phase.parcel;
    if p.shrink != 0 {
      InTransitSplit(me);
      assert me.slot.code == 0 && !Blocked(me);
      assert |me.slot.delivered| + |p.frame.Payload()| <= |PayloadOf(peer.slot.emitted)| <= |peer.slot.accepted|;
      assert |peer.slot.accepted| <= window + CreditOf(me.slot.emitted);
    }
  }

  /** An end that does not know the stream is only ever sent a lone FIN. */
  lemma UnknownGetsLoneFin(me: End, peer: End, opener: bool, window: nat)
    requires PairInv(me, peer, opener, window) && me.phase.Sending? && !me.slot.known
    ensures me.phase.parcel.frame.IsEmptyFin()
  {
    HeldIsNext(me, peer);
    HeldIsSound(me);
    var out := peer.slot.emitted;
    assert peer.slot.known;
    if opener {
      UnknownIsUntouched(me, peer, window);
    } else {
      assert !SynTaken(peer, me);
      assert peer.slot.Output()[0] == out[0];
      assert |out| == 1;
    }
  }

  lemma CreditBehindHandledFin(me: End, peer: End, opener: bool)
    requires InOrder(peer, me) && me.phase.Sending? && Shapes(peer) && Shapes(me)
    requires Grammar(peer.slot.Output(), !opener)
    requires FinWithin(peer.slot.emitted, Handled(peer, me))
    ensures !me.phase.parcel.frame.body.Data?
  {
    HeldIsNext(me, peer);
    var out, i := peer.slot.emitted, Handled(peer, me);
    var k :| 0 <= k < i && out[k].IsFin();
    assert out[k] in out && Sound(out[k]);
    assert peer.slot.Output()[k] == out[k] && peer.slot.Output()[i] == out[i];
  }

  /** A healthy stream refuses nothing: what follows a FIN is credit. */
  lemma HealthyRefusesNothing(me: End, peer: End, opener: bool, window: nat)
    requires PairInv(me, peer, opener, window) && me.phase.Sending? && Healthy(me, peer) && me.slot.known
    ensures me.slot.entry.Some? && me.slot.code == 0 && !me.slot.inbox.Disconnected()
    ensures me.slot.entry.value.dataWriteClosed ==> !me.phase.parcel.frame.body.Data?
  {
    assert me.slot.code == 0;
    if me.slot.entry.value.dataWriteClosed {
      CreditBehindHandledFin(me, peer, opener);
    }
  }

  // ----- A frame that carries nothing for the stream is let go -----

  function PhaseAfter(f: Frame): Phase {
    if f.IsFin() then Closing else Idle
  }

  lemma DiscardKeepsEnd(me: End, opener: bool, window: nat, me': End)
    requires EndInv(me, opener, window) && me.phase.Sending? && me.phase.parcel.frame.Payload() == []
    requires me' == me.(phase := PhaseAfter(me.phase.parcel.frame))
    ensures EndInv(me', opener, window)
  {
    assert InTransit(me') == me.incoming;
  }

  lemma DiscardKeepsConserved(me: End, peer: End, me': End)
    requires Conserved(peer, me) && me.phase.Sending? && me.phase.parcel.frame.Payload() == []
    requires me' == me.(phase := PhaseAfter(me.phase.parcel.frame)) && InTransit(me') == me.incoming
    ensures Conserved(peer, me')
  {
    InTransitSplit(me);
  }

  /** A frame without a FIN leaves no FIN behind that was not there. */
  lemma NoFinMoreHandled(me: End, peer: End, me': End)
    requires InOrder(peer, me) && HeldDone(me, me') && !me.phase.parcel.frame.IsFin()
    ensures |InTransit(me')| <= |peer.slot.emitted|
    ensures FinWithin(peer.slot.emitted, Handled(peer, me')) ==> FinWithin(peer.slot.emitted, Handled(peer, me))
  {
    AfterHeld(me, peer, me');
    HeldIsNext(me, peer);
  }

  lemma DiscardKeepsIn(me: End, peer: End, window: nat, me': End)
    requires Direction(peer, me, window) && me.phase.Sending? && me.phase.parcel.frame.Payload() == []
    requires me' == me.(phase := PhaseAfter(me.phase.parcel.frame))
    requires Healthy(me, peer) && me.slot.known ==> !me.phase.parcel.frame.IsFin()
    ensures Direction(peer, me', window)
  {
    HeldDoneKeepsOrder(me, peer, me');
    AfterHeld(me, peer, me');
    DiscardKeepsConserved(me, peer, me');
    if !me.phase.parcel.frame.IsFin() {
      NoFinMoreHandled(me, peer, me');
    }
  }

  lemma DiscardKeepsOut(me: End, peer: End, window: nat, me': End)
    requires Direction(me, peer, window) && me.phase.Sending?
    requires Healthy(me, peer) && me.slot.app.Some? ==> me.phase.parcel.frame.Credit() == 0
    requires me' == me.(phase := PhaseAfter(me.phase.parcel.frame))
    ensures Direction(me', peer, window)
  {
    InTransitSplit(me);
    assert InTransit(me') == me.incoming;
  }

  lemma DiscardKeeps(me: End, peer: End, opener: bool, window: nat, me': End)
    requires PairInv(me, peer, opener, window) && me.phase.Sending? && me.phase.parcel.frame.Payload() == []
    requires Healthy(me, peer) && me.slot.app.Some? ==> me.phase.parcel.frame.Credit() == 0
    requires Healthy(me, peer) && me.slot.known ==> !me.phase.parcel.frame.IsFin()
    requires me' == me.(phase := PhaseAfter(me.phase.parcel.frame))
    ensures PairInv(me', peer, opener, window)
  {
    DiscardKeepsEnd(me, opener, window, me');
    DiscardKeepsIn(me, peer, window, me');
    DiscardKeepsOut(me, peer, window, me');
  }

  // ----- Data that is refused: the stream is reset -----

  ghost predicate Refusal(me: End, me': End) {
    var s, t := me.slot, me'.slot;
    && me.phase.Sending?
    && me' == me.(slot := s.(entry := t.entry, code := t.code), phase := Idle, resets := me.resets + 1)
    && (if s.entry.None? then t.entry.None? && t.code == s.code && s.known
        else (t.entry.Some? && t.code != 0 && (s.code != 0 ==> t.code == s.code)
          && !t.entry.value.needsFin && t.entry.value.dataWriteClosed))
  }

  lemma RefusalKeepsEnd(me: End, opener: bool, window: nat, me': End)
    requires EndInv(me, opener, window) && Refusal(me, me')
    ensures EndInv(me', opener, window)
  {
    assert InTransit(me') == me.incoming;
  }

  lemma RefusalKeepsConserved(me: End, peer: End, me': End)
    requires Conserved(peer, me) && Wiring(me) && Refusal(me, me') && !Healthy(me, peer)
    ensures Conserved(peer, me')
  {}

  lemma RefusalKeepsIn(me: End, peer: End, window: nat, me': End)
    requires Direction(peer, me, window) && Wiring(me) && Refusal(me, me') && !Healthy(me, peer)
    ensures Direction(peer, me', window)
  {
    HeldDoneKeepsOrder(me, peer, me');
    RefusalKeepsConserved(me, peer, me');
  }

  lemma RefusalKeepsOut(me: End, peer: End, window: nat, me': End)
    requires Direction(me, peer, window) && Refusal(me, me') && !Healthy(me, peer)
    ensures Direction(me', peer, window)
  {
    InTransitSplit(me);
    assert InTransit(me') == me.incoming;
  }

  lemma RefusalKeeps(me: End, peer: End, opener: bool, window: nat, me': End)
    requires PairInv(me, peer, opener, window) && Refusal(me, me') && !Healthy(me, peer)
    ensures PairInv(me', peer, opener, window)
  {
    RefusalKeepsEnd(me, opener, window, me');
    RefusalKeepsIn(me, peer, window, me');
    RefusalKeepsOut(me, peer, window, me');
  }

  // ----- The channel is full: the frame waits, already taken off the window -----

  ghost predicate Wait(me: End, me': End) {
    && me.phase.Sending? && me.slot.entry.Some?
    && var p, e := me.phase.parcel, me.slot.entry.value;
       && p.shrink <= e.window
       && me' == me.(slot := me.slot.(entry := Some(e.(window := e.window - p.shrink))),
                     phase := Sending(p.(shrink := 0)))
  }

  lemma WaitKeepsEnd(me: End, opener: bool, window: nat, me': End)
    requires EndInv(me, opener, window) && Wait(me, me')
    ensures EndInv(me', opener, window)
  {
    assert InTransit(me') == InTransit(me);
  }

  lemma WaitKeepsOut(me: End, peer: End, window: nat, me': End)
    requires Direction(me, peer, window) && Wait(me, me')
    ensures Direction(me', peer, window)
  {
    assert InTransit(me') == InTransit(me);
    OutIsKept(me, me', peer, window);
  }

  lemma WaitKeepsIn(me: End, peer: End, window: nat, me': End)
    requires Direction(peer, me, window) && Wait(me, me')
    ensures Direction(peer, me', window)
  {
    assert InTransit(me') == InTransit(me);
    InIsKept(me, me', peer, window);
  }

  lemma WaitKeeps(me: End, peer: End, opener: bool, window: nat, me': End)
    requires PairInv(me, peer, opener, window) && Wait(me, me')
    ensures PairInv(me', peer, opener, window)
  {
    WaitKeepsEnd(me, opener, window, me');
    WaitKeepsOut(me, peer, window, me');
    WaitKeepsIn(me, peer, window, me');
  }

  // ----- The frame enters the channel of the stream -----

  ghost predicate Enters(me: End, me': End) {
    && me.phase.Sending? && me.slot.entry.Some? && !me.slot.inbox.Disconnected()
    && var p, e, s := me.phase.parcel, me.slot.entry.value, me.slot;
       && p.shrink <= e.window
       && (p.frame.body.Data? ==> !e.dataWriteClosed)
       && me' == me.(
            slot := s.(
              entry := Some(e.(window := e.window - p.shrink)),
              inbox := s.inbox.Push(p.frame),
              delivered := s.delivered + p.frame.Payload(),
              finDelivered := s.finDelivered || p.frame.IsFin()),
            phase := PhaseAfter(p.frame))
  }

  lemma EntryKeepsIncoming(me: End, window: nat, me': End)
    requires Incoming(me, window) && Shapes(me) && Wiring(me) && Enters(me, me')
    requires me.slot.finDelivered ==> me.phase.parcel.frame.Payload() == []
    ensures Incoming(me', window)
  {
    var s, f := me.slot, me.phase.parcel.frame;
    Append(s.inbox.queue, f);
    if s.app.Some? {
      QuietAppend(s.app.value.finSeen, s.inbox.queue, f);
      assert s.read + s.app.value.readBuf + PayloadOf(s.inbox.queue) + f.Payload()
          == s.read + s.app.value.readBuf + (PayloadOf(s.inbox.queue) + f.Payload());
    }
  }

  lemma EntryKeepsEnd(me: End, opener: bool, window: nat, me': End)
    requires EndInv(me, opener, window) && Enters(me, me')
    requires me.slot.finDelivered ==> me.phase.parcel.frame.Payload() == []
    ensures EndInv(me', opener, window)
  {
    assert InTransit(me') == me.incoming;
    HeldIsSound(me);
    EntryKeepsIncoming(me, window, me');
  }

  lemma EntryKeepsOut(me: End, peer: End, window: nat, me': End)
    requires Direction(me, peer, window) && Enters(me, me')
    ensures Direction(me', peer, window)
  {
    InTransitSplit(me);
    assert InTransit(me') == me.incoming;
    Append(me.slot.inbox.queue, me.phase.parcel.frame);
  }

  lemma NothingBehindHeldFin(me: End, peer: End, peerOpens: bool)
    requires InOrder(peer, me) && Shapes(me) && Shapes(peer) && Grammar(peer.slot.Output(), peerOpens)
    requires me.phase.Sending? && me.phase.parcel.frame.IsFin()
    ensures PayloadOf(me.incoming) == [] && me.phase.parcel.frame.Payload() == []
    ensures HasFin(peer.slot.emitted)
  {
    HeldIsNext(me, peer);
    HeldIsSound(me);
    var out, i, f := peer.slot.emitted, Handled(peer, me), me.phase.parcel.frame;
    GrammarPrefix(out, peer.slot.outbox.queue, peerOpens);
    assert out == out[..i + 1] + me.incoming;
    assert f in out[..i + 1] && f in out;
    assert AllSound(out[..i + 1]) && AllSound(me.incoming);
    OnlyCreditAfterFin(out[..i + 1], me.incoming, peerOpens);
  }

  /** A FIN leaves no data behind it. */
  lemma NothingBehindFin(me: End, peer: End, opener: bool, window: nat)
    requires PairInv(me, peer, opener, window) && me.phase.Sending?
    requires me.phase.parcel.frame.IsFin()
    ensures PayloadOf(me.incoming) == [] && me.phase.parcel.frame.Payload() == []
    ensures HasFin(peer.slot.emitted)
  {
    NothingBehindHeldFin(me, peer, !opener);
  }

  lemma PayloadMoves<T>(delivered: seq<T>, next: seq<T>, rest: seq<T>, all: seq<T>)
    requires delivered + (next + rest) == all
    ensures delivered + next <= all && delivered + next + rest == all
    ensures rest == [] ==> delivered + next == all
  {
    assert delivered + (next + rest) == delivered + next + rest;
  }

  lemma PrefixIsWhole<T>(delivered: seq<T>, next: seq<T>, all: seq<T>)
    requires delivered == all && delivered + next <= all
    ensures next == [] && delivered + next == all
  {
    assert |delivered + next| <= |all|;
  }

  lemma EntryMovesPayload(me: End, peer: End)
    requires Conserved(peer, me) && me.phase.Sending? && !me.stopped
    requires me.slot.entry.Some? && (me.phase.parcel.frame.body.Data? ==> !me.slot.entry.value.dataWriteClosed)
    ensures var s, f := me.slot, me.phase.parcel.frame;
      && s.delivered + f.Payload() <= PayloadOf(peer.slot.emitted)
      && (Healthy(peer, me) || !Blocked(me) ==>
            s.delivered + f.Payload() + PayloadOf(me.incoming) == PayloadOf(peer.slot.emitted))
      && (s.finDelivered || (f.IsFin() && f.Payload() == [] && PayloadOf(me.incoming) == [] && !Blocked(me)) ==>
            s.delivered + f.Payload() == PayloadOf(peer.slot.emitted))
  {
    InTransitSplit(me);
    var f, s := me.phase.parcel.frame, me.slot;
    if Healthy(peer, me) || !Blocked(me) {
      PayloadMoves(s.delivered, f.Payload(), PayloadOf(me.incoming), PayloadOf(peer.slot.emitted));
    } else {
      assert f.Payload() == [] && s.delivered + [] == s.delivered;
    }
    if s.finDelivered {
      PrefixIsWhole(s.delivered, f.Payload(), PayloadOf(peer.slot.emitted));
    }
  }

  lemma EntryKeepsConserved(me: End, peer: End, me': End)
    requires Transfer(peer, me) && Shapes(me) && Wiring(me) && Enters(me, me')
    requires me.phase.parcel.frame.IsFin() ==>
      PayloadOf(me.incoming) == [] && me.phase.parcel.frame.Payload() == [] && HasFin(peer.slot.emitted)
    requires InTransit(me') == me.incoming
    ensures Conserved(peer, me')
  {
    HeldIsSound(me);
    EntryMovesPayload(me, peer);
  }

  lemma EntryKeepsTransfer(me: End, peer: End, me': End)
    requires Transfer(peer, me) && Shapes(me) && Wiring(me) && Enters(me, me')
    requires me.phase.parcel.frame.IsFin() ==>
      PayloadOf(me.incoming) == [] && me.phase.parcel.frame.Payload() == [] && HasFin(peer.slot.emitted)
    ensures Transfer(peer, me')
  {
    HeldDoneKeepsOrder(me, peer, me');
    AfterHeld(me, peer, me');
    EntryKeepsConserved(me, peer, me');
  }

  lemma EntryKeepsInHealth(me: End, peer: End, window: nat, me': End)
    requires InOrder(peer, me) && InOrder(peer, me') && Health(peer, me, window) && Enters(me, me')
    ensures Health(peer, me', window)
  {
    AfterHeld(me, peer, me');
  }

  lemma EntryKeepsIn(me: End, peer: End, window: nat, me': End)
    requires Direction(peer, me, window) && Transfer(peer, me') && Enters(me, me')
    ensures Direction(peer, me', window)
  {
    EntryKeepsInHealth(me, peer, window, me');
  }

  lemma EntryKeeps(me: End, peer: End, opener: bool, window: nat, me': End)
    requires PairInv(me, peer, opener, window) && Enters(me, me')
    ensures PairInv(me', peer, opener, window)
  {
    if me.phase.parcel.frame.IsFin() {
      NothingBehindFin(me, peer, opener, window);
    }
    EntryMovesPayload(me, peer);
    EntryKeepsEnd(me, opener, window, me');
    EntryKeepsOut(me, peer, window, me');
    EntryKeepsTransfer(me, peer, me');
    EntryKeepsIn(me, peer, window, me');
    Assemble(me', peer, opener, window);
  }

  // ----- The whole step -----

  ghost predicate Discarded(me: End, me': End) {
    && me.phase.Sending? && me.phase.parcel.frame.Payload() == []
    && me' == me.(phase := PhaseAfter(me.phase.parcel.frame))
    && ((me.phase.parcel.frame.Credit() == 0 && !me.phase.parcel.frame.IsFin())
        || me.slot.entry.None? || me.slot.inbox.Disconnected()
        || (me.slot.entry.value.dataWriteClosed && me.phase.parcel.frame.body.Data?))
  }

  /** Data was refused, so the stream was unknown, closed for writing, or not listening any more. */
  ghost predicate Refused(me: End, me': End) {
    && Refusal(me, me') && me.phase.parcel.frame.body.Data?
    && (me.slot.entry.None? || me.slot.entry.value.dataWriteClosed || me.slot.inbox.Disconnected())
  }

  lemma DeliverShape(me: End, full: bool, me': End)
    requires me.phase.Sending? && Sound(me.phase.parcel.frame)
    requires me.phase.parcel.shrink == 0 || me.phase.parcel.shrink == |me.phase.parcel.frame.Payload()|
    requires me.slot.entry.Some? && !me.slot.entry.value.dataWriteClosed ==>
      me.phase.parcel.shrink <= me.slot.entry.value.window
    requires !me.slot.known ==> me.slot.entry.None? && me.phase.parcel.frame.IsEmptyFin()
    requires me' == DeliverNext(me, full)
    ensures Discarded(me, me') || Refused(me, me') || Wait(me, me') || Enters(me, me')
  {
    var p, s := me.phase.parcel, me.slot;
    var f := p.frame;
    assert s.delivered + [] == s.delivered;
    if s.entry.None? {
    } else {
      var e := s.entry.value;
      if f.header.typ.Data? && e.dataWriteClosed {
      } else {
        assert p.shrink <= e.window;
        if s.inbox.Disconnected() {
          if f.Payload() == [] {
            assert e.(window := e.window - p.shrink) == e;
          }
        }
      }
    }
  }

  lemma ShapeKeeps(me: End, peer: End, opener: bool, window: nat, me': End)
    requires PairInv(me, peer, opener, window)
    requires Discarded(me, me') || Refused(me, me') || Wait(me, me') || Enters(me, me')
    ensures PairInv(me', peer, opener, window)
  {
    if Healthy(me, peer) && me.slot.known {
      HealthyRefusesNothing(me, peer, opener, window);
    }
    if Enters(me, me') {
      EntryKeeps(me, peer, opener, window, me');
    } else if Wait(me, me') {
      WaitKeeps(me, peer, opener, window, me');
    } else if Discarded(me, me') {
      DiscardKeeps(me, peer, opener, window, me');
    } else {
      RefusalKeeps(me, peer, opener, window, me');
    }
  }

  lemma DeliverKeeps(me: End, peer: End, opener: bool, window: nat, full: bool, me': End)
    requires PairInv(me, peer, opener, window) && me' == DeliverNext(me, full)
    ensures PairInv(me', peer, opener, window)
  {
    if me.phase.Sending? {
      HeldIsSound(me);
      if me.slot.entry.Some? && !me.slot.entry.value.dataWriteClosed {
        NoFlowControl(me, peer, opener, window);
      }
      if !me.slot.known {
        UnknownGetsLoneFin(me, peer, opener, window);
      }
      DeliverShape(me, full, me');
      ShapeKeeps(me, peer, opener, window, me');
    }
  }
}
