/** Facts about the invariant of a stream, and the steps of the applications at its two ends. */
module LinkProofs {
  import opened Wrappers
  import opened Frames
  import opened Flows
  import opened StreamOutput
  import opened Windows
  import opened Streams
  import opened Managers
  import opened Links

  // ----- The grammar -----

  predicate MayFollow(fs: seq<Frame>, k: Kind, opener: bool) {
    match k
    case SynKind => opener && fs == []
    case DataKind => !HasFin(fs) && (opener ==> fs != [])
    case FinKind => !HasFin(fs)
    case CreditKind => opener ==> fs != [] && KindOf(fs[0]) == SynKind
  }

  lemma GrammarAppend(fs: seq<Frame>, f: Frame, opener: bool)
    requires Grammar(fs, opener) && AllSound(fs) && MayFollow(fs, KindOf(f), opener)
    ensures Grammar(fs + [f], opener)
  {
    var gs := fs + [f];
    forall i, j | 0 <= i < j < |gs| && KindOf(gs[i]) == FinKind
      ensures KindOf(gs[j]) == CreditKind
    {
      assert gs[i] == fs[i];
      assert fs[i] in fs && Sound(fs[i]);
      if j == |fs| && KindOf(f) == CreditKind && opener {
        assert fs[0] == gs[0];
      }
    }
  }

  /** The grammar does not depend on stream ids. */
  lemma GrammarSame(fs: seq<Frame>, gs: seq<Frame>, opener: bool)
    requires Grammar(fs, opener) && |fs| == |gs|
    requires forall i | 0 <= i < |fs| :: KindOf(fs[i]) == KindOf(gs[i])
    ensures Grammar(gs, opener)
  {}

  lemma GrammarPrefix(fs: seq<Frame>, gs: seq<Frame>, opener: bool)
    requires Grammar(fs + gs, opener)
    ensures Grammar(fs, opener)
  {
    forall i | 0 <= i < |fs| ensures fs[i] == (fs + gs)[i] {}
  }

  lemma {:induction false} NoPayload(gs: seq<Frame>)
    requires forall g | g in gs :: KindOf(g) == CreditKind
    ensures PayloadOf(gs) == []
  {
    if gs != [] {
      assert KindOf(gs[0]) == CreditKind;
      NoPayload(gs[1..]);
    }
  }

  /** Behind a FIN there is only credit. */
  lemma OnlyCreditAfterFin(fs: seq<Frame>, gs: seq<Frame>, opener: bool)
    requires Grammar(fs + gs, opener) && AllSound(fs) && AllSound(gs) && HasFin(fs)
    ensures PayloadOf(gs) == [] && !HasFin(gs)
    ensures forall g | g in gs :: KindOf(g) == CreditKind
  {
    var f :| f in fs && f.IsFin();
    var i :| 0 <= i < |fs| && fs[i] == f;
    forall j | 0 <= j < |gs| ensures KindOf(gs[j]) == CreditKind {
      assert (fs + gs)[i] == f && (fs + gs)[|fs| + j] == gs[j];
    }
    NoPayload(gs);
  }

  // ----- Pushing a frame -----

  function Pushed(s: Slot, f: Frame): Slot {
    s.(outbox := s.outbox.Push(f))
  }

  lemma PushedOutput(s: Slot, f: Frame)
    ensures Pushed(s, f).Output() == s.Output() + [f]
    ensures PayloadOf(Pushed(s, f).outbox.queue) == PayloadOf(s.outbox.queue) + f.Payload()
    ensures CreditOf(Pushed(s, f).outbox.queue) == CreditOf(s.outbox.queue) + f.Credit()
  {
    Append(s.outbox.queue, f);
    assert s.emitted + (s.outbox.queue + [f]) == s.emitted + s.outbox.queue + [f];
  }

  lemma OutputFin(s: Slot)
    ensures HasFin(s.Output()) <==> HasFin(s.emitted) || HasFin(s.outbox.queue)
  {}

  lemma PushKeepsGrammar(s: Slot, f: Frame, s': Slot, opener: bool)
    requires Grammar(s.Output(), opener) && AllSound(s.emitted) && AllSound(s.outbox.queue)
    requires MayFollow(s.Output(), KindOf(f), opener)
    requires s'.emitted == s.emitted && s'.outbox == s.outbox.Push(f)
    ensures Grammar(s'.Output(), opener) && s'.Output() != []
  {
    GrammarAppend(s.Output(), f, opener);
    assert s'.Output() == s.Output() + [f];
  }

  lemma PushedFins(s: Slot, f: Frame, s': Slot)
    requires s'.outbox == s.outbox.Push(f)
    ensures HasFin(s'.outbox.queue) <==> HasFin(s.outbox.queue) || f.IsFin()
  {
    assert f in s'.outbox.queue && forall g :: g in s.outbox.queue ==> g in s'.outbox.queue;
  }

  /** Outgoing grammar and payload after pushing a frame that may follow. */
  lemma PushKeepsOutgoing(e: End, f: Frame, s': Slot, opener: bool)
    requires Wiring(e) && Shapes(e) && Outgoing(e, opener) && e.slot.app.Some? && s'.app.Some?
    requires Sound(f) && MayFollow(e.slot.Output(), KindOf(f), opener)
    requires s' == Pushed(e.slot, f).(app := s'.app, accepted := e.slot.accepted + f.Payload(), read := s'.read)
    requires HasFin(e.slot.emitted) ==> f.Payload() == []
    requires e.slot.code == 0
    requires s'.app.value.writeClosed.None? ==>
      e.slot.app.value.writeClosed.None? && !f.IsFin() && !s'.app.value.needsSyn
    requires s'.app.value.writeClosed.Some? ==> e.slot.app.value.writeClosed.Some? || f.IsFin()
    ensures Outgoing(e.(slot := s'), opener)
  {
    PushKeepsGrammar(e.slot, f, s', opener);
    PushedFins(e.slot, f, s');
    PushedOutput(e.slot, f);
  }

  // ----- Bounds that join both directions -----

  /** Credit comes back only for bytes that were accepted, so the cap of the window never bites. */
  lemma CreditFits(me: End, peer: End, opener: bool, window: nat)
    requires PairInv(me, peer, opener, window) && me.slot.app.Some?
    ensures me.slot.app.value.window.size + CreditOf(me.slot.inbox.queue) <= window
  {
    assert CreditOf(peer.slot.emitted) <= |peer.slot.read| <= |peer.slot.delivered|
        <= |PayloadOf(me.slot.emitted)| <= |me.slot.accepted|;
  }

  /** An opener holding bytes from the other side has its SYN out. */
  lemma BufferedMeansSynced(me: End, peer: End, window: nat)
    requires PairInv(me, peer, true, window) && me.slot.app.Some? && me.slot.app.value.readBuf != []
    ensures me.slot.emitted != [] && KindOf(me.slot.emitted[0]) == SynKind
  {
    assert |PayloadOf(peer.slot.emitted)| >= |me.slot.delivered| > 0;
    assert peer.slot.emitted != [];
  }

  /** A stream still held by its application sees a vanished manager only behind a close code. */
  lemma CodeStays(e: End, opener: bool)
    requires Wiring(e) && Outgoing(e, opener) && e.slot.app.Some?
    ensures CodeAfterSend(e.slot.code, e.slot.outbox) == e.slot.code
    ensures SendError(e.slot.code, e.slot.outbox).Some? <==> e.slot.code != 0
  {}

  // ----- Steps that leave a direction as it is -----

  /** `x'` has the output of `x`, and no more credit than `x`; the same if it is still healthy. */
  ghost predicate SameSender(x: End, x': End) {
    && x'.slot.emitted == x.slot.emitted && x'.slot.accepted == x.slot.accepted
    && (x'.slot.app.Some? ==>
          && x.slot.app.Some? && x'.slot.app.value.window == x.slot.app.value.window
          && CreditOf(x'.slot.inbox.queue) + CreditOf(InTransit(x'))
              <= CreditOf(x.slot.inbox.queue) + CreditOf(InTransit(x)))
    && (HealthyEnd(x') ==>
          && HealthyEnd(x) && x'.slot.code == x.slot.code && x'.resets == x.resets
          && x'.slot.outbox.queue == x.slot.outbox.queue && x'.slot.read == x.slot.read
          && (x'.slot.app.Some? ==>
                CreditOf(x'.slot.inbox.queue) + CreditOf(InTransit(x'))
                  == CreditOf(x.slot.inbox.queue) + CreditOf(InTransit(x))))
  }

  lemma OutIsKept(x: End, x': End, y: End, window: nat)
    requires Direction(x, y, window) && SameSender(x, x')
    ensures Direction(x', y, window)
  {}

  /** `x'` has received what `x` has, and refuses data only where `x` does. */
  ghost predicate SameReceiver(x: End, x': End) {
    && InTransit(x') == InTransit(x) && (x'.phase == Closing ==> x.phase == Closing)
    && x'.slot.delivered == x.slot.delivered && x'.slot.finDelivered == x.slot.finDelivered
    && x'.slot.emitted == x.slot.emitted
    && (!Blocked(x') ==> !Blocked(x)) && (HealthyEnd(x') ==> HealthyEnd(x))
    && (x'.slot.entry.Some? && x'.slot.entry.value.dataWriteClosed ==>
          x.slot.entry.Some? && x.slot.entry.value.dataWriteClosed)
  }

  lemma InIsKept(x: End, x': End, y: End, window: nat)
    requires Direction(y, x, window) && SameReceiver(x, x')
    requires x'.slot.known && !x.slot.known ==> InTransit(x) == y.slot.emitted
    ensures Direction(y, x', window)
  {}

  lemma SuffixOfSuffix(a: seq<Frame>, b: seq<Frame>, c: seq<Frame>)
    requires IsSuffix(a, b) && IsSuffix(b, c)
    ensures IsSuffix(a, c)
  {
    assert b[|b| - |a|..] == c[|c| - |a|..];
  }

  /** The reader of `x'` has ended: what is left in transit is a suffix of what was. */
  lemma InIsCut(x: End, x': End, y: End, window: nat)
    requires Direction(y, x, window)
    requires x'.stopped && x'.phase == Idle && IsSuffix(InTransit(x'), InTransit(x))
    requires x'.slot.delivered == x.slot.delivered && x'.slot.finDelivered == x.slot.finDelivered
    requires x'.slot.emitted == x.slot.emitted
    ensures Direction(y, x', window)
  {
    SuffixOfSuffix(InTransit(x'), InTransit(x), y.slot.emitted);
  }

  // ----- What an application does, piece by piece -----

  /**
   * `me'` comes from `me` by a step of the application that still holds the stream. Capacity plus
   * accepted bytes plus credit at hand do not change; neither does credit queued minus bytes read.
   */
  ghost predicate AppStep(me: End, me': End) {
    var s, t := me.slot, me'.slot;
    && me' == me.(slot := s.(app := t.app, inbox := t.inbox, outbox := t.outbox,
                             accepted := t.accepted, read := t.read))
    && s.app.Some? && t.app.Some?
    && t.app.value.window.size + |t.accepted| + CreditOf(t.inbox.queue)
        == s.app.value.window.size + |s.accepted| + CreditOf(s.inbox.queue)
    && (s.code == 0 ==> CreditOf(t.outbox.queue) + |s.read| == CreditOf(s.outbox.queue) + |t.read|)
  }

  lemma AppStepKeepsOut(me: End, me': End, peer: End, window: nat)
    requires Direction(me, peer, window) && AppStep(me, me')
    ensures Direction(me', peer, window)
  {}

  lemma AppStepKeepsIn(me: End, me': End, peer: End, window: nat)
    requires Direction(peer, me, window) && AppStep(me, me')
    ensures Direction(peer, me', window)
  {}

  lemma AppStepKeeps(me: End, me': End, peer: End, opener: bool, window: nat)
    requires PairInv(me, peer, opener, window) && EndInv(me', opener, window) && AppStep(me, me')
    ensures PairInv(me', peer, opener, window)
  {
    AppStepKeepsOut(me, me', peer, window);
    AppStepKeepsIn(me, me', peer, window);
  }

  function Ingest(me: End, mid: StreamState): End {
    me.(slot := me.slot.With(mid))
  }

  lemma IngestKeepsIncoming(me: End, window: nat, mid: StreamState)
    requires Incoming(me, window) && me.slot.app.Some? && Ingested(me.slot.State(), mid)
    requires me.slot.app.value.window.size + CreditOf(me.slot.inbox.queue) <= window
    ensures Incoming(Ingest(me, mid), window)
  {
    var s, t := me.slot, me.slot.With(mid);
    assert s.read + (s.app.value.readBuf + PayloadOf(s.inbox.queue))
        == s.read + s.app.value.readBuf + PayloadOf(s.inbox.queue);
    assert t.read + (t.app.value.readBuf + PayloadOf(t.inbox.queue))
        == t.read + t.app.value.readBuf + PayloadOf(t.inbox.queue);
  }

  lemma IngestKeepsEnd(me: End, opener: bool, window: nat, mid: StreamState)
    requires EndInv(me, opener, window) && me.slot.app.Some? && Ingested(me.slot.State(), mid)
    requires me.slot.app.value.window.size + CreditOf(me.slot.inbox.queue) <= window
    ensures EndInv(Ingest(me, mid), opener, window)
  {
    assert AllSound(mid.inbox.queue);
    IngestKeepsIncoming(me, window, mid);
  }

  lemma IngestKeeps(me: End, peer: End, opener: bool, window: nat, mid: StreamState)
    requires PairInv(me, peer, opener, window) && me.slot.app.Some? && Ingested(me.slot.State(), mid)
    ensures PairInv(Ingest(me, mid), peer, opener, window)
  {
    CreditFits(me, peer, opener, window);
    IngestKeepsEnd(me, opener, window, mid);
    AppStepKeeps(me, Ingest(me, mid), peer, opener, window);
  }

  /** The first `n` buffered bytes go to the caller. */
  function TakeBytes(me: End, n: nat): End
    requires me.slot.app.Some? && n <= |me.slot.app.value.readBuf|
  {
    var a := me.slot.app.value;
    me.(slot := me.slot.(read := me.slot.read + a.readBuf[..n], app := Some(a.(readBuf := a.readBuf[n..]))))
  }

  function WithFrame(me: End, f: Frame): End {
    me.(slot := Pushed(me.slot, f))
  }

  lemma TakeKeepsIncoming(me: End, opener: bool, window: nat, n: nat)
    requires EndInv(me, opener, window) && me.slot.app.Some? && n <= |me.slot.app.value.readBuf|
    ensures Incoming(TakeBytes(me, n), window)
  {
    var s := me.slot;
    var buf := s.app.value.readBuf;
    assert buf == buf[..n] + buf[n..];
    assert s.read + buf[..n] + buf[n..] + PayloadOf(s.inbox.queue) == s.delivered;
  }

  lemma TakeKeepsEnd(me: End, opener: bool, window: nat, n: nat)
    requires EndInv(me, opener, window) && me.slot.app.Some? && n <= |me.slot.app.value.readBuf|
    ensures EndInv(TakeBytes(me, n), opener, window)
  {
    TakeKeepsIncoming(me, opener, window, n);
  }

  /** Bytes taken through a closed sink: their credit is lost. */
  lemma TakeSilentlyKeeps(me: End, peer: End, opener: bool, window: nat, n: nat)
    requires PairInv(me, peer, opener, window) && me.slot.app.Some? && n <= |me.slot.app.value.readBuf|
    requires me.slot.code != 0
    ensures PairInv(TakeBytes(me, n), peer, opener, window)
  {
    TakeKeepsEnd(me, opener, window, n);
    AppStepKeeps(me, TakeBytes(me, n), peer, opener, window);
  }

  lemma CreditIsSound(n: WndInc)
    ensures var f := FrameFrom(Body.WndInc(n));
      Sound(f) && KindOf(f) == CreditKind && f.Payload() == [] && f.Credit() == n && !f.IsFin()
  {}

  lemma TakeAndCreditKeepsEnd(me: End, opener: bool, window: nat, n: WndInc)
    requires EndInv(me, opener, window) && me.slot.app.Some? && n <= |me.slot.app.value.readBuf|
    requires me.slot.code == 0
    requires opener ==> me.slot.emitted != [] && KindOf(me.slot.emitted[0]) == SynKind
    ensures EndInv(WithFrame(TakeBytes(me, n), FrameFrom(Body.WndInc(n))), opener, window)
  {
    var f := FrameFrom(Body.WndInc(n));
    var me' := WithFrame(TakeBytes(me, n), f);
    CreditIsSound(n);
    TakeKeepsIncoming(me, opener, window, n);
    PushedOutput(TakeBytes(me, n).slot, f);
    assert me.slot.accepted + f.Payload() == me.slot.accepted;
    assert me'.slot == Pushed(me.slot, f).(
      app := me'.slot.app, accepted := me.slot.accepted + f.Payload(), read := me'.slot.read);
    PushKeepsOutgoing(me, f, me'.slot, opener);
  }

  /** Bytes taken through an open sink are credited to the sender. */
  lemma TakeAndCreditKeeps(me: End, peer: End, opener: bool, window: nat, n: WndInc)
    requires PairInv(me, peer, opener, window) && me.slot.app.Some? && 0 < n <= |me.slot.app.value.readBuf|
    requires me.slot.code == 0
    ensures PairInv(WithFrame(TakeBytes(me, n), FrameFrom(Body.WndInc(n))), peer, opener, window)
  {
    if opener {
      BufferedMeansSynced(me, peer, window);
    }
    TakeAndCreditKeepsEnd(me, opener, window, n);
    PushedOutput(TakeBytes(me, n).slot, FrameFrom(Body.WndInc(n)));
    CreditIsSound(n);
    AppStepKeeps(me, WithFrame(TakeBytes(me, n), FrameFrom(Body.WndInc(n))), peer, opener, window);
  }

  function MarkClosed(me: End, e: Error): End
    requires me.slot.app.Some?
  {
    me.(slot := me.slot.(app := Some(me.slot.app.value.(writeClosed := Some(e)))))
  }

  lemma MarkClosedKeepsEnd(me: End, opener: bool, window: nat, e: Error)
    requires EndInv(me, opener, window) && me.slot.app.Some? && me.slot.code != 0
    ensures EndInv(MarkClosed(me, e), opener, window)
  {}

  lemma MarkClosedKeeps(me: End, peer: End, opener: bool, window: nat, e: Error)
    requires PairInv(me, peer, opener, window) && me.slot.app.Some? && me.slot.code != 0
    ensures PairInv(MarkClosed(me, e), peer, opener, window)
  {
    MarkClosedKeepsEnd(me, opener, window, e);
    AppStepKeeps(me, MarkClosed(me, e), peer, opener, window);
  }

  /** A data frame with `chunk` is queued and paid for. */
  function SendChunk(me: End, chunk: seq<Byte>): End
    requires me.slot.app.Some?
  {
    var a := me.slot.app.value;
    me.(slot := Pushed(me.slot, WriteFrame(me.slot.State(), chunk)).(
      accepted := me.slot.accepted + chunk,
      app := Some(a.(needsSyn := false, window := a.window.Dec(|chunk|)))))
  }

  lemma ChunkIsSound(s: StreamState, chunk: seq<Byte>)
    requires |chunk| <= LENGTH_MAX
    ensures var f := WriteFrame(s, chunk);
      && Sound(f) && f.Payload() == chunk && f.Credit() == 0 && !f.IsFin()
      && KindOf(f) == (if s.app.needsSyn then SynKind else DataKind)
  {}

  lemma SendChunkKeepsEnd(me: End, opener: bool, window: nat, chunk: seq<Byte>)
    requires EndInv(me, opener, window) && me.slot.app.Some? && |chunk| <= LENGTH_MAX
    requires |chunk| <= me.slot.app.value.window.size
    requires me.slot.code == 0 && me.slot.app.value.writeClosed.None?
    ensures EndInv(SendChunk(me, chunk), opener, window)
  {
    var f := WriteFrame(me.slot.State(), chunk);
    ChunkIsSound(me.slot.State(), chunk);
    PushedOutput(me.slot, f);
    OutputFin(me.slot);
    PushKeepsOutgoing(me, f, SendChunk(me, chunk).slot, opener);
  }

  lemma SendChunkKeeps(me: End, peer: End, opener: bool, window: nat, chunk: seq<Byte>)
    requires PairInv(me, peer, opener, window) && me.slot.app.Some? && |chunk| <= LENGTH_MAX
    requires |chunk| <= me.slot.app.value.window.size
    requires me.slot.code == 0 && me.slot.app.value.writeClosed.None?
    ensures PairInv(SendChunk(me, chunk), peer, opener, window)
  {
    SendChunkKeepsEnd(me, opener, window, chunk);
    ChunkIsSound(me.slot.State(), chunk);
    PushedOutput(me.slot, WriteFrame(me.slot.State(), chunk));
    AppStepKeeps(me, SendChunk(me, chunk), peer, opener, window);
  }

  lemma FinIsSound()
    ensures var f := FinFrame();
      Sound(f) && KindOf(f) == FinKind && f.Payload() == [] && f.Credit() == 0 && f.IsFin()
  {}

  function SendFin(me: End): End
    requires me.slot.app.Some?
  {
    WithFrame(MarkClosed(me, StreamClosed), FinFrame())
  }

  lemma SendFinKeepsEnd(me: End, opener: bool, window: nat)
    requires EndInv(me, opener, window) && me.slot.app.Some?
    requires me.slot.code == 0 && me.slot.app.value.writeClosed.None?
    ensures EndInv(SendFin(me), opener, window)
  {
    FinIsSound();
    PushedOutput(me.slot, FinFrame());
    OutputFin(me.slot);
    assert me.slot.accepted + FinFrame().Payload() == me.slot.accepted;
    PushKeepsOutgoing(me, FinFrame(), SendFin(me).slot, opener);
  }

  lemma SendFinKeeps(me: End, peer: End, opener: bool, window: nat)
    requires PairInv(me, peer, opener, window) && me.slot.app.Some?
    requires me.slot.code == 0 && me.slot.app.value.writeClosed.None?
    ensures PairInv(SendFin(me), peer, opener, window)
  {
    FinIsSound();
    PushedOutput(me.slot, FinFrame());
    SendFinKeepsEnd(me, opener, window);
    AppStepKeeps(me, SendFin(me), peer, opener, window);
  }

  // ----- Whole application steps -----

  /** The pieces every application step is made of. */
  datatype Move =
    | Handle(mid: StreamState)
    | Take(n: WndInc)
    | Mark(e: Error)
    | Chunk(chunk: seq<Byte>)
    | Finish

  ghost predicate Allowed(me: End, m: Move) {
    && me.slot.app.Some?
    && match m
       case Handle(mid) => Ingested(me.slot.State(), mid)
       case Take(n) => 0 < n <= |me.slot.app.value.readBuf|
       case Mark(_) => me.slot.code != 0
       case Chunk(chunk) =>
         && |chunk| <= me.slot.app.value.window.size && |chunk| <= LENGTH_MAX
         && me.slot.code == 0 && me.slot.app.value.writeClosed.None?
       case Finish => me.slot.code == 0 && me.slot.app.value.writeClosed.None?
  }

  ghost function Apply(me: End, m: Move): End
    requires Allowed(me, m)
  {
    match m
    case Handle(mid) => Ingest(me, mid)
    case Take(n) =>
      if me.slot.code != 0 then TakeBytes(me, n)
      else WithFrame(TakeBytes(me, n), FrameFrom(Body.WndInc(n)))
    case Mark(e) => MarkClosed(me, e)
    case Chunk(chunk) => SendChunk(me, chunk)
    case Finish => SendFin(me)
  }

  lemma MoveKeeps(me: End, peer: End, opener: bool, window: nat, m: Move)
    requires PairInv(me, peer, opener, window) && Allowed(me, m)
    ensures PairInv(Apply(me, m), peer, opener, window)
  {
    match m
    case Handle(mid) => IngestKeeps(me, peer, opener, window, mid);
    case Take(n) =>
      if me.slot.code != 0 {
        TakeSilentlyKeeps(me, peer, opener, window, n);
      } else {
        TakeAndCreditKeeps(me, peer, opener, window, n);
      }
    case Mark(e) => MarkClosedKeeps(me, peer, opener, window, e);
    case Chunk(chunk) => SendChunkKeeps(me, peer, opener, window, chunk);
    case Finish => SendFinKeeps(me, peer, opener, window);
  }

  ghost predicate AllAllowed(me: End, ms: seq<Move>)
    decreases |ms|
  {
    ms == [] || (Allowed(me, ms[0]) && AllAllowed(Apply(me, ms[0]), ms[1..]))
  }

  ghost function ApplyAll(me: End, ms: seq<Move>): End
    requires AllAllowed(me, ms)
    decreases |ms|
  {
    if ms == [] then me else ApplyAll(Apply(me, ms[0]), ms[1..])
  }

  lemma {:induction false} MovesKeep(me: End, peer: End, opener: bool, window: nat, ms: seq<Move>, me': End)
    requires PairInv(me, peer, opener, window) && AllAllowed(me, ms) && me' == ApplyAll(me, ms)
    ensures PairInv(me', peer, opener, window)
    decreases |ms|
  {
    if ms != [] {
      MoveKeeps(me, peer, opener, window, ms[0]);
      MovesKeep(Apply(me, ms[0]), peer, opener, window, ms[1..], me');
    }
  }

  /** What the moves need to know of an end: the sink fails exactly when it has a code. */
  ghost predicate Sane(e: End) {
    && AllStreamFrames(e.slot.inbox.queue)
    && (e.slot.app.Some? ==>
          && CodeAfterSend(e.slot.code, e.slot.outbox) == e.slot.code
          && (SendError(e.slot.code, e.slot.outbox).Some? <==> e.slot.code != 0))
  }

  lemma EndsAreSane(e: End, opener: bool, window: nat)
    requires EndInv(e, opener, window)
    ensures Sane(e)
  {
    if e.slot.app.Some? {
      CodeStays(e, opener);
    }
  }

  lemma FirstMove(me: End, m: Move, rest: seq<Move>)
    requires Allowed(me, m) && AllAllowed(Apply(me, m), rest)
    ensures AllAllowed(me, [m] + rest) && ApplyAll(me, [m] + rest) == ApplyAll(Apply(me, m), rest)
  {
    assert ([m] + rest)[1..] == rest;
  }

  /** Serving a read from the buffer is taking bytes, or nothing. */
  lemma TakeMoves(me: End, s: Slot, mid: StreamState, r: seq<Byte>, t: StreamState) returns (ms: seq<Move>)
    requires Sane(me) && me.slot == s.With(mid) && s.app.Some? && mid.code == s.code && mid.outbox == s.outbox
    requires r + t.app.readBuf == mid.app.readBuf && |r| <= WNDINC_MAX
    requires t.app == mid.app.(readBuf := t.app.readBuf) && t.inbox == mid.inbox
    requires t.code == (if r == [] then s.code else CodeAfterSend(s.code, s.outbox))
    requires t.outbox == (if r == [] || SendError(s.code, s.outbox).Some? then s.outbox
                          else s.outbox.Push(FrameFrom(Body.WndInc(|r|))))
    ensures AllAllowed(me, ms) && ApplyAll(me, ms) == me.(slot := s.With(t).(read := s.read + r))
  {
    assert s.read + [] == s.read;
    if r == [] {
      assert r + t.app.readBuf == t.app.readBuf;
      ms := [];
    } else {
      assert r == mid.app.readBuf[..|r|] && t.app.readBuf == mid.app.readBuf[|r|..];
      ms := [Take(|r|)];
    }
  }

  lemma ReadMoves(me: End, remaining: nat, full: bool) returns (ms: seq<Move>)
    requires Sane(me)
    ensures AllAllowed(me, ms) && ApplyAll(me, ms) == me.(slot := SlotRead(me.slot, remaining, full))
  {
    var s := me.slot;
    ms := [];
    if s.app.Some? {
      var mid := ReadMeaning(s.State(), remaining, full);
      var (r, t) := Read(s.State(), remaining, full);
      var me1 := Ingest(me, mid);
      var rest := [];
      if r.Ready? {
        rest := TakeMoves(me1, s, mid, r.value, t);
      } else {
        assert s.read + [] == s.read;
      }
      ms := [Handle(mid)] + rest;
      FirstMove(me, Handle(mid), rest);
    }
  }

  lemma WriteNowMoves(me: End, buf: seq<Byte>, full: bool) returns (ms: seq<Move>)
    requires Sane(me) && me.slot.app.Some? && me.slot.app.value.writeClosed.None?
    ensures var (r, t) := WriteNow(me.slot.State(), buf, full);
      var n := if r.Ready? && r.value.Ok? then r.value.value else 0;
      && n <= |buf| && AllAllowed(me, ms)
      && ApplyAll(me, ms) == me.(slot := me.slot.With(t).(accepted := me.slot.accepted + buf[..n]))
  {
    var s := me.slot;
    assert s.accepted + buf[..0] == s.accepted;
    match SendError(s.code, s.outbox)
    case Some(e) => ms := [Mark(e)];
    case None =>
      if full {
        ms := [];
      } else {
        ms := [Chunk(buf[..WriteLen(s.app.value.window.size, |buf|)])];
      }
  }

  lemma WaitThenWriteMoves(me: End, buf: seq<Byte>, full: bool) returns (ms: seq<Move>)
    requires Sane(me) && me.slot.app.Some?
    requires me.slot.app.value.writeClosed.None? && me.slot.app.value.window.size == 0
    ensures AllAllowed(me, ms) && ApplyAll(me, ms) == me.(slot := SlotWrite(me.slot, buf, full))
  {
    var s := me.slot;
    var (ready, mid) := RecvType(s.State(), HeaderType.WndInc);
    RecvIngests(s.State(), HeaderType.WndInc);
    var rest := [];
    if ready {
      rest := WriteNowMoves(Ingest(me, mid), buf, full);
    } else {
      assert s.accepted + buf[..0] == s.accepted;
    }
    ms := [Handle(mid)] + rest;
    FirstMove(me, Handle(mid), rest);
  }

  lemma WriteMoves(me: End, buf: seq<Byte>, full: bool) returns (ms: seq<Move>)
    requires Sane(me)
    ensures AllAllowed(me, ms) && ApplyAll(me, ms) == me.(slot := SlotWrite(me.slot, buf, full))
  {
    var s := me.slot;
    if s.app.None? {
      ms := [];
    } else if s.app.value.writeClosed.Some? {
      assert s.accepted + buf[..0] == s.accepted;
      ms := [];
    } else if s.app.value.window.size != 0 {
      ms := WriteNowMoves(me, buf, full);
    } else {
      ms := WaitThenWriteMoves(me, buf, full);
    }
  }

  lemma ShutdownMoves(me: End, full: bool, blocked: bool) returns (ms: seq<Move>)
    requires Sane(me)
    ensures AllAllowed(me, ms) && ApplyAll(me, ms) == me.(slot := SlotShutdown(me.slot, full, blocked))
  {
    var s := me.slot;
    ms := [];
    if s.app.Some? {
      if s.code != 0 {
        var e := if s.app.value.writeClosed.Some? then ErrorOf(s.code) else SendError(s.code, s.outbox).value;
        ms := [Mark(e)];
      } else if s.app.value.writeClosed.None? && !full {
        ms := [Finish];
      }
    }
  }

  lemma ReadKeeps(me: End, peer: End, opener: bool, window: nat, remaining: nat, full: bool, me': End)
    requires PairInv(me, peer, opener, window) && me' == me.(slot := SlotRead(me.slot, remaining, full))
    ensures PairInv(me', peer, opener, window)
  {
    EndsAreSane(me, opener, window);
    var ms := ReadMoves(me, remaining, full);
    MovesKeep(me, peer, opener, window, ms, me');
  }

  lemma WriteKeeps(me: End, peer: End, opener: bool, window: nat, buf: seq<Byte>, full: bool, me': End)
    requires PairInv(me, peer, opener, window) && me' == me.(slot := SlotWrite(me.slot, buf, full))
    ensures PairInv(me', peer, opener, window)
  {
    EndsAreSane(me, opener, window);
    var ms := WriteMoves(me, buf, full);
    MovesKeep(me, peer, opener, window, ms, me');
  }

  lemma ShutdownKeeps(me: End, peer: End, opener: bool, window: nat, full: bool, blocked: bool, me': End)
    requires PairInv(me, peer, opener, window) && me' == me.(slot := SlotShutdown(me.slot, full, blocked))
    ensures PairInv(me', peer, opener, window)
  {
    EndsAreSane(me, opener, window);
    var ms := ShutdownMoves(me, full, blocked);
    MovesKeep(me, peer, opener, window, ms, me');
  }

  lemma DropKeepsEnd(me: End, opener: bool, window: nat)
    requires EndInv(me, opener, window)
    ensures EndInv(me.(slot := SlotDrop(me.slot)), opener, window)
  {}

  lemma DropKeepsDirections(me: End, peer: End, window: nat, me': End)
    requires Direction(me, peer, window) && Direction(peer, me, window)
    requires me' == me.(slot := SlotDrop(me.slot))
    ensures Direction(me', peer, window) && Direction(peer, me', window)
  {
    if me.slot.app.Some? {
      OutIsKept(me, me', peer, window);
      InIsKept(me, me', peer, window);
    }
  }
}
