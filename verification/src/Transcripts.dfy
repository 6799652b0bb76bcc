/**
 * The guarantees in terms of what the calls of a run return: the bytes `poll_read` handed out, the
 * bytes `poll_write` accepted, the frames the writer put on the byte stream.
 */
module Transcripts {
  import opened Wrappers
  import opened Frames
  import opened Flows
  import opened StreamOutput
  import opened Windows
  import opened Streams
  import opened Managers
  import opened Links
  import opened LinkSteps
  import opened LinkGuarantees
  import opened LinkCredit
  import opened Sessions
  import opened SessionSteps
  import opened Guarantees
  import Codec

  // ----- What one step returns -----

  /** The bytes step `op` of a side returns to the reader of stream `id`. */
  function ReadIn(me: Endpoint, op: Op, id: StreamID): seq<Byte> {
    if op.ReadStream? && op.id == id then Returned(SlotOf(me, id), op.remaining, op.full) else []
  }

  /** The bytes it accepts from the writer of stream `id`. */
  function WrittenIn(me: Endpoint, op: Op, id: StreamID): seq<Byte> {
    if op.WriteStream? && op.id == id then Accepted(SlotOf(me, id), op.buf, op.full) else []
  }

  /** All frames it adds to the byte stream. */
  function PutIn(me: Endpoint, op: Op): seq<Frame> {
    if op.PollManager? then WriteNext(me, op.pick).wire[|me.wire|..] else []
  }

  /** The data and credit of stream `id` it adds to the byte stream. */
  function SentIn(me: Endpoint, op: Op, id: StreamID): seq<Frame> {
    StreamFrames(PutIn(me, op), id)
  }

  /** The frame it takes off the byte stream of the other side. */
  function TakenIn(me: Endpoint, peer: Endpoint, op: Op): seq<Frame> {
    if op.NextFrame? && me.reader == Resting && peer.wire != [] then [peer.wire[0]] else []
  }

  // ----- What a run returns -----

  function OpOf(step: SessionStep, client: bool): Option<Op> {
    match step
    case ByClient(op) => if client then Some(op) else None
    case ByServer(op) => if client then None else Some(op)
  }

  function AllRead(s: Session, steps: seq<SessionStep>, client: bool, id: StreamID): seq<Byte>
    decreases |steps|
  {
    if steps == [] then []
    else
      var op := OpOf(steps[0], client);
      (if op.Some? then ReadIn(Side(s, client), op.value, id) else [])
        + AllRead(StepSession(s, steps[0]), steps[1..], client, id)
  }

  function AllWritten(s: Session, steps: seq<SessionStep>, client: bool, id: StreamID): seq<Byte>
    decreases |steps|
  {
    if steps == [] then []
    else
      var op := OpOf(steps[0], client);
      (if op.Some? then WrittenIn(Side(s, client), op.value, id) else [])
        + AllWritten(StepSession(s, steps[0]), steps[1..], client, id)
  }

  function AllSent(s: Session, steps: seq<SessionStep>, client: bool, id: StreamID): seq<Frame>
    decreases |steps|
  {
    if steps == [] then []
    else
      var op := OpOf(steps[0], client);
      (if op.Some? then SentIn(Side(s, client), op.value, id) else [])
        + AllSent(StepSession(s, steps[0]), steps[1..], client, id)
  }

  function AllPut(s: Session, steps: seq<SessionStep>, client: bool): seq<Frame>
    decreases |steps|
  {
    if steps == [] then []
    else
      var op := OpOf(steps[0], client);
      (if op.Some? then PutIn(Side(s, client), op.value) else []) + AllPut(StepSession(s, steps[0]), steps[1..], client)
  }

  function AllTaken(s: Session, steps: seq<SessionStep>, client: bool): seq<Frame>
    decreases |steps|
  {
    if steps == [] then []
    else
      var op := OpOf(steps[0], client);
      (if op.Some? then TakenIn(Side(s, client), Side(s, !client), op.value) else [])
        + AllTaken(StepSession(s, steps[0]), steps[1..], client)
  }

  // ----- The histories record it -----

  /** `t` comes after `s` with this much added to its histories. */
  predicate Records(s: Slot, t: Slot, read: seq<Byte>, written: seq<Byte>, sent: seq<Frame>) {
    t.read == s.read + read && t.accepted == s.accepted + written && t.emitted == s.emitted + sent
  }

  lemma NothingNew(s: Slot, t: Slot)
    requires t.read == s.read && t.accepted == s.accepted && t.emitted == s.emitted
    ensures Records(s, t, [], [], [])
  {}

  lemma ReadRecords(s: Slot, remaining: nat, full: bool)
    ensures Records(s, SlotRead(s, remaining, full), Returned(s, remaining, full), [], [])
  {}

  lemma WriteRecords(s: Slot, buf: seq<Byte>, full: bool)
    ensures Records(s, SlotWrite(s, buf, full), [], Accepted(s, buf, full), [])
  {}

  lemma EmissionRecords(s: Slot, id: StreamID)
    requires CanEmit(s)
    ensures var f := EmissionOf(s, id).frame;
      Records(s, SlotEmit(s, id), [], [], if f.Some? then [f.value] else [])
  {}

  function ReadByAct(s: Slot, act: Option<Links.Act>): seq<Byte> {
    if act.Some? && act.value.ReadBytes? then Returned(s, act.value.remaining, act.value.full) else []
  }

  function WrittenByAct(s: Slot, act: Option<Links.Act>): seq<Byte> {
    if act.Some? && act.value.WriteBytes? then Accepted(s, act.value.buf, act.value.full) else []
  }

  function SentByAct(s: Slot, id: StreamID, act: Option<Links.Act>): seq<Frame> {
    if act.Some? && act.value.EmitNext? && CanEmit(s) && EmissionOf(s, id).frame.Some? then
      [EmissionOf(s, id).frame.value]
    else []
  }

  lemma ReaderActRecords(x: End, window: nat, ok: bool, full: bool)
    requires x.phase == Idle && !x.stopped && x.incoming != [] && x.incoming[0].IsSyn() ==> x.slot == BLANK
    ensures Records(x.slot, ReceiveNext(x, window, ok).slot, [], [], [])
    ensures Records(x.slot, AcceptNext(x, ok).slot, [], [], [])
    ensures Records(x.slot, DeliverNext(x, full).slot, [], [], [])
  {}

  lemma AppActRecords(x: End, id: StreamID, act: Links.Act, x': End, y: End, y': End, window: nat, opener: bool)
    requires act.ReadBytes? || act.WriteBytes? || act.EmitNext?
    requires (x', y') == Step(id, window, x, y, opener, act)
    ensures Records(x.slot, x'.slot,
                    ReadByAct(x.slot, Some(act)), WrittenByAct(x.slot, Some(act)), SentByAct(x.slot, id, Some(act)))
  {
    match act
    case ReadBytes(remaining, full) => ReadRecords(x.slot, remaining, full);
    case WriteBytes(buf, full) => WriteRecords(x.slot, buf, full);
    case EmitNext =>
      if CanEmit(x.slot) { EmissionRecords(x.slot, id); } else { NothingNew(x.slot, x'.slot); }
  }

  lemma OtherActRecords(x: End, id: StreamID, act: Links.Act, x': End, y: End, y': End, window: nat, opener: bool)
    requires !(act.ReadBytes? || act.WriteBytes? || act.EmitNext?)
    requires x.phase == Idle && !x.stopped && x.incoming != [] && x.incoming[0].IsSyn() ==> x.slot == BLANK
    requires !x.slot.known ==> x.slot == BLANK
    requires (x', y') == Step(id, window, x, y, opener, act)
    ensures Records(x.slot, x'.slot, [], [], [])
  {
    match act
    case Receive(ok) => ReaderActRecords(x, window, ok, false);
    case Accept(ok) => ReaderActRecords(x, window, ok, false);
    case Attempted(full) => ReaderActRecords(x, window, false, full);
    case _ => NothingNew(x.slot, x'.slot);
  }

  lemma ActRecords(id: StreamID, window: nat, x: End, y: End, opener: bool, act: Option<Links.Act>, x': End, y': End)
    requires x.phase == Idle && !x.stopped && x.incoming != [] && x.incoming[0].IsSyn() ==> x.slot == BLANK
    requires !x.slot.known ==> x.slot == BLANK
    requires (x', y') == StepOr(id, window, x, y, opener, act)
    ensures Records(x.slot, x'.slot, ReadByAct(x.slot, act), WrittenByAct(x.slot, act), SentByAct(x.slot, id, act))
    ensures y'.slot == y.slot
  {
    if act.None? {
      NothingNew(x.slot, x'.slot);
    } else {
      var a := act.value;
      PeerOutputStays(id, window, x, y, opener, a, x', y');
      if a.ReadBytes? || a.WriteBytes? || a.EmitNext? {
        AppActRecords(x, id, a, x', y, y', window, opener);
      } else {
        OtherActRecords(x, id, a, x', y, y', window, opener);
      }
    }
  }

  /** What a step puts on the byte stream for stream `id` is what the stream's own step emits. */
  lemma SentIsEmitted(me: Endpoint, peer: Endpoint, window: nat, op: Op, id: StreamID)
    requires Joint(me, peer, window)
    ensures SentIn(me, op, id) == SentByAct(SlotOf(me, id), id, ActOn(me, peer, op, id))
  {
    if op.PollManager? {
      var added := WriteNext(me, op.pick).wire[|me.wire|..];
      if me.sys != [] {
        assert me.sys[0] in me.sys && added == [me.sys[0]];
        OnlyResets(added, id);
      } else if op.pick in me.slots && CanEmit(me.slots[op.pick]) {
        OutboxIsSound(me, peer, window, op.pick);
        EmissionIsStreamFrame(me.slots[op.pick], op.pick);
        var f := EmissionOf(me.slots[op.pick], op.pick).frame;
        assert added == if f.Some? then [f.value] else [];
        FramesAppend([], if f.Some? then f.value else FinFrame(), id);
        assert f.Some? ==> [] + [f.value] == [f.value];
      } else {
        assert added == [];
      }
    }
  }

  lemma BlankUnlessKnown(me: Endpoint, peer: Endpoint, window: nat, id: StreamID, x: End)
    requires Joint(me, peer, window) && x == EndOf(me, peer, id)
    ensures x.phase == Idle && !x.stopped && x.incoming != [] && x.incoming[0].IsSyn() ==> x.slot == BLANK
    ensures !x.slot.known ==> x.slot == BLANK
  {
    SafeAt(me, peer, window, id);
    SynMeansBlank(x, EndOf(peer, me, id), OpensHere(me, id), window);
  }

  lemma CallsAreActs(me: Endpoint, peer: Endpoint, op: Op, id: StreamID)
    ensures ReadIn(me, op, id) == ReadByAct(SlotOf(me, id), ActOn(me, peer, op, id))
    ensures WrittenIn(me, op, id) == WrittenByAct(SlotOf(me, id), ActOn(me, peer, op, id))
  {}

  lemma ProjectedRecords(me: Endpoint, peer: Endpoint, window: nat, op: Op, id: StreamID, me': Endpoint,
                         peer': Endpoint)
    requires Joint(me, peer, window) && IdsLeftFor(me, op)
    requires (me', peer') == SideStep(me, peer, window, op)
    ensures var x, act := SlotOf(me, id), ActOn(me, peer, op, id);
      Records(x, SlotOf(me', id), ReadByAct(x, act), WrittenByAct(x, act), SentByAct(x, id, act))
    ensures SlotOf(peer', id) == SlotOf(peer, id)
  {
    var x, act := EndOf(me, peer, id), ActOn(me, peer, op, id);
    StepProjects(me, peer, window, op, id);
    BlankUnlessKnown(me, peer, window, id, x);
    ActRecords(id, window, x, EndOf(peer, me, id), OpensHere(me, id), act,
               EndOf(me', peer', id), EndOf(peer', me', id));
  }

  lemma SideStepRecords(me: Endpoint, peer: Endpoint, window: nat, op: Op, id: StreamID, me': Endpoint, peer': Endpoint)
    requires Joint(me, peer, window) && IdsLeftFor(me, op)
    requires (me', peer') == SideStep(me, peer, window, op)
    ensures Records(SlotOf(me, id), SlotOf(me', id), ReadIn(me, op, id), WrittenIn(me, op, id), SentIn(me, op, id))
    ensures SlotOf(peer', id) == SlotOf(peer, id)
  {
    ProjectedRecords(me, peer, window, op, id, me', peer');
    SentIsEmitted(me, peer, window, op, id);
    CallsAreActs(me, peer, op, id);
  }

  lemma StepRecords(s: Session, step: SessionStep, client: bool, id: StreamID)
    requires SessionInv(s) && IdsLeftForStep(s, step)
    ensures var op := OpOf(step, client);
      var x, x' := SlotOf(Side(s, client), id), SlotOf(Side(StepSession(s, step), client), id);
      if op.Some? then
        Records(x, x', ReadIn(Side(s, client), op.value, id), WrittenIn(Side(s, client), op.value, id),
                SentIn(Side(s, client), op.value, id))
      else x' == x
  {
    var s' := StepSession(s, step);
    match step
    case ByClient(op) => SideStepRecords(s.client, s.server, s.window, op, id, s'.client, s'.server);
    case ByServer(op) =>
      JointSymmetric(s.client, s.server, s.window);
      SideStepRecords(s.server, s.client, s.window, op, id, s'.server, s'.client);
  }

  lemma RecordsAdd(s: Slot, t: Slot, u: Slot, r1: seq<Byte>, w1: seq<Byte>, e1: seq<Frame>,
                   r2: seq<Byte>, w2: seq<Byte>, e2: seq<Frame>)
    requires Records(s, t, r1, w1, e1) && Records(t, u, r2, w2, e2)
    ensures Records(s, u, r1 + r2, w1 + w2, e1 + e2)
  {}

  lemma {:induction false} RunRecords(s: Session, steps: seq<SessionStep>, client: bool, id: StreamID)
    requires SessionInv(s) && IdsSuffice(s, steps)
    ensures Records(SlotOf(Side(s, client), id), SlotOf(Side(RunSession(s, steps), client), id),
                    AllRead(s, steps, client, id), AllWritten(s, steps, client, id), AllSent(s, steps, client, id))
    decreases |steps|
  {
    var x := SlotOf(Side(s, client), id);
    if steps == [] {
      NothingNew(x, x);
    } else {
      var s1, op := StepSession(s, steps[0]), OpOf(steps[0], client);
      var x1 := SlotOf(Side(s1, client), id);
      StepRecords(s, steps[0], client, id);
      SessionStepKeeps(s, steps[0]);
      RunRecords(s1, steps[1..], client, id);
      if op.None? {
        NothingNew(x, x1);
      }
      RecordsAdd(x, x1, SlotOf(Side(RunSession(s, steps), client), id),
        if op.Some? then ReadIn(Side(s, client), op.value, id) else [],
        if op.Some? then WrittenIn(Side(s, client), op.value, id) else [],
        if op.Some? then SentIn(Side(s, client), op.value, id) else [],
        AllRead(s1, steps[1..], client, id), AllWritten(s1, steps[1..], client, id),
        AllSent(s1, steps[1..], client, id));
    }
  }

  // ----- The guarantees, on transcripts -----

  lemma HistoriesAreTranscripts(window: nat, clientLimit: nat, serverLimit: nat, steps: seq<SessionStep>,
                                client: bool, id: StreamID)
    requires IdsSuffice(NewSession(window, clientLimit, serverLimit), steps)
    ensures var start := NewSession(window, clientLimit, serverLimit);
      var x := SlotOf(Side(RunSession(start, steps), client), id);
      && x.read == AllRead(start, steps, client, id)
      && x.accepted == AllWritten(start, steps, client, id)
      && x.emitted == AllSent(start, steps, client, id)
  {
    NewSessionInv(window, clientLimit, serverLimit);
    RunRecords(NewSession(window, clientLimit, serverLimit), steps, client, id);
  }

  /**
   * In every run, for every stream and direction: the bytes all reads at one end have returned are
   * a prefix of the bytes all writes at the other end have accepted.
   */
  lemma ReadsFollowWrites(window: nat, clientLimit: nat, serverLimit: nat, steps: seq<SessionStep>,
                          fromClient: bool, id: StreamID)
    requires IdsSuffice(NewSession(window, clientLimit, serverLimit), steps)
    ensures var start := NewSession(window, clientLimit, serverLimit);
      AllRead(start, steps, !fromClient, id) <= AllWritten(start, steps, fromClient, id)
  {
    var start := NewSession(window, clientLimit, serverLimit);
    HistoriesAreTranscripts(window, clientLimit, serverLimit, steps, fromClient, id);
    HistoriesAreTranscripts(window, clientLimit, serverLimit, steps, !fromClient, id);
    EndToEndDelivery(RunSession(start, steps), fromClient, id);
  }

  /** And the data and credit a side has put on the byte stream for one stream follow the grammar. */
  lemma SendsFollowGrammar(window: nat, clientLimit: nat, serverLimit: nat, steps: seq<SessionStep>, client: bool,
                           id: StreamID)
    requires IdsSuffice(NewSession(window, clientLimit, serverLimit), steps)
    ensures Grammar(AllSent(NewSession(window, clientLimit, serverLimit), steps, client, id), client <==> id % 2 == 1)
  {
    var start := NewSession(window, clientLimit, serverLimit);
    var s := RunSession(start, steps);
    HistoriesAreTranscripts(window, clientLimit, serverLimit, steps, client, id);
    OutputFollowsGrammar(s, client, id);
    SideIsSafe(s, client);
  }

  // ----- The byte stream, from the first byte to the last -----

  /** Nothing but the writer adds to the byte stream of a side, and nothing takes from it. */
  lemma OwnWireGrows(me: Endpoint, peer: Endpoint, window: nat, op: Op)
    ensures SideStep(me, peer, window, op).0.wire == me.wire + PutIn(me, op)
  {
    if op.PollManager? {
      assert me.wire <= WriteNext(me, op.pick).wire;
    } else {
      assert me.wire + [] == me.wire;
    }
  }

  lemma OtherWireShrinks(me: Endpoint, peer: Endpoint, window: nat, op: Op)
    ensures peer.wire == TakenIn(me, peer, op) + SideStep(me, peer, window, op).1.wire
  {
    assert [] + peer.wire == peer.wire;
  }

  /** One step: what was on the byte stream and what is put on it is what is taken off and what stays. */
  lemma SideStepMovesWire(me: Endpoint, peer: Endpoint, window: nat, op: Op)
    ensures var (me', peer') := SideStep(me, peer, window, op);
      && me'.wire == me.wire + PutIn(me, op)
      && peer.wire == TakenIn(me, peer, op) + peer'.wire
  {
    OwnWireGrows(me, peer, window, op);
    OtherWireShrinks(me, peer, window, op);
  }

  /** A frame put on the byte stream is one that is expected there. */
  lemma PutIsExpected(me: Endpoint, peer: Endpoint, window: nat, op: Op)
    requires Joint(me, peer, window) && IdsLeftFor(me, op)
    ensures forall f :: f in PutIn(me, op) ==> Expected(f)
  {
    var (me', peer') := SideStep(me, peer, window, op);
    JointStep(me, peer, window, op, me', peer');
    JointSymmetric(me', peer', window);
    SideStepMovesWire(me, peer, window, op);
    forall f | f in PutIn(me, op) ensures Expected(f) {
      assert f in me'.wire;
      if !IsReset(f) {
        IncomingIsSound(peer', me', window, f);
      }
    }
  }

  lemma StepMovesWire(s: Session, step: SessionStep, client: bool)
    requires SessionInv(s) && IdsLeftForStep(s, step)
    ensures var s' := StepSession(s, step);
      var mine, theirs := OpOf(step, client), OpOf(step, !client);
      var put := if mine.Some? then PutIn(Side(s, client), mine.value) else [];
      var taken := if theirs.Some? then TakenIn(Side(s, !client), Side(s, client), theirs.value) else [];
      && Side(s, client).wire + put == taken + Side(s', client).wire
      && forall f :: f in put ==> Expected(f)
  {
    JointSymmetric(s.client, s.server, s.window);
    match step
    case ByClient(op) =>
      SideStepMovesWire(s.client, s.server, s.window, op);
      PutIsExpected(s.client, s.server, s.window, op);
    case ByServer(op) =>
      SideStepMovesWire(s.server, s.client, s.window, op);
      PutIsExpected(s.server, s.client, s.window, op);
  }

  lemma Rearrange<T>(wire: seq<T>, put: seq<T>, taken: seq<T>, wire': seq<T>, puts: seq<T>, takens: seq<T>, end: seq<T>)
    requires wire + put == taken + wire' && wire' + puts == takens + end
    ensures wire + (put + puts) == taken + takens + end
  {
    assert wire + (put + puts) == (wire + put) + puts == taken + (wire' + puts);
  }

  lemma {:induction false} RunMovesWire(s: Session, steps: seq<SessionStep>, client: bool)
    requires SessionInv(s) && IdsSuffice(s, steps)
    ensures Side(s, client).wire + AllPut(s, steps, client)
         == AllTaken(s, steps, !client) + Side(RunSession(s, steps), client).wire
    ensures forall f :: f in AllPut(s, steps, client) ==> Expected(f)
    decreases |steps|
  {
    if steps != [] {
      var s1 := StepSession(s, steps[0]);
      var mine, theirs := OpOf(steps[0], client), OpOf(steps[0], !client);
      var put := if mine.Some? then PutIn(Side(s, client), mine.value) else [];
      var taken := if theirs.Some? then TakenIn(Side(s, !client), Side(s, client), theirs.value) else [];
      StepMovesWire(s, steps[0], client);
      SessionStepKeeps(s, steps[0]);
      RunMovesWire(s1, steps[1..], client);
      Rearrange(Side(s, client).wire, put, taken, Side(s1, client).wire, AllPut(s1, steps[1..], client),
                AllTaken(s1, steps[1..], !client), Side(RunSession(s, steps), client).wire);
    }
  }

  /**
   * The byte stream is transparent over the whole run: however the bytes of all frames a side has
   * ever written are cut into chunks, the decoder at the other end returns these frames in order
   * and is left with nothing; the frames the reader there has taken are the first of them.
   */
  lemma ByteStreamIsTransparent(window: nat, clientLimit: nat, serverLimit: nat, steps: seq<SessionStep>,
                                client: bool, events: seq<Codec.Event>)
    requires IdsSuffice(NewSession(window, clientLimit, serverLimit), steps)
    requires Codec.Arrived(events)
          == Codec.EncodeAll(AllPut(NewSession(window, clientLimit, serverLimit), steps, client))
    ensures var start := NewSession(window, clientLimit, serverLimit);
      var put := AllPut(start, steps, client);
      var (d, out) := Codec.RunDecoder(Codec.FRESH_DECODER, events);
      && out <= put
      && (Codec.DecodeStep(d).1 == None ==> out == put && Codec.Represents(Codec.DecodeStep(d).0, []))
      && put == AllTaken(start, steps, !client) + Side(RunSession(start, steps), client).wire
  {
    var start := NewSession(window, clientLimit, serverLimit);
    var put := AllPut(start, steps, client);
    NewSessionInv(window, clientLimit, serverLimit);
    RunMovesWire(start, steps, client);
    assert [] + put == put;
    forall f | f in put ensures Codec.WellFormed(f) {
      ExpectedIsWellFormed(f);
    }
    Codec.StreamRoundTrip(put);
    Codec.ChunkingInvariance(events);
  }
}
