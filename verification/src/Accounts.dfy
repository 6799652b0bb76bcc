/**
 * The credit of every stream of every run: what is where, and what each step so far has lost, add
 * up to the window.
 */
module Accounts {
  import opened Wrappers
  import opened Frames
  import opened Flows
  import opened StreamOutput
  import opened Windows
  import opened Streams
  import opened Managers
  import opened Links
  import opened LinkGuarantees
  import opened LinkCredit
  import opened LinkAccounts
  import opened Sessions
  import opened SessionSteps
  import opened Guarantees
  import opened Transcripts

  // ----- What one step loses -----

  /** Lost by a step of side `me` for the bytes it sends on stream `id`. */
  function LossAsSender(me: Endpoint, peer: Endpoint, op: Op, id: StreamID): nat {
    var act := ActOn(me, peer, op, id);
    if act.Some? then LostBySender(id, EndOf(me, peer, id), act.value) else 0
  }

  /** Lost by a step of side `me` for the bytes it receives. */
  function LossAsReceiver(me: Endpoint, peer: Endpoint, op: Op, id: StreamID): nat {
    var act := ActOn(me, peer, op, id);
    if act.Some? then LostByReceiver(id, EndOf(me, peer, id), act.value) else 0
  }

  /** Lost by a step of side `me` to the window its manager keeps for the stream. */
  function LossToHandle(me: Endpoint, peer: Endpoint, op: Op, id: StreamID): nat {
    var act := ActOn(me, peer, op, id);
    if act.Some? then LostByHandle(EndOf(me, peer, id), act.value) else 0
  }

  // ----- What a run loses -----

  /** Everything a run has lost for bytes of stream `id` from one side. */
  function LostToSender(s: Session, steps: seq<SessionStep>, fromClient: bool, id: StreamID): nat
    decreases |steps|
  {
    if steps == [] then 0
    else
      var mine, theirs := OpOf(steps[0], fromClient), OpOf(steps[0], !fromClient);
      (if mine.Some? then LossAsSender(Side(s, fromClient), Side(s, !fromClient), mine.value, id) else 0)
      + (if theirs.Some? then LossAsReceiver(Side(s, !fromClient), Side(s, fromClient), theirs.value, id) else 0)
      + LostToSender(StepSession(s, steps[0]), steps[1..], fromClient, id)
  }

  /** Everything a run has lost to the window of the manager of one side. */
  function LostToHandle(s: Session, steps: seq<SessionStep>, client: bool, id: StreamID): nat
    decreases |steps|
  {
    if steps == [] then 0
    else
      var mine := OpOf(steps[0], client);
      (if mine.Some? then LossToHandle(Side(s, client), Side(s, !client), mine.value, id) else 0)
      + LostToHandle(StepSession(s, steps[0]), steps[1..], client, id)
  }

  // ----- Every step balances -----

  /** The step of one stream behind a step of side `me`, with the invariant before and after it. */
  lemma StepOfStream(me: Endpoint, peer: Endpoint, window: nat, op: Op, id: StreamID, me': Endpoint, peer': Endpoint)
    requires Joint(me, peer, window) && IdsLeftFor(me, op)
    requires (me', peer') == SideStep(me, peer, window, op)
    ensures var x, y, opener := EndOf(me, peer, id), EndOf(peer, me, id), OpensHere(me, id);
      var x', y' := EndOf(me', peer', id), EndOf(peer', me', id);
      && (x', y') == StepOr(id, window, x, y, opener, ActOn(me, peer, op, id))
      && Linked(x, y, opener, window) && Linked(x', y', opener, window)
  {
    StepProjects(me, peer, window, op, id);
    JointStep(me, peer, window, op, me', peer');
    SidesStay(me, peer, window, op, me', peer');
    assert Safe(me, peer, window, id) && Safe(me', peer', window, id);
  }

  lemma SenderSideBalances(me: Endpoint, peer: Endpoint, window: nat, op: Op, id: StreamID, me': Endpoint,
                           peer': Endpoint, lost: nat)
    requires Joint(me, peer, window) && IdsLeftFor(me, op)
    requires (me', peer') == SideStep(me, peer, window, op)
    requires SenderBalances(EndOf(me, peer, id), EndOf(peer, me, id), lost, window)
    ensures SenderBalances(EndOf(me', peer', id), EndOf(peer', me', id), lost + LossAsSender(me, peer, op, id), window)
  {
    StepOfStream(me, peer, window, op, id, me', peer');
    var act := ActOn(me, peer, op, id);
    if act.Some? {
      SenderStepBalances(id, window, EndOf(me, peer, id), EndOf(peer, me, id), OpensHere(me, id), act.value,
                         EndOf(me', peer', id), EndOf(peer', me', id), lost);
    }
  }

  lemma ReceiverSideBalances(me: Endpoint, peer: Endpoint, window: nat, op: Op, id: StreamID, me': Endpoint,
                             peer': Endpoint, lost: nat)
    requires Joint(me, peer, window) && IdsLeftFor(me, op)
    requires (me', peer') == SideStep(me, peer, window, op)
    requires SenderBalances(EndOf(peer, me, id), EndOf(me, peer, id), lost, window)
    ensures SenderBalances(
      EndOf(peer', me', id), EndOf(me', peer', id), lost + LossAsReceiver(me, peer, op, id), window)
  {
    StepOfStream(me, peer, window, op, id, me', peer');
    var act := ActOn(me, peer, op, id);
    if act.Some? {
      ReceiverStepBalances(id, window, EndOf(me, peer, id), EndOf(peer, me, id), OpensHere(me, id), act.value,
                           EndOf(me', peer', id), EndOf(peer', me', id), lost);
    }
  }

  lemma HandleSideBalances(me: Endpoint, peer: Endpoint, window: nat, op: Op, id: StreamID, me': Endpoint,
                           peer': Endpoint, lost: nat)
    requires Joint(me, peer, window) && IdsLeftFor(me, op)
    requires (me', peer') == SideStep(me, peer, window, op)
    requires HandleBalances(EndOf(me, peer, id), lost, window)
    ensures HandleBalances(EndOf(me', peer', id), lost + LossToHandle(me, peer, op, id), window)
  {
    StepOfStream(me, peer, window, op, id, me', peer');
    var act := ActOn(me, peer, op, id);
    if act.Some? {
      HandleStepBalances(id, window, EndOf(me, peer, id), EndOf(peer, me, id), OpensHere(me, id), act.value,
                         EndOf(me', peer', id), EndOf(peer', me', id), lost);
    }
  }

  lemma PeerKeepsHandle(id: StreamID, window: nat, x: End, y: End, opener: bool, act: Links.Act, x': End, y': End,
                        lost: nat)
    requires (x', y') == Step(id, window, x, y, opener, act) && HandleBalances(y, lost, window)
    ensures HandleBalances(y', lost, window)
  {
    assert y'.slot == y.slot && y'.phase == y.phase;
  }

  /** A step of the other side leaves the handle and the delivery in progress alone. */
  lemma OtherSideKeepsHandle(me: Endpoint, peer: Endpoint, window: nat, op: Op, id: StreamID, me': Endpoint,
                             peer': Endpoint, lost: nat)
    requires Joint(me, peer, window) && IdsLeftFor(me, op)
    requires (me', peer') == SideStep(me, peer, window, op)
    requires HandleBalances(EndOf(peer, me, id), lost, window)
    ensures HandleBalances(EndOf(peer', me', id), lost, window)
  {
    StepProjects(me, peer, window, op, id);
    var act := ActOn(me, peer, op, id);
    if act.Some? {
      PeerKeepsHandle(id, window, EndOf(me, peer, id), EndOf(peer, me, id), OpensHere(me, id), act.value,
                      EndOf(me', peer', id), EndOf(peer', me', id), lost);
    }
  }

  // ----- Every run balances -----

  predicate Balanced(s: Session, fromClient: bool, id: StreamID, lost: nat) {
    SenderBalances(EndAt(s, fromClient, id), EndAt(s, !fromClient, id), lost, s.window)
  }

  lemma StepBalances(s: Session, step: SessionStep, fromClient: bool, id: StreamID, lost: nat, lost': nat)
    requires SessionInv(s) && IdsLeftForStep(s, step) && Balanced(s, fromClient, id, lost)
    requires var mine, theirs := OpOf(step, fromClient), OpOf(step, !fromClient);
      lost' == lost
        + (if mine.Some? then LossAsSender(Side(s, fromClient), Side(s, !fromClient), mine.value, id) else 0)
        + (if theirs.Some? then LossAsReceiver(Side(s, !fromClient), Side(s, fromClient), theirs.value, id) else 0)
    ensures Balanced(StepSession(s, step), fromClient, id, lost')
  {
    JointSymmetric(s.client, s.server, s.window);
    var s' := StepSession(s, step);
    var me, peer, me', peer' := Side(s, fromClient), Side(s, !fromClient), Side(s', fromClient), Side(s', !fromClient);
    var op := step.op;
    if step.ByClient? == fromClient {
      SenderSideBalances(me, peer, s.window, op, id, me', peer', lost);
    } else {
      ReceiverSideBalances(peer, me, s.window, op, id, peer', me', lost);
    }
  }

  lemma {:induction false} RunBalances(s: Session, steps: seq<SessionStep>, fromClient: bool, id: StreamID, lost: nat)
    requires SessionInv(s) && IdsSuffice(s, steps) && Balanced(s, fromClient, id, lost)
    ensures Balanced(RunSession(s, steps), fromClient, id, lost + LostToSender(s, steps, fromClient, id))
    decreases |steps|
  {
    if steps != [] {
      var s1 := StepSession(s, steps[0]);
      var now := LostToSender(s, steps, fromClient, id) - LostToSender(s1, steps[1..], fromClient, id);
      StepBalances(s, steps[0], fromClient, id, lost, lost + now);
      SessionStepKeeps(s, steps[0]);
      RunBalances(s1, steps[1..], fromClient, id, lost + now);
    }
  }

  lemma HealthyLosesNothing(s: Session, fromClient: bool, id: StreamID, lost: nat)
    requires SessionInv(s) && Balanced(s, fromClient, id, lost) && HealthyStream(s, id)
    requires SlotOf(Side(s, fromClient), id).app.Some?
    ensures lost == 0
  {
    JointSymmetric(s.client, s.server, s.window);
    SafeAt(Side(s, fromClient), Side(s, !fromClient), s.window, id);
    HealthySenderIsWhole(EndAt(s, fromClient, id), EndAt(s, !fromClient, id), OpensHere(Side(s, fromClient), id),
                         s.window);
  }

  /**
   * The sender's window, the bytes in the six places between writer and reader, the credit in the
   * four places on its way back, and everything the run has lost, add up to the window size; on a
   * healthy stream nothing has been lost.
   */
  lemma SenderCreditConserved(window: nat, clientLimit: nat, serverLimit: nat, steps: seq<SessionStep>,
                              fromClient: bool, id: StreamID)
    requires IdsSuffice(NewSession(window, clientLimit, serverLimit), steps)
    requires SlotOf(Side(RunSession(NewSession(window, clientLimit, serverLimit), steps), fromClient), id).app.Some?
    ensures var start := NewSession(window, clientLimit, serverLimit);
      var s, lost := RunSession(start, steps), LostToSender(start, steps, fromClient, id);
      && SenderTotal(EndAt(s, fromClient, id), EndAt(s, !fromClient, id)) + lost == window
      && (HealthyStream(s, id) ==> lost == 0)
  {
    var start := NewSession(window, clientLimit, serverLimit);
    var s := RunSession(start, steps);
    NewSessionInv(window, clientLimit, serverLimit);
    RunBalances(start, steps, fromClient, id, 0);
    SessionRunKeeps(start, steps);
    if HealthyStream(s, id) {
      HealthyLosesNothing(s, fromClient, id, LostToSender(start, steps, fromClient, id));
    }
  }

  lemma HandleStep(s: Session, step: SessionStep, client: bool, id: StreamID, lost: nat, lost': nat)
    requires SessionInv(s) && IdsLeftForStep(s, step) && HandleBalances(EndAt(s, client, id), lost, s.window)
    requires var mine := OpOf(step, client);
      lost' == lost + if mine.Some? then LossToHandle(Side(s, client), Side(s, !client), mine.value, id) else 0
    ensures HandleBalances(EndAt(StepSession(s, step), client, id), lost', s.window)
  {
    JointSymmetric(s.client, s.server, s.window);
    var s' := StepSession(s, step);
    var me, peer, me', peer' := Side(s, client), Side(s, !client), Side(s', client), Side(s', !client);
    if step.ByClient? == client {
      HandleSideBalances(me, peer, s.window, step.op, id, me', peer', lost);
    } else {
      OtherSideKeepsHandle(peer, me, s.window, step.op, id, peer', me', lost);
    }
  }

  lemma {:induction false} HandleRun(s: Session, steps: seq<SessionStep>, client: bool, id: StreamID, lost: nat)
    requires SessionInv(s) && IdsSuffice(s, steps) && HandleBalances(EndAt(s, client, id), lost, s.window)
    ensures HandleBalances(EndAt(RunSession(s, steps), client, id), lost + LostToHandle(s, steps, client, id), s.window)
    decreases |steps|
  {
    if steps != [] {
      var s1 := StepSession(s, steps[0]);
      var now := LostToHandle(s, steps, client, id) - LostToHandle(s1, steps[1..], client, id);
      HandleStep(s, steps[0], client, id, lost, lost + now);
      SessionStepKeeps(s, steps[0]);
      HandleRun(s1, steps[1..], client, id, lost + now);
    }
  }

  /**
   * The window a manager keeps for a stream, what has been taken off it for a frame being delivered
   * or for bytes not read yet, the credit not passed on yet, and everything the run has lost, add up
   * to the window size, until the stream leaves the map; on a healthy stream nothing has been lost.
   */
  lemma ReceiverCreditConserved(window: nat, clientLimit: nat, serverLimit: nat, steps: seq<SessionStep>,
                                client: bool, id: StreamID)
    requires IdsSuffice(NewSession(window, clientLimit, serverLimit), steps)
    requires SlotOf(Side(RunSession(NewSession(window, clientLimit, serverLimit), steps), client), id).entry.Some?
    ensures var start := NewSession(window, clientLimit, serverLimit);
      var s, lost := RunSession(start, steps), LostToHandle(start, steps, client, id);
      && HandleTotal(EndAt(s, client, id)) + lost == window
      && (HealthyStream(s, id) ==> lost == 0)
  {
    var start := NewSession(window, clientLimit, serverLimit);
    var s := RunSession(start, steps);
    NewSessionInv(window, clientLimit, serverLimit);
    HandleRun(start, steps, client, id, 0);
    SessionRunKeeps(start, steps);
    StreamIsSafe(s, !client, id);
    if HealthyStream(s, id) {
      HealthyHandleIsWhole(EndAt(s, !client, id), EndAt(s, client, id), OpensHere(Side(s, !client), id), window);
    }
  }
}
