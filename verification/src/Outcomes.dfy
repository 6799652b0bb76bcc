/**
 * What the operations of a manager come to (muxado/src/stream_manager.rs), in the frames and fields
 * the rest of the session can see: which frame a poll yields, what becomes of a delivered frame, what
 * a new stream starts with.
 */
module Outcomes {
  import opened Wrappers
  import opened Frames
  import opened Flows
  import opened StreamOutput
  import opened Streams
  import opened Managers
  import opened Layout
  import opened Answers

  /** The first close code stays; error `e` gives an open stream its own code. */
  predicate ClosedBy(code: U32, e: Error, code': U32) {
    if code != 0 then code' == code else Coded(e, code') && (e == ErrorUnknown ==> code' == 0xFFFF_FFFF)
  }

  lemma CloseCodeCloses(code: U32, e: Error)
    ensures ClosedBy(code, e, CloseCode(code, e))
  {}

  // ----- Deliveries -----

  predicate IsRefusable(f: Frame) {
    f.body.Data? && !(f.header.flags.fin && f.body.bytes == [])
  }

  /** Why data is refused: no more may come, it exceeds the window, or nobody listens. */
  predicate RefusedFor(p: Parcel, e: Entry, inbox: Chan, error: Error) {
    && IsRefusable(p.frame)
    && if e.dataWriteClosed then error == StreamClosed
       else if p.shrink > e.window then error == FlowControl
       else (inbox.txClosed || inbox.rxClosed) && error == StreamClosed
  }

  /** Only the window differs: what had not been taken off it before has been now. */
  predicate Shrinks(p: Parcel, e: Entry, e': Entry) {
    && e' == e.(window := e'.window) && e'.window + p.shrink == e.window
  }

  /**
   * Refused data resets the stream: its sink is closed, and no more data or FIN is due. A reset closes
   * the sink with its own error. What the window covers enters an open channel at its end; a full one
   * makes the delivery wait, with the window already charged. A closed one loses what is no data.
   */
  lemma DeliveryOutcome(p: Parcel, e: Entry, code: U32, inbox: Chan, full: bool)
    requires Typed(p.frame) && Routable(p.frame)
    ensures var d := Deliver(p, Some(e), code, inbox, full);
      var f := p.frame;
      && d.entry.Some? && d.parcel.frame == f
      && if exists error :: RefusedFor(p, e, inbox, error) then
           && d.poll.Ready? && d.poll.value.Err? && RefusedFor(p, e, inbox, d.poll.value.error)
           && d.inbox == inbox && ClosedBy(code, StreamClosed, d.code)
           && d.entry.value.dataWriteClosed && !d.entry.value.needsFin
         else if f.body.Rst? then
           && d.poll == Ready(Ok(())) && d.inbox == inbox && ClosedBy(code, f.body.error, d.code)
           && d.entry == Some(Entry(e.window, false, true))
         else if (f.body.Data? && e.dataWriteClosed) || p.shrink > e.window then
           d.poll == Ready(Ok(())) && d.inbox == inbox && d.code == code && d.entry == Some(e)
         else
           && d.code == code && Shrinks(p, e, d.entry.value)
           && if inbox.txClosed || inbox.rxClosed then d.poll == Ready(Ok(())) && d.inbox == inbox
              else if full then d.poll == Pending && d.inbox == inbox && d.parcel.shrink == 0
              else d.poll == Ready(Ok(())) && d.inbox == inbox.(queue := inbox.queue + [f])
  {
    CloseCodeCloses(code, StreamClosed);
    if p.frame.body.Rst? {
      CloseCodeCloses(code, p.frame.body.error);
    }
    assert IsRefusable(p.frame) && e.dataWriteClosed ==> RefusedFor(p, e, inbox, StreamClosed);
    assert IsRefusable(p.frame) && !e.dataWriteClosed && p.shrink > e.window ==> RefusedFor(p, e, inbox, FlowControl);
    assert IsRefusable(p.frame) && !e.dataWriteClosed && p.shrink <= e.window && inbox.Disconnected()
      ==> RefusedFor(p, e, inbox, StreamClosed);
  }

  /** A stream that is not in the map: data is refused, unless it is an empty FIN. */
  lemma UnknownOutcome(p: Parcel, code: U32, inbox: Chan, full: bool)
    requires Typed(p.frame) && Routable(p.frame)
    ensures var d := Deliver(p, None, code, inbox, full);
      && d.poll == Ready(if IsRefusable(p.frame) then Err(StreamClosed) else Ok(()))
      && d.entry.None? && d.code == code && d.inbox == inbox
  {}

  /**
   * A reset reaches the application: once it is delivered, a stream that was open fails its writes and
   * its shutdown with the error of the reset.
   */
  lemma ResetReachesTheWriter(p: Parcel, e: Entry, inbox: Chan, full: bool, s: StreamState, buf: seq<Byte>,
                              blocked: bool)
    requires p.frame.header.typ.Rst? && p.frame.body.Rst? && p.frame.body.error != NoError
    requires s.code == Deliver(p, Some(e), 0, inbox, full).code
    requires s.app.writeClosed.None? && s.app.window.size > 0 && AllStreamFrames(s.inbox.queue)
    ensures Write(s, buf, full).0 == Ready(Err(p.frame.body.error))
    ensures Shutdown(s, full, blocked).0 == Ready(Err(p.frame.body.error))
  {
    var error := p.frame.body.error;
    ErrorCodeRoundTrip(error);
    WriteAccepts(s, buf, full);
    ShutdownSendsFin(s, full, blocked);
  }

  // ----- The manager's poll -----

  /** System frames go first, in order; after a go-away there is nothing at all. */
  lemma SystemOutcome(m: ManagerState, pick: Option<nat>)
    requires pick.Some? ==> pick.value < |m.waiting| && m.waiting[pick.value].outbox.HasNext()
    requires pick.Some? && !m.sentAway ==> m.waiting[pick.value].id in m.lines
    requires m.sentAway || m.sys.queue != []
    ensures PollNextOf(m, pick) ==
      if m.sentAway then (Ready(None), m)
      else (Ready(Some(m.sys.queue[0])), m.(sys := m.sys.(queue := m.sys.queue[1..])))
  {}

  /** A FIN of the manager's own: an empty data frame that ends stream `id`. */
  predicate OwnFin(f: Frame, id: StreamID) {
    f == Frame(Header(0, HeaderType.Data, Flags(true, false), id), Body.Data([]))
  }

  /** Credit in a frame of a stream opens the manager's window for the data it pays for. */
  function CreditIn(f: Frame): nat {
    if f.body.WndInc? then f.body.inc else 0
  }

  /**
   * What a ready task yields: its next frame under the id of the stream, with its credit added to the
   * window; after its last frame a FIN if one is still due. A stream without anything left, or with a
   * close code, leaves the map; the frames of a closed one are lost.
   */
  lemma TaskOutcome(m: ManagerState, i: nat)
    requires !m.sentAway && m.sys.queue == [] && i < |m.waiting| && m.waiting[i].id in m.lines
    requires m.waiting[i].outbox.queue != [] || m.waiting[i].outbox.txClosed
    ensures var (r, m') := PollNextOf(m, Some(i));
      var w := m.waiting[i];
      var line := m.lines[w.id];
      if (line.code == 0 || line.entry.needsFin) && w.outbox.queue != [] then
        var f := w.outbox.queue[0];
        && r == Ready(Some(Frame(Header(f.header.length, f.header.typ, f.header.flags, w.id), f.body)))
        && m' == m.(
             lines := m.lines[w.id := line.(entry := Entry(
               line.entry.window + CreditIn(f),
               line.entry.needsFin && !f.header.flags.fin,
               line.entry.dataWriteClosed))],
             waiting := m.waiting[i := Waiting(w.id, w.outbox.(queue := w.outbox.queue[1..]))])
      else
        && (if line.entry.needsFin then r.Ready? && r.value.Some? && OwnFin(r.value.value, w.id) else r == Pending)
        && m' == m.(lines := m.lines - {w.id}, waiting := m.waiting[..i] + m.waiting[i + 1..])
  {}

  // ----- Opening -----

  /**
   * Below the limit a stream enters the map with its whole window, open in both directions and with a
   * FIN due; a local one under the id two above the last, a remote one under the remote's.
   */
  lemma OpenOutcome(m: ManagerState, request: Option<StreamID>, window: nat)
    ensures var (r, m') := Create(m, request, window);
      if |m.lines| == m.streamLimit then r == Err(StreamsExhausted) && m' == m
      else
        var id := if request.Some? then request.value
                  else if m.lastLocalId + 2 > 0x7FFF_FFFF then 0x7FFF_FFFF else m.lastLocalId + 2;
        && r == Ok(id)
        && m'.lines == m.lines[id := Line(Entry(window, true, false), 0, Chan([], false, false))]
        && m'.waiting == m.waiting + [Waiting(id, Chan([], false, false))]
        && m'.lastLocalId == (if request.Some? then m.lastLocalId else id)
        && m'.lastRemoteId == (if request.Some? then id else m.lastRemoteId)
        && m'.sys == m.sys && m'.sentAway == m.sentAway && m'.streamLimit == m.streamLimit
  {}

  /** A client's ids are odd, from 3 on; a server's are even, from 2 on. */
  lemma FirstIds(limit: nat)
    ensures Create(NewManager(limit, true), None, 0).0 == if limit == 0 then Err(StreamsExhausted) else Ok(3)
    ensures Create(NewManager(limit, false), None, 0).0 == if limit == 0 then Err(StreamsExhausted) else Ok(2)
  {}
}
