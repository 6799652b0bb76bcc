/**
 * The channel between a stream and its manager, and the sink a stream writes to
 * (muxado/src/stream_output.rs). The close code is shared by the stream's sender and by the
 * manager's handle.
 */
module StreamOutput {
  import opened Wrappers
  import opened Frames

  /**
   * A bounded queue with one receiver. `txClosed`: no sender is left, or the channel was closed;
   * buffered frames are still delivered. `rxClosed`: the receiver is gone, with what it had not read.
   */
  datatype Chan = Chan(queue: seq<Frame>, txClosed: bool, rxClosed: bool) {
    predicate Disconnected() { txClosed || rxClosed }

    /** Polling the receiver yields something: a frame, or the end of the channel. */
    predicate HasNext() { queue != [] || txClosed }

    function Push(f: Frame): Chan { this.(queue := queue + [f]) }

    function Pop(): Chan
      requires queue != []
    {
      this.(queue := queue[1..])
    }

    function CloseSender(): Chan { this.(txClosed := true) }

    function DropReceiver(): Chan { this.(queue := [], rxClosed := true) }
  }

  const OPEN_CHAN := Chan([], false, false)

  class Channel {
    var queue: seq<Frame>
    var txClosed: bool
    var rxClosed: bool

    ghost function View(): Chan
      reads this
    {
      Chan(queue, txClosed, rxClosed)
    }

    constructor ()
      ensures View() == OPEN_CHAN
    {
      queue, txClosed, rxClosed := [], false, false;
    }

    /** `poll_ready`; `full` says whether the sender is held back by the bounded buffer. */
    method PollReady(full: bool) returns (r: Poll<Result<(), ()>>)
      ensures View().Disconnected() ==> r == Ready(Err(()))
      ensures !View().Disconnected() ==> r == if full then Pending else Ready(Ok(()))
    {
      if txClosed || rxClosed {
        return Ready(Err(()));
      }
      if full {
        return Pending;
      }
      return Ready(Ok(()));
    }

    method StartSend(f: Frame) returns (r: Result<(), ()>)
      modifies this
      ensures View() == if old(View()).Disconnected() then old(View()) else old(View()).Push(f)
      ensures r.Ok? <==> !old(View()).Disconnected()
    {
      if txClosed || rxClosed {
        return Err(());
      }
      queue := queue + [f];
      return Ok(());
    }

    /** The receiver's `poll_next`: buffered frames first, the end of the channel after them. */
    method PollNext() returns (r: Poll<Option<Frame>>)
      modifies this
      ensures if old(queue) != [] then
          r == Ready(Some(old(queue)[0])) && View() == old(View()).Pop()
        else
          r == (if txClosed then Ready(None) else Pending) && View() == old(View())
    {
      if queue != [] {
        r := Ready(Some(queue[0]));
        queue := queue[1..];
      } else if txClosed {
        r := Ready(None);
      } else {
        r := Pending;
      }
    }

    method CloseSender()
      modifies this
      ensures View() == old(View()).CloseSender()
    {
      txClosed := true;
    }

    method DropReceiver()
      modifies this
      ensures View() == old(View()).DropReceiver()
    {
      queue, rxClosed := [], true;
    }
  }

  // ----- Close codes -----

  /** `close_with`: only the first non-zero code is kept. */
  function CloseCode(code: U32, e: Error): (r: U32)
    ensures code != 0 ==> r == code
    ensures code == 0 && e != NoError ==> r != 0 && ErrorOf(r) == e
    ensures code == 0 && e == NoError ==> r == 0
  {
    ErrorCodeRoundTrip(e);
    if code == 0 then ErrorCode(e) else code
  }

  /** The sink of a stream is open exactly while its code is zero and its receiver is alive. */
  function SendError(code: U32, outbox: Chan): (r: Option<Error>)
    ensures r.None? <==> code == 0 && !outbox.Disconnected()
    ensures forall e :: code != 0 && code == ErrorCode(e) ==> r == Some(e)
    ensures code == 0 && outbox.Disconnected() ==> r == Some(SessionClosed)
  {
    assert forall e :: code == ErrorCode(e) ==> ErrorOf(code) == e by {
      forall e | code == ErrorCode(e) ensures ErrorOf(code) == e { ErrorCodeRoundTrip(e); }
    }
    if code != 0 then Some(ErrorOf(code))
    else if outbox.Disconnected() then Some(SessionClosed)
    else None
  }

  /** The close code after an attempt to send: a lost manager is recorded as SessionClosed. */
  function CodeAfterSend(code: U32, outbox: Chan): U32 {
    if outbox.Disconnected() then CloseCode(code, SessionClosed) else code
  }

  class SinkCloser {
    var code: U32

    constructor ()
      ensures code == 0
    {
      code := 0;
    }

    method CloseWith(e: Error)
      modifies this
      ensures code == CloseCode(old(code), e)
    {
      if code == 0 {
        code := ErrorCode(e);
      }
    }

    method CheckClosed() returns (r: Result<(), Error>)
      ensures r == if code != 0 then Err(ErrorOf(code)) else Ok(())
    {
      if code != 0 {
        return Err(ErrorOf(code));
      }
      return Ok(());
    }
  }

  class StreamSender {
    const sink: Channel
    const closer: SinkCloser

    constructor (sink: Channel)
      ensures this.sink == sink && fresh(closer) && closer.code == 0
    {
      this.sink := sink;
      this.closer := new SinkCloser();
    }

    method PollReady(full: bool) returns (r: Poll<Result<(), Error>>)
      modifies closer
      ensures closer.code == CodeAfterSend(old(closer.code), sink.View())
      ensures r == match SendError(old(closer.code), sink.View())
        case Some(e) => Ready(Err(e))
        case None => if full then Pending else Ready(Ok(()))
    {
      var check := closer.CheckClosed();
      if check.Err? {
        return Ready(Err(check.error));
      }
      var ready := sink.PollReady(full);
      match ready {
        case Pending => return Pending;
        case Ready(Ok(_)) => return Ready(Ok(()));
        case Ready(Err(_)) =>
          closer.CloseWith(SessionClosed);
          return Ready(Err(SessionClosed));
      }
    }

    method StartSend(f: Frame) returns (r: Result<(), Error>)
      modifies closer, sink
      ensures closer.code == CodeAfterSend(old(closer.code), old(sink.View()))
      ensures match SendError(old(closer.code), old(sink.View()))
        case Some(e) => r == Err(e) && sink.View() == old(sink.View())
        case None => r == Ok(()) && sink.View() == old(sink.View()).Push(f)
    {
      var check := closer.CheckClosed();
      if check.Err? {
        return Err(check.error);
      }
      var sent := sink.StartSend(f);
      if sent.Err? {
        closer.CloseWith(SessionClosed);
        return Err(SessionClosed);
      }
      return Ok(());
    }

    /** A vanished receiver counts as flushed; only the close code makes flushing fail. */
    method PollFlush(blocked: bool) returns (r: Poll<Result<(), Error>>)
      ensures r == if closer.code != 0 then Ready(Err(ErrorOf(closer.code)))
                   else if blocked && !sink.View().Disconnected() then Pending
                   else Ready(Ok(()))
    {
      var check := closer.CheckClosed();
      if check.Err? {
        return Ready(Err(check.error));
      }
      var ready := sink.PollReady(blocked);
      return if ready.Pending? then Pending else Ready(Ok(()));
    }
  }
}
