/**
 * One delivery over any number of polls (`send_to_stream`, muxado/src/stream_manager.rs). Between
 * two polls the lock is free: the same handle may be credited, closed for writing or reset, and
 * the channel to the stream may be drained or closed.
 */
module Deliveries {
  import opened Wrappers
  import opened Frames
  import opened StreamOutput
  import opened Managers

  datatype Turn =
    | PollOnce(full: bool)
    | Meanwhile(credit: nat, writeClosed: bool, reset: bool, code: U32, inbox: Chan)

  /** A delivery in progress; `pushed` and `credited` count what happened to channel and window. */
  datatype Course = Course(
    poll: Poll<Result<(), Error>>,
    parcel: Parcel,
    entry: Entry,
    code: U32,
    inbox: Chan,
    pushed: nat,
    credited: nat)

  function Start(f: Frame, entry: Entry, code: U32, inbox: Chan): Course {
    Course(Pending, NewParcel(f), entry, code, inbox, 0, 0)
  }

  function Take(c: Course, turn: Turn): Course {
    match turn
    case PollOnce(full) =>
      var d := Deliver(c.parcel, Some(c.entry), c.code, c.inbox, full);
      c.(poll := d.poll, parcel := d.parcel, entry := d.entry.value, code := d.code, inbox := d.inbox,
         pushed := c.pushed + if d.inbox == c.inbox then 0 else 1)
    case Meanwhile(credit, writeClosed, reset, code, inbox) =>
      var e := c.entry.(window := c.entry.window + credit, dataWriteClosed := c.entry.dataWriteClosed || writeClosed);
      c.(entry := if reset then e.Reset() else e, code := code, inbox := inbox, credited := c.credited + credit)
  }

  /** The delivery is polled until it is finished. */
  function Proceed(c: Course, turns: seq<Turn>): Course
    decreases |turns|
  {
    if turns == [] || c.poll.Ready? then c else Proceed(Take(c, turns[0]), turns[1..])
  }

  /** What has been taken off the window, against the window `size` before the delivery. */
  predicate Accounted(c: Course, size: nat) {
    var n := |c.parcel.frame.Payload()|;
    && (c.parcel.shrink == 0 || c.parcel.shrink == n)
    && c.entry.window + (n - c.parcel.shrink) == size + c.credited
    && c.pushed <= 1
    && (c.pushed == 1 ==> c.poll == Ready(Ok(())) && c.parcel.shrink == 0)
    && (c.poll.Ready? && c.poll.value.Ok? && c.parcel.frame.body.Data? && !c.parcel.frame.IsEmptyFin() ==>
      c.pushed == 1)
  }

  lemma TakeAccounts(c: Course, size: nat, turn: Turn)
    requires Accounted(c, size) && c.poll.Pending? && Typed(c.parcel.frame)
    ensures Accounted(Take(c, turn), size) && Take(c, turn).parcel.frame == c.parcel.frame
  {
    if turn.PollOnce? {
      var q := c.inbox.queue;
      assert |c.inbox.Push(c.parcel.frame).queue| == |q| + 1;
    }
  }

  lemma {:induction false} ProceedAccounts(c: Course, size: nat, turns: seq<Turn>)
    requires Accounted(c, size) && Typed(c.parcel.frame)
    ensures Accounted(Proceed(c, turns), size) && Proceed(c, turns).parcel.frame == c.parcel.frame
    decreases |turns|
  {
    if turns != [] && c.poll.Pending? {
      TakeAccounts(c, size, turns[0]);
      ProceedAccounts(Take(c, turns[0]), size, turns[1..]);
    }
  }

  /**
   * However often a delivery is polled and whatever happens in between: accepted data is taken off
   * the window once and put into the channel once; a refused frame is never put into the channel;
   * an unfinished delivery has put in nothing.
   */
  lemma DeliveredExactlyOnce(f: Frame, entry: Entry, code: U32, inbox: Chan, turns: seq<Turn>)
    requires Typed(f)
    ensures var c := Proceed(Start(f, entry, code, inbox), turns);
      && (f.body.Data? && !f.IsEmptyFin() && c.poll == Ready(Ok(())) ==>
            c.pushed == 1 && c.entry.window + |f.Payload()| == entry.window + c.credited)
      && (c.poll.Pending? || c.poll.value.Err? ==> c.pushed == 0)
      && c.pushed <= 1
      && entry.window + c.credited - |f.Payload()| <= c.entry.window <= entry.window + c.credited
  {
    ProceedAccounts(Start(f, entry, code, inbox), entry.window, turns);
  }
}
