/** The write coalescer of internal/coalesce with its deadline timer on a logical clock (milliseconds). */
module Coalesce {
  import opened Bytes

  const DELAY: int := 2
  const THRESHOLD: nat := 32 * 1024

  /** A time.Timer: Fired means its channel holds a value that nobody has taken. */
  datatype Timer = Stopped | Running(deadline: int) | Fired(deadline: int)

  datatype State = State(buf: seq<byte>, armed: bool, timer: Timer)

  const INITIAL := State([], false, Stopped)

  function AfterAdd(s: State, data: seq<byte>, now: int): State {
    if data == [] then s
    else if s.buf == [] && !s.armed then State(s.buf + data, true, Running(now + DELAY))
    else s.(buf := s.buf + data)
  }

  function AfterFlush(s: State): State {
    if s.buf == [] then s else State([], false, if s.armed then Stopped else s.timer)
  }

  class Coalescer {
    var buf: seq<byte>
    var armed: bool
    var timer: Timer

    function Abs(): State
      reads this
    {
      State(buf, armed, timer)
    }

    /** Bytes are pending exactly when a deadline is set and its wakeup is still to come or to be taken. */
    predicate OnTime()
      reads this
    {
      (armed <==> buf != []) && (armed <==> !timer.Stopped?)
    }

    /** A timer of zero length is made, stopped and, in case it has fired already, drained. */
    constructor ()
      ensures Abs() == INITIAL && OnTime()
    {
      buf, armed, timer := [], false, Running(0);
      new;
      if * {
        timer := Fired(0);
      }
      var wasRunning := StopTimer();
      if !wasRunning {
        timer := Stopped;
      }
    }

    /** time.Timer.Stop: reports whether the timer was still running. */
    method StopTimer() returns (wasRunning: bool)
      modifies this`timer
      ensures wasRunning == old(timer).Running?
      ensures timer == if wasRunning then Stopped else old(timer)
    {
      wasRunning := timer.Running?;
      if wasRunning {
        timer := Stopped;
      }
    }

    method Add(data: seq<byte>, now: int) returns (full: bool)
      modifies this
      ensures Abs() == AfterAdd(old(Abs()), data, now)
      ensures old(OnTime()) ==> OnTime()
      ensures full == (data != [] && |buf| >= 32768)
    {
      if |data| == 0 {
        return false;
      }
      if |buf| == 0 && !armed {
        timer := Running(now + DELAY);
        armed := true;
      }
      buf := buf + data;
      full := |buf| >= THRESHOLD;
    }

    method Flush() returns (out: seq<byte>)
      modifies this
      ensures out == old(buf)
      ensures Abs() == AfterFlush(old(Abs()))
      ensures old(OnTime()) ==> OnTime() && timer.Stopped?
    {
      if |buf| == 0 {
        return [];
      }
      if armed {
        var wasRunning := StopTimer();
        if !wasRunning && timer.Fired? {
          timer := Stopped; // drain the channel
        }
        armed := false;
      }
      out := buf;
      buf := [];
    }

    /** The channel to select on: one that will wake the loop exactly while bytes are pending. */
    method TimerChannel() returns (t: Option<Timer>)
      ensures (t.Some? <==> armed) && (t.Some? ==> t.value == timer)
      ensures OnTime() ==> (t.Some? <==> buf != []) && (t.Some? ==> !t.value.Stopped?)
    {
      t := if armed then Some(timer) else None;
    }

    /** Keeps the bytes, and no wakeup ever comes: neither the clock nor the select loop can act on the timer. */
    method Stop()
      modifies this
      ensures Abs() == State(old(buf), false, if old(timer).Running? then Stopped else old(timer))
      ensures !Enabled(Abs(), Wake) && forall now :: !Enabled(Abs(), Fire(now))
    {
      var _ := StopTimer();
      armed := false;
    }
  }

  // ---- Every run of the select loop --------------------------------------------------------

  /** Add and Flush are calls; Fire is the clock passing the deadline; Wake is the select case that takes
      the timer's value and then flushes. */
  datatype Event = Add(data: seq<byte>, now: int) | Fire(now: int) | Wake | Flush

  predicate Enabled(s: State, ev: Event) {
    match ev
    case Fire(now) => s.timer.Running? && now >= s.timer.deadline
    case Wake => s.armed && s.timer.Fired?
    case _ => true
  }

  function Next(s: State, ev: Event): State {
    match ev
    case Add(data, now) => AfterAdd(s, data, now)
    case Fire(_) => if s.timer.Running? then s.(timer := Fired(s.timer.deadline)) else s
    case Wake => AfterFlush(s.(timer := Stopped))
    case Flush => AfterFlush(s)
  }

  function Exec(evs: seq<Event>): Option<State> {
    if evs == [] then Some(INITIAL)
    else
      var before := Exec(evs[..|evs| - 1]);
      if before.Some? && Enabled(before.value, evs[|evs| - 1])
      then Some(Next(before.value, evs[|evs| - 1]))
      else None
  }

  /** The non-empty adds since the last flush, read off the event list alone. */
  function Batch(evs: seq<Event>): seq<Event> {
    if evs == [] then []
    else
      var ev, before := evs[|evs| - 1], Batch(evs[..|evs| - 1]);
      match ev
      case Add(data, _) => if data == [] then before else before + [ev]
      case Fire(_) => before
      case Wake => []
      case Flush => []
  }

  function BytesOf(adds: seq<Event>): seq<byte> {
    if adds == [] then []
    else BytesOf(adds[..|adds| - 1]) + (if adds[|adds| - 1].Add? then adds[|adds| - 1].data else [])
  }

  /** In every reachable state the pending bytes are exactly the current batch, the timer is armed exactly
      when there are any, and its deadline is the first add of the batch plus 2 ms, whatever was added
      later: no reachable state has pending bytes and no wakeup on the way. */
  lemma {:induction false} DeadlineInvariant(evs: seq<Event>)
    requires Exec(evs).Some?
    ensures
      var s, batch := Exec(evs).value, Batch(evs);
      && s.buf == BytesOf(batch)
      && (s.armed <==> s.buf != [])
      && (s.armed <==> batch != [])
      && (batch != [] ==> batch[0].Add?)
      && (s.armed ==> !s.timer.Stopped? && s.timer.deadline == batch[0].now + 2)
      && (!s.armed ==> s.timer == Stopped)
  {
    if evs != [] {
      var older, ev := evs[..|evs| - 1], evs[|evs| - 1];
      DeadlineInvariant(older);
      var before := Batch(older);
      if ev.Add? && ev.data != [] {
        assert (before + [ev])[..|before|] == before;
      }
    }
  }
}
