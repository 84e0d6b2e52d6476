/** The receive timeout of the client's ioLoop on a logical clock in milliseconds. */
module Timeout {
  import opened Bytes

  const HEARTBEAT_INTERVAL: int := 5000
  const RECV_TIMEOUT: int := 15000

  datatype State = State(now: int, lastRecv: int, nextTick: int, timedOut: bool)

  /** Pass is time going by, never past a tick that has not been handled; Message is any control or data message;
      Checked is a stdin chunk or a coalescer deadline, which test the timeout before writing. */
  datatype Event = Pass(ms: nat) | Tick | Message | Checked

  function Start(t: int): State { State(t, t, t + HEARTBEAT_INTERVAL, false) }

  predicate Overdue(s: State) { s.now - s.lastRecv > RECV_TIMEOUT }

  predicate Enabled(s: State, ev: Event) {
    && !s.timedOut
    && match ev
       case Pass(ms) => s.now + ms <= s.nextTick
       case Tick => s.now == s.nextTick
       case _ => true
  }

  function Next(s: State, ev: Event): State {
    match ev
    case Pass(ms) => s.(now := s.now + ms)
    case Tick => if Overdue(s) then s.(timedOut := true) else s.(nextTick := s.nextTick + HEARTBEAT_INTERVAL)
    case Message => s.(lastRecv := s.now)
    case Checked => if Overdue(s) then s.(timedOut := true) else s
  }

  function Exec(t: int, evs: seq<Event>): Option<State> {
    if evs == [] then Some(Start(t))
    else
      var before := Exec(t, evs[..|evs| - 1]);
      if before.Some? && Enabled(before.value, evs[|evs| - 1])
      then Some(Next(before.value, evs[|evs| - 1]))
      else None
  }

  /** Milliseconds since the last Message, or since the start if there was none, read off the events alone. */
  function Silence(evs: seq<Event>): nat {
    if evs == [] then 0
    else match evs[|evs| - 1]
      case Pass(ms) => Silence(evs[..|evs| - 1]) + ms
      case Message => 0
      case _ => Silence(evs[..|evs| - 1])
  }

  lemma {:induction false} ClockInvariant(t: int, evs: seq<Event>)
    requires Exec(t, evs).Some?
    ensures
      var s := Exec(t, evs).value;
      && s.now - s.lastRecv == Silence(evs)
      && s.now <= s.nextTick <= s.lastRecv + RECV_TIMEOUT + HEARTBEAT_INTERVAL
      && (s.timedOut ==> Silence(evs) > RECV_TIMEOUT)
  {
    if evs != [] {
      ClockInvariant(t, evs[..|evs| - 1]);
    }
  }

  /** Heartbeat ticks handled so far. */
  function Ticks(evs: seq<Event>): nat {
    if evs == [] then 0 else Ticks(evs[..|evs| - 1]) + (if evs[|evs| - 1].Tick? then 1 else 0)
  }

  /** The heartbeat is due every 5 s. */
  lemma {:induction false} TicksEveryFiveSeconds(t: int, evs: seq<Event>)
    requires Exec(t, evs).Some?
    ensures !Exec(t, evs).value.timedOut ==> Exec(t, evs).value.nextTick == t + 5000 * (1 + Ticks(evs))
  {
    if evs != [] {
      TicksEveryFiveSeconds(t, evs[..|evs| - 1]);
    }
  }

  /** The loop times out if and only if a heartbeat tick, a stdin chunk or a coalescer deadline finds more than 15 s of
      silence; messages, however late, never end it. */
  lemma {:induction false} TimesOutExactly(t: int, evs: seq<Event>)
    requires Exec(t, evs).Some?
    ensures Exec(t, evs).value.timedOut <==>
            evs != [] && (evs[|evs| - 1].Tick? || evs[|evs| - 1].Checked?) && Silence(evs) > 15000
  {
    if evs != [] {
      ClockInvariant(t, evs[..|evs| - 1]);
    }
  }

  /** A loop still running has heard something within the last 20 s; one that timed out had heard nothing for more
      than 15 s. */
  lemma {:induction false} TimeoutWindow(t: int, evs: seq<Event>)
    requires Exec(t, evs).Some?
    ensures Silence(evs) <= 20000
    ensures Exec(t, evs).value.timedOut ==> Silence(evs) > 15000
    ensures !Exec(t, evs).value.timedOut && Silence(evs) == 20000 ==> !Enabled(Exec(t, evs).value, Pass(1))
  {
    ClockInvariant(t, evs);
  }
}
