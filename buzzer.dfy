/** A buzzer that beeps in rhythm: each call that comes more than the
    interval after the last toggle writes the pin and then flips the level
    for next time. */
module BuzzerDriver {
  import opened Gpio
  import opened Clock

  /** The next level to write and when the pin was last written. */
  datatype BuzzerState = BuzzerState(syncTime: int, state: PinValue)

  /** A new buzzer: the zero DateTime, and PinValue's default level, Low. */
  const InitialState := BuzzerState(0, Low)

  /** One Beep at `now`: the level written, if any, and the new state. */
  function BeepStep(st: BuzzerState, interval: int, now: int): (r: (BuzzerState, seq<PinValue>))
    ensures !PeriodPassed(st.syncTime, interval, now) ==> r == (st, [])
    ensures PeriodPassed(st.syncTime, interval, now) ==>
      r.1 == [st.state] && r.0.syncTime == now && r.0.state != st.state
  {
    if now - st.syncTime > interval then (BuzzerState(now, st.state.Not()), [st.state])
    else (st, [])
  }

  /** Beep called at each of `times` in turn: the final state and every
      level written, in order. */
  function BeepRun(st: BuzzerState, interval: int, times: seq<int>): (BuzzerState, seq<PinValue>)
    decreases |times|
  {
    if times == [] then (st, [])
    else
      var s := BeepStep(st, interval, times[0]);
      var rest := BeepRun(s.0, interval, times[1..]);
      (rest.0, s.1 + rest.1)
  }

  /** The number of firings in a gate's run. */
  function Count(fired: seq<bool>): (n: nat)
    ensures n <= |fired|
  {
    if fired == [] then 0 else (if fired[0] then 1 else 0) + Count(fired[1..])
  }

  /** `n` writes that alternate, starting with `first`. */
  function Alternating(first: PinValue, n: nat): (ws: seq<PinValue>)
    ensures |ws| == n
  {
    seq(n, k requires 0 <= k < n => if k % 2 == 0 then first else first.Not())
  }

  lemma AlternatingCons(first: PinValue, n: nat)
    ensures Alternating(first, n + 1) == [first] + Alternating(first.Not(), n)
  {
    var a := Alternating(first, n + 1);
    var b := [first] + Alternating(first.Not(), n);
    forall k | 0 <= k < n + 1 ensures a[k] == b[k] {
      if k > 0 {
        assert b[k] == Alternating(first.Not(), n)[k - 1];
      }
    }
  }

  /** The buzzer writes exactly when its gate fires, and the levels written
      alternate, starting with the stored one. */
  lemma {:induction false} BeepsAlternate(st: BuzzerState, interval: int, times: seq<int>)
    ensures BeepRun(st, interval, times).1 == Alternating(st.state, Count(GateRun(st.syncTime, interval, times)))
    decreases |times|
  {
    if times != [] {
      var s := BeepStep(st, interval, times[0]);
      BeepsAlternate(s.0, interval, times[1..]);
      var g := GateStep(st.syncTime, interval, times[0]);
      assert GateRun(st.syncTime, interval, times) == [g.1] + GateRun(g.0, interval, times[1..]);
      assert ([g.1] + GateRun(g.0, interval, times[1..]))[1..] == GateRun(g.0, interval, times[1..]);
      if g.1 {
        AlternatingCons(st.state, Count(GateRun(g.0, interval, times[1..])));
      }
    }
  }

  /** From a new buzzer: Low, High, Low, and so on. */
  lemma FromSilence(interval: int, times: seq<int>, k: nat)
    requires k < |BeepRun(InitialState, interval, times).1|
    ensures BeepRun(InitialState, interval, times).1[k] == if k % 2 == 0 then Low else High
  {
    BeepsAlternate(InitialState, interval, times);
  }

  /** The first Beep writes whenever the clock is past the interval after
      DateTime's zero, as any present-day clock is. */
  lemma FirstBeepWrites(interval: int, now: int)
    requires now > interval
    ensures BeepStep(InitialState, interval, now).1 == [Low]
  {
  }

  class Buzzer {
    const board: Board
    const pin: int
    const intervalms: int
    var syncTime: int
    var state: PinValue

    function State(): BuzzerState
      reads this
    {
      BuzzerState(syncTime, state)
    }

    constructor (board: Board, pin: int, intervalms: int)
      modifies board
      ensures this.board == board && this.pin == pin && this.intervalms == intervalms
      ensures State() == InitialState
      ensures board.log == old(board.log) + [SetMode(pin, Output)]
    {
      this.board := board;
      this.pin := pin;
      this.intervalms := intervalms;
      syncTime := 0;
      state := Low;
      new;
      board.SetDigitalPinMode(pin, Output);
    }

    method Update(now: int)
      modifies this, board
      ensures var s := BeepStep(old(State()), intervalms, now);
        State() == s.0 && board.log == old(board.log) + WritesOf(pin, s.1)
    {
      if now - syncTime > intervalms {
        board.WriteDigitalPin(pin, state);
        syncTime := now;
        state := state.Not();
      }
    }

    method Beep(now: int)
      modifies this, board
      ensures var s := BeepStep(old(State()), intervalms, now);
        State() == s.0 && board.log == old(board.log) + WritesOf(pin, s.1)
    {
      Update(now);
    }
  }
}
