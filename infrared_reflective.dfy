/** The infrared reflection sensor: a digital input sampled at most once per
    50 ms; a call in between reports -1. */
module InfraredReflectiveDriver {
  import opened Gpio
  import opened Clock

  const SamplePeriodMs: int := 50

  /** The last level sampled and when. */
  datatype SamplerState = SamplerState(syncTime: int, state: PinValue)

  /** A new sensor: the zero DateTime, and PinValue's default level, Low. */
  const InitialState := SamplerState(0, Low)

  /** One Watch at `now`, where `level` is what the pin would read: the
      result and the new state. */
  function WatchStep(st: SamplerState, now: int, level: PinValue): (r: (SamplerState, int))
    ensures r.1 == -1 <==> !PeriodPassed(st.syncTime, SamplePeriodMs, now)
    ensures r.1 == -1 ==> r.0 == st
    ensures r.1 != -1 ==> r.0 == SamplerState(now, level) && (r.1 == 1 <==> level == High) && 0 <= r.1 <= 1
  {
    if now - st.syncTime > SamplePeriodMs then (SamplerState(now, level), level.ToInt())
    else (st, -1)
  }

  /** Watch called at each (instant, level) in turn: every result, in order. */
  function WatchRun(st: SamplerState, calls: seq<(int, PinValue)>): (rs: seq<int>)
    ensures |rs| == |calls|
    decreases |calls|
  {
    if calls == [] then []
    else
      var s := WatchStep(st, calls[0].0, calls[0].1);
      [s.1] + WatchRun(s.0, calls[1..])
  }

  /** A run samples exactly when the 50 ms gate fires. */
  lemma {:induction false} SamplesWhenGateFires(st: SamplerState, calls: seq<(int, PinValue)>, k: nat)
    requires k < |calls|
    ensures WatchRun(st, calls)[k] != -1 <==> GateRun(st.syncTime, SamplePeriodMs, Instants(calls))[k]
    decreases k
  {
    var s := WatchStep(st, calls[0].0, calls[0].1);
    var g := GateStep(st.syncTime, SamplePeriodMs, calls[0].0);
    assert Instants(calls)[1..] == Instants(calls[1..]);
    assert GateRun(st.syncTime, SamplePeriodMs, Instants(calls))
           == [g.1] + GateRun(g.0, SamplePeriodMs, Instants(calls[1..]));
    if k > 0 {
      SamplesWhenGateFires(s.0, calls[1..], k - 1);
    }
  }

  /** On a clock that does not run backwards, two samples are more than
      50 ms apart. */
  lemma SamplesSpaced(st: SamplerState, calls: seq<(int, PinValue)>, i: nat, j: nat)
    requires NonDecreasing(Instants(calls)) && i < j < |calls|
    requires WatchRun(st, calls)[i] != -1 && WatchRun(st, calls)[j] != -1
    ensures calls[j].0 - calls[i].0 > SamplePeriodMs
  {
    SamplesWhenGateFires(st, calls, i);
    SamplesWhenGateFires(st, calls, j);
    FiringsSpaced(st.syncTime, SamplePeriodMs, Instants(calls), i, j);
  }

  /** The first call samples whenever the clock is past 50 ms after
      DateTime's zero, as any present-day clock is. */
  lemma FirstWatchSamples(now: int, level: PinValue)
    requires now > SamplePeriodMs
    ensures WatchStep(InitialState, now, level).1 == level.ToInt()
  {
  }

  class InfraredReflective {
    const board: Board
    const pin: int
    var syncTime: int
    var state: PinValue

    function State(): SamplerState
      reads this
    {
      SamplerState(syncTime, state)
    }

    constructor (board: Board, pin: int)
      modifies board
      ensures this.board == board && this.pin == pin && State() == InitialState
      ensures board.log == old(board.log) + [SetMode(pin, Input)]
    {
      this.board := board;
      this.pin := pin;
      syncTime := 0;
      state := Low;
      new;
      board.SetDigitalPinMode(pin, Input);
    }

    /** The pin is read only by a call that samples. */
    method Update(now: int) returns (r: int)
      modifies this, board
      ensures var level := board.level(old(board.log), pin);
        (State(), r) == WatchStep(old(State()), now, level) &&
        board.log == old(board.log) + if r == -1 then [] else [ReadPin(pin, level)]
    {
      if now - syncTime > SamplePeriodMs {
        state := board.ReadDigitalPin(pin);
        syncTime := now;
        return state.ToInt();
      }
      return -1;
    }

    method Watch(now: int) returns (r: int)
      modifies this, board
      ensures var level := board.level(old(board.log), pin);
        (State(), r) == WatchStep(old(State()), now, level) &&
        board.log == old(board.log) + if r == -1 then [] else [ReadPin(pin, level)]
    {
      r := Update(now);
    }
  }
}
