/** A push button on a digital input, with button-up edge detection that
    ignores further edges for a minimum delay after each one it reports. */
module ButtonDriver {
  import opened Gpio
  import opened Clock

  const DefaultUpDelayMs: int := 100

  /** The debounce stopwatch. It is only ever started from zero and reset,
      so a stopped watch always reads 0 ms. */
  datatype Stopwatch = Stopped | Running(since: int)

  function ElapsedMilliseconds(w: Stopwatch, now: int): int
  {
    match w
    case Stopped => 0
    case Running(since) => now - since
  }

  /** What GetButtonUp remembers between calls. */
  datatype ButtonState = ButtonState(previousState: bool, watch: Stopwatch, upDelay: int)

  const InitialState := ButtonState(false, Stopped, DefaultUpDelayMs)

  /** "Released" exactly when the pin reads High. */
  function StateText(level: PinValue): (s: string)
    ensures s == "Released" <==> level == High
    ensures s == "Pressed" <==> level == Low
  {
    match level
    case High => "Released"
    case Low => "Pressed"
  }

  /** One GetButtonUp at `now`, the pin reading `level`: the new state and
      whether a button-up is reported. */
  function UpStep(st: ButtonState, level: PinValue, now: int): (r: (ButtonState, bool))
    ensures r.1 <==> st.previousState && level == High && st.watch == Stopped
    ensures r.0.previousState == (level == Low) && r.0.upDelay == st.upDelay
    ensures r.1 ==> r.0.watch == Running(now)
    ensures !r.1 && ElapsedMilliseconds(st.watch, now) > st.upDelay ==> r.0.watch == Stopped
    ensures !r.1 && ElapsedMilliseconds(st.watch, now) <= st.upDelay ==> r.0.watch == st.watch
  {
    var current := level == Low;
    if !current && st.previousState && st.watch == Stopped then
      (ButtonState(current, Running(now), st.upDelay), true)
    else if ElapsedMilliseconds(st.watch, now) > st.upDelay then
      (ButtonState(current, Stopped, st.upDelay), false)
    else
      (ButtonState(current, st.watch, st.upDelay), false)
  }

  /** The first call never reports a button-up. */
  lemma FirstCallQuiet(level: PinValue, now: int)
    ensures !UpStep(InitialState, level, now).1
  {
  }

  /** GetButtonUp called at each (instant, level) in turn: every result. */
  function UpRun(st: ButtonState, calls: seq<(int, PinValue)>): (ups: seq<bool>)
    ensures |ups| == |calls|
    decreases |calls|
  {
    if calls == [] then []
    else
      var s := UpStep(st, calls[0].1, calls[0].0);
      [s.1] + UpRun(s.0, calls[1..])
  }

  /** While the watch started at `t0` runs, nothing is reported; a report
      can only come after the call that found it past the delay. */
  lemma {:induction false} UpAfter(st: ButtonState, calls: seq<(int, PinValue)>, t0: int, j: nat)
    requires st.watch == Running(t0) && NonDecreasing(Instants(calls))
    requires j < |calls| && UpRun(st, calls)[j]
    ensures calls[j].0 - t0 > st.upDelay
    decreases j
  {
    var s := UpStep(st, calls[0].1, calls[0].0);
    assert UpRun(st, calls)[j] == ([s.1] + UpRun(s.0, calls[1..]))[j];
    assert j > 0;
    assert UpRun(st, calls)[j] == UpRun(s.0, calls[1..])[j - 1];
    assert Instants(calls)[1..] == Instants(calls[1..]);
    if s.0.watch == Stopped {
      assert Instants(calls)[0] <= Instants(calls)[j];
    } else {
      UpAfter(s.0, calls[1..], t0, j - 1);
    }
  }

  /** On a clock that does not run backwards, two reported button-ups are
      more than the minimum delay apart. */
  lemma {:induction false} UpsSpaced(st: ButtonState, calls: seq<(int, PinValue)>, i: nat, j: nat)
    requires NonDecreasing(Instants(calls)) && i < j < |calls|
    requires UpRun(st, calls)[i] && UpRun(st, calls)[j]
    ensures calls[j].0 - calls[i].0 > st.upDelay
    decreases i
  {
    var s := UpStep(st, calls[0].1, calls[0].0);
    var rest := calls[1..];
    assert Instants(calls)[1..] == Instants(rest);
    assert UpRun(st, calls)[j] == UpRun(s.0, rest)[j - 1];
    if i == 0 {
      UpAfter(s.0, rest, calls[0].0, j - 1);
    } else {
      assert UpRun(st, calls)[i] == UpRun(s.0, rest)[i - 1];
      UpsSpaced(s.0, rest, i - 1, j - 1);
    }
  }

  class Button {
    const board: Board
    const pin: int
    const defHigh: bool
    var previousState: bool
    var watch: Stopwatch
    var upDelay: int

    function State(): ButtonState
      reads this
    {
      ButtonState(previousState, watch, upDelay)
    }

    constructor (board: Board, pin: int, defHigh: bool := false)
      modifies board
      ensures this.board == board && this.pin == pin && this.defHigh == defHigh
      ensures State() == InitialState
      ensures board.log == old(board.log) + [SetMode(pin, Input)]
    {
      this.board := board;
      this.pin := pin;
      this.defHigh := defHigh;
      previousState := false;
      watch := Stopped;
      upDelay := DefaultUpDelayMs;
      new;
      board.SetDigitalPinMode(pin, Input);
    }

    method GetState() returns (s: string)
      modifies board
      ensures var level := board.level(old(board.log), pin);
        s == StateText(level) && board.log == old(board.log) + [ReadPin(pin, level)]
    {
      var level := board.ReadDigitalPin(pin);
      s := StateText(level);
    }

    /** True exactly when the pin reads Low. */
    method GetStateBool() returns (b: bool)
      modifies board
      ensures var level := board.level(old(board.log), pin);
        (b <==> level == Low) && board.log == old(board.log) + [ReadPin(pin, level)]
    {
      var level := board.ReadDigitalPin(pin);
      b := level == Low;
    }

    method GetButtonUp(now: int) returns (retVal: bool)
      modifies this, board
      ensures var level := board.level(old(board.log), pin);
        (State(), retVal) == UpStep(old(State()), level, now) &&
        board.log == old(board.log) + [ReadPin(pin, level)]
    {
      var current := GetStateBool();
      retVal := false;
      if !current && previousState && watch == Stopped {
        retVal := true;
        watch := Running(now);
      } else if ElapsedMilliseconds(watch, now) > upDelay {
        watch := Stopped;
      }
      previousState := current;
    }

    method SetMinDelay(delay: int)
      modifies this
      ensures State() == old(State()).(upDelay := delay)
    {
      upDelay := delay;
    }
  }
}
