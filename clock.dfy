/** Time as the clock-gated drivers see it: instants are whole milliseconds
    since DateTime's zero (0001-01-01), passed in by the caller, and a gate
    fires when strictly more than its period has passed since it last fired. */
module Clock {

  /** `DateTime.Now - last > TimeSpan.FromMilliseconds(period)`. */
  predicate PeriodPassed(last: int, period: int, now: int)
  {
    now - last > period
  }

  /** One check of a gate that last fired at `last`: whether it fires at
      `now`, and the instant it then remembers. */
  function GateStep(last: int, period: int, now: int): (r: (int, bool))
    ensures r.1 <==> PeriodPassed(last, period, now)
    ensures r.0 == if r.1 then now else last
  {
    if PeriodPassed(last, period, now) then (now, true) else (last, false)
  }

  /** Which of the checks at `times`, made one after the other, fire. */
  function GateRun(last: int, period: int, times: seq<int>): (fired: seq<bool>)
    ensures |fired| == |times|
    decreases |times|
  {
    if times == [] then []
    else
      var s := GateStep(last, period, times[0]);
      [s.1] + GateRun(s.0, period, times[1..])
  }

  /** The instants of a sequence of calls, each made at its first component. */
  function Instants<T>(calls: seq<(int, T)>): (ts: seq<int>)
    ensures |ts| == |calls|
  {
    seq(|calls|, k requires 0 <= k < |calls| => calls[k].0)
  }

  predicate NonDecreasing(times: seq<int>)
  {
    forall i, j :: 0 <= i <= j < |times| ==> times[i] <= times[j]
  }

  /** A gate checked at the same instant it fired does not fire again,
      unless its period is negative. */
  lemma SameInstant(last: int, period: int, now: int)
    requires period >= 0 && GateStep(last, period, now).1
    ensures !GateStep(GateStep(last, period, now).0, period, now).1
  {
  }

  /** Checked no earlier than `last`, the gate fires only more than a period
      after `last`. */
  lemma {:induction false} FiresAfter(last: int, period: int, times: seq<int>, j: nat)
    requires NonDecreasing(times) && forall k :: 0 <= k < |times| ==> last <= times[k]
    requires j < |times| && GateRun(last, period, times)[j]
    ensures times[j] - last > period
    decreases j
  {
    var s := GateStep(last, period, times[0]);
    if j > 0 {
      assert GateRun(last, period, times)[j] == GateRun(s.0, period, times[1..])[j - 1];
      FiresAfter(s.0, period, times[1..], j - 1);
    }
  }

  /** On a clock that does not run backwards, any two firings of a gate are
      more than one period apart. */
  lemma {:induction false} FiringsSpaced(last: int, period: int, times: seq<int>, i: nat, j: nat)
    requires NonDecreasing(times) && i < j < |times|
    requires GateRun(last, period, times)[i] && GateRun(last, period, times)[j]
    ensures times[j] - times[i] > period
    decreases i
  {
    var s := GateStep(last, period, times[0]);
    var rest := times[1..];
    assert GateRun(last, period, times)[j] == GateRun(s.0, period, rest)[j - 1];
    if i == 0 {
      FiresAfter(times[0], period, rest, j - 1);
    } else {
      assert GateRun(last, period, times)[i] == GateRun(s.0, period, rest)[i - 1];
      FiringsSpaced(s.0, period, rest, i - 1, j - 1);
    }
  }
}
