/**
 * The driving-time sweep shared by calibrations/LCH_qubit_parametric_drive_freq_time.py
 * and calibrations/LCH_qubit_parametric_drive_freq_time_tomo.py:
 * `np.arange(min // 4, max // 4, step // 4)` in 4 ns clock ticks, and
 * `time_ns = time_tick * 4`. All three parameters are integers in
 * nanoseconds; Python's `//` floors, which for the divisor 4 is Dafny's `/`.
 */
module ParametricDriveTime {
  import opened Wrappers
  import opened NumpyArrays

  /** `time_tick`; a step below 4 ns floors to a zero tick step and np.arange raises. */
  function TimeTicks(minNs: int, maxNs: int, stepNs: int): (r: Result<seq<int>, ArrayError>)
    ensures r.Failure? <==> 0 <= stepNs < 4
    ensures r.Success? ==> |r.value| == ArangeLength(minNs / 4, maxNs / 4, stepNs / 4)
    ensures r.Success? ==> forall k :: 0 <= k < |r.value| ==> r.value[k] == minNs / 4 + k * (stepNs / 4)
  {
    Arange(minNs / 4, maxNs / 4, stepNs / 4)
  }

  /** `time_ns`: the played driving times, each a multiple of 4. */
  function TimesNs(minNs: int, maxNs: int, stepNs: int): (r: Result<seq<int>, ArrayError>)
    ensures r.Failure? <==> 0 <= stepNs < 4
    ensures r.Success? ==> |r.value| == |TimeTicks(minNs, maxNs, stepNs).value|
    ensures r.Success? ==> forall k :: 0 <= k < |r.value| ==>
      r.value[k] % 4 == 0 && r.value[k] == 4 * TimeTicks(minNs, maxNs, stepNs).value[k]
  {
    var ticks := TimeTicks(minNs, maxNs, stepNs);
    if ticks.Failure? then Failure(ticks.error)
    else Success(seq(|ticks.value|, k requires 0 <= k < |ticks.value| => ticks.value[k] * 4))
  }

  /**
   * With a step of at least one tick: the first time is min rounded down to a
   * tick, every time is below max rounded down to a tick (so below max), the
   * times strictly increase, and there are ceil((max//4 - min//4) / (step//4))
   * of them.
   */
  lemma {:induction false} TimesWithinRange(minNs: int, maxNs: int, stepNs: int)
    requires stepNs >= 4
    ensures var t := TimesNs(minNs, maxNs, stepNs).value;
      && (|t| > 0 ==> t[0] <= minNs && minNs - 4 < t[0])
      && (forall k :: 0 <= k < |t| ==> t[k] < 4 * (maxNs / 4) <= maxNs)
      && (forall k :: 0 <= k < |t| - 1 ==> t[k] < t[k + 1])
      && |t| == if maxNs / 4 > minNs / 4 then (maxNs / 4 - minNs / 4 + stepNs / 4 - 1) / (stepNs / 4) else 0
  {
    var t := TimesNs(minNs, maxNs, stepNs).value;
    ArangeWithin(minNs / 4, maxNs / 4, stepNs / 4);
    forall k | 0 <= k < |t| ensures t[k] < 4 * (maxNs / 4) {
      assert TimeTicks(minNs, maxNs, stepNs).value[k] < maxNs / 4;
    }
    forall k | 0 <= k < |t| - 1 ensures t[k] < t[k + 1] {
      assert (k + 1) * (stepNs / 4) == k * (stepNs / 4) + stepNs / 4;
    }
  }
}
