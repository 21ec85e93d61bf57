/**
 * The delay sweep of calibrations/LCH_time_dep_rr_photon.py: requested delays
 * 0, res, 2·res, … up to xy_max_delay_in_ns inclusive, each floored to whole
 * 4 ns clock ticks (`np.arange(0, max + 1, res) // 4`), and the delays actually
 * played, `tick * 4`. Both parameters are integers in nanoseconds.
 */
module TimeDepRrPhoton {
  import opened Wrappers
  import opened NumpyArrays

  /** `delay_tick_array`: entry k is floor(k·res / 4); a zero resolution makes np.arange raise. */
  function DelayTicks(maxDelayNs: int, resolutionNs: int): (r: Result<seq<int>, ArrayError>)
    ensures r.Failure? <==> resolutionNs == 0
    ensures r.Success? ==> |r.value| == ArangeLength(0, maxDelayNs + 1, resolutionNs)
    ensures r.Success? ==> forall k :: 0 <= k < |r.value| ==>
      4 * r.value[k] <= k * resolutionNs < 4 * r.value[k] + 4
  {
    var requested := Arange(0, maxDelayNs + 1, resolutionNs);
    if requested.Failure? then Failure(requested.error)
    else Success(seq(|requested.value|, k requires 0 <= k < |requested.value| => requested.value[k] / 4))
  }

  /** `delay_time_array`: the played delays in ns. */
  function DelayTimes(maxDelayNs: int, resolutionNs: int): (r: Result<seq<int>, ArrayError>)
    ensures r.Failure? <==> resolutionNs == 0
    ensures r.Success? ==> |r.value| == |DelayTicks(maxDelayNs, resolutionNs).value|
    ensures r.Success? ==> forall k :: 0 <= k < |r.value| ==>
      r.value[k] % 4 == 0 && r.value[k] == 4 * DelayTicks(maxDelayNs, resolutionNs).value[k]
  {
    var ticks := DelayTicks(maxDelayNs, resolutionNs);
    if ticks.Failure? then Failure(ticks.error)
    else Success(seq(|ticks.value|, k requires 0 <= k < |ticks.value| => ticks.value[k] * 4))
  }

  /**
   * For a positive resolution every played delay is at most its requested
   * k·res, less than 4 ns below it, and never beyond the maximum; the first is 0.
   */
  lemma {:induction false} DelaysWithinRequest(maxDelayNs: int, resolutionNs: int)
    requires resolutionNs > 0
    ensures var d := DelayTimes(maxDelayNs, resolutionNs).value;
      && (forall k :: 0 <= k < |d| ==> d[k] <= k * resolutionNs < d[k] + 4 && d[k] <= maxDelayNs)
      && (maxDelayNs >= 0 ==> |d| > 0 && d[0] == 0)
  {
    var d := DelayTimes(maxDelayNs, resolutionNs).value;
    ArangeWithin(0, maxDelayNs + 1, resolutionNs);
    forall k | 0 <= k < |d| ensures d[k] <= maxDelayNs {
      assert Arange(0, maxDelayNs + 1, resolutionNs).value[k] == k * resolutionNs;
    }
    if maxDelayNs >= 0 {
      ArangeLengthStep(0, maxDelayNs + 1, resolutionNs);
    }
  }

  /** A resolution of at least one tick gives strictly increasing delays. */
  lemma {:induction false} DelaysIncreasing(maxDelayNs: int, resolutionNs: int)
    requires resolutionNs >= 4
    ensures var d := DelayTimes(maxDelayNs, resolutionNs).value;
      forall k :: 0 <= k < |d| - 1 ==> d[k] < d[k + 1]
  {
    var d := DelayTimes(maxDelayNs, resolutionNs).value;
    forall k | 0 <= k < |d| - 1 ensures d[k] < d[k + 1] {
      assert (k + 1) * resolutionNs == k * resolutionNs + resolutionNs;
    }
  }

  /** A resolution below one tick repeats the first delay: the sweep plays 0 ns twice. */
  lemma {:induction false} SubTickResolutionRepeats(maxDelayNs: int, resolutionNs: int)
    requires 0 < resolutionNs < 4 && maxDelayNs >= resolutionNs
    ensures var d := DelayTimes(maxDelayNs, resolutionNs).value;
      |d| >= 2 && d[0] == d[1] == 0
  {
    ArangeLengthStep(0, maxDelayNs + 1, resolutionNs);
    ArangeLengthStep(resolutionNs, maxDelayNs + 1, resolutionNs);
  }
}
