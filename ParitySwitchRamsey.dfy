/**
 * The per-qubit idle-time rule of calibrations/LCH_parity_switch_ramsey.py:
 * the wait between the two pi/2 pulses, in clock ticks of 4 ns. An explicit
 * idle time wins; otherwise a quarter of the charge-dispersion period, capped
 * at the maximum idle time; a qubit without dispersion waits 4 ticks.
 *
 * Python's `//` on floats floors, so every `x // 4` below is `(x / 4).Floor`;
 * floating-point rounding is not modelled.
 */
module ParitySwitchRamsey {
  import opened Wrappers

  /** Clock ticks for `x` nanoseconds: `x // 4`. */
  function Ticks(ns: real): (t: int)
    ensures 4.0 * t as real <= ns < 4.0 * t as real + 4.0
  {
    (ns / 4.0).Floor
  }

  /**
   * Length in ns of a quarter of the period of a charge dispersion of
   * `dispersion` Hz: times the dispersion it is a quarter of a second in ns,
   * and it has the dispersion's sign.
   */
  function QuarterPeriodNs(dispersion: real): (ns: real)
    requires dispersion != 0.0
    ensures ns * dispersion == 250000000.0
    ensures ns > 0.0 <==> dispersion > 0.0
  {
    var ghz := dispersion / 1000000000.0;
    var ns := 1.0 / ghz / 4.0;
    assert ns * ghz == 0.25;
    ns
  }

  /**
   * The idle time in ticks for one qubit, from the node's explicit
   * `idle_time_in_ns` (None when unset), the qubit's `charge_dispersion` and
   * the node's `max_idle_time_in_ns`.
   */
  function IdleTicks(idleTimeNs: Option<real>, dispersion: real, maxIdleNs: real): (t: int)
    ensures idleTimeNs.Some? ==> 4.0 * t as real <= idleTimeNs.value < 4.0 * t as real + 4.0
    ensures idleTimeNs.None? && dispersion == 0.0 ==> t == 4
    ensures idleTimeNs.None? && dispersion != 0.0 ==>
      && t <= Ticks(maxIdleNs)
      && (t == Ticks(maxIdleNs) || 4.0 * t as real <= QuarterPeriodNs(dispersion) < 4.0 * t as real + 4.0)
      && (Ticks(QuarterPeriodNs(dispersion)) <= Ticks(maxIdleNs) ==> t == Ticks(QuarterPeriodNs(dispersion)))
  {
    if idleTimeNs.Some? then Ticks(idleTimeNs.value)
    else if dispersion == 0.0 then 4
    else
      var t := Ticks(QuarterPeriodNs(dispersion));
      if t > Ticks(maxIdleNs) then Ticks(maxIdleNs) else t
  }

  /** The cap has no lower side: a negative dispersion gives a negative wait. */
  lemma NegativeDispersionWaitsNegative(dispersion: real, maxIdleNs: real)
    requires dispersion < 0.0
    ensures IdleTicks(None, dispersion, maxIdleNs) < 0
  {
    assert QuarterPeriodNs(dispersion) < 0.0 by {
      assert dispersion / 1000000000.0 < 0.0;
    }
  }

  /** Without an explicit idle time, a qubit with dispersion never waits longer than the maximum idle time. */
  lemma ReportedIdleBounded(dispersion: real, maxIdleNs: real)
    requires dispersion != 0.0
    ensures 4.0 * IdleTicks(None, dispersion, maxIdleNs) as real <= maxIdleNs
  {
  }

  /**
   * The zero-dispersion wait of 16 ns is not capped: below a maximum idle
   * time of 16 ns it exceeds the maximum.
   */
  lemma ZeroDispersionUncapped(maxIdleNs: real)
    ensures 4.0 * IdleTicks(None, 0.0, maxIdleNs) as real == 16.0
    ensures maxIdleNs < 16.0 ==> 4.0 * IdleTicks(None, 0.0, maxIdleNs) as real > maxIdleNs
  {
  }

  /** The reported idle time `idle_time * 4` in ns: a multiple of 4 within 4 ns below an explicit request. */
  function ReportedIdleNs(idleTimeNs: Option<real>, dispersion: real, maxIdleNs: real): (ns: int)
    ensures ns % 4 == 0
    ensures idleTimeNs.Some? ==> ns as real <= idleTimeNs.value < ns as real + 4.0
  {
    IdleTicks(idleTimeNs, dispersion, maxIdleNs) * 4
  }
}
