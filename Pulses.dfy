/**
 * The two custom pulse shapes of customized/components/pulses.py:
 * `RampPulse` samples a straight line from start_value to end_value, and
 * `CascadeFlatTopGaussianPulse` splits its length into a flat top and two
 * equal Gaussian flanks, refusing lengths that cannot be split evenly.
 */
module Pulses {
  import opened Wrappers
  import opened NumpyArrays

  datatype PulseError =
    | OddRiseFall     // ValueError: length - flat_length is odd
    | NegativeSamples // ValueError from np.linspace: a negative sample count

  /**
   * A waveform as returned by `waveform_function`: the real samples, and
   * whether they are multiplied by exp(1j * axis_angle) (the complex rotation
   * itself is not modelled).
   */
  datatype Waveform = Waveform(samples: seq<real>, axisAngle: Option<real>)

  /**
   * The rise/fall length `(length - flat_length) // 2` and its check: it is
   * accepted exactly when flat_length + 2 * rise_fall_length == length, i.e.
   * when the difference is even. An even negative difference is accepted and
   * yields a negative rise/fall length.
   */
  function RiseFallLength(length: int, flatLength: int): (r: Result<int, PulseError>)
    ensures r.Failure? <==> (length - flatLength) % 2 == 1
    ensures r.Failure? ==> r.error == OddRiseFall
    ensures r.Success? ==> flatLength + 2 * r.value == length
    ensures r.Success? && flatLength > length ==> r.value < 0
  {
    // Python's // floors; for the positive divisor 2 that is Dafny's /
    var riseFall := (length - flatLength) / 2;
    if flatLength + 2 * riseFall != length then Failure(OddRiseFall)
    else Success(riseFall)
  }

  /**
   * `CascadeFlatTopGaussianPulse.waveform_function`: the check above, then the
   * samples `flattop(amplitude, flat_length, rise_fall_length)` of the
   * external flat-top Gaussian generator.
   */
  function CascadeWaveform(length: int, flatLength: int, amplitude: real, axisAngle: Option<real>,
                           flattop: (real, int, int) -> seq<real>): (r: Result<Waveform, PulseError>)
    ensures r.Failure? <==> (length - flatLength) % 2 == 1
    ensures r.Success? ==>
      var riseFall := RiseFallLength(length, flatLength).value;
      && flatLength + 2 * riseFall == length
      && r.value.samples == flattop(amplitude, flatLength, riseFall)
      && r.value.axisAngle == axisAngle
  {
    var riseFall := RiseFallLength(length, flatLength);
    if riseFall.Failure? then Failure(riseFall.error)
    else Success(Waveform(flattop(amplitude, flatLength, riseFall.value), axisAngle))
  }

  /**
   * `RampPulse.waveform_function`: `np.linspace(start_value, end_value,
   * length)`: exactly `length` samples, from start_value to end_value inclusive
   * and evenly spaced.
   */
  function RampWaveform(length: int, startValue: real, endValue: real, axisAngle: Option<real>): (r: Result<Waveform, PulseError>)
    ensures r.Failure? <==> length < 0
    ensures r.Success? ==> |r.value.samples| == length && r.value.axisAngle == axisAngle
    ensures r.Success? && length >= 1 ==> r.value.samples[0] == startValue
    ensures r.Success? && length >= 2 ==> r.value.samples[length - 1] == endValue
    ensures r.Success? && length >= 2 ==> forall k :: 0 <= k < length - 1 ==>
      r.value.samples[k + 1] - r.value.samples[k] == (endValue - startValue) / (length - 1) as real
  {
    var samples := Linspace(startValue, endValue, length);
    if samples.Failure? then Failure(NegativeSamples)
    else Success(Waveform(samples.value, axisAngle))
  }

  /** Every split into a flat top and two equal flanks is accepted and recovered. */
  lemma RiseFallRoundTrip(flatLength: int, riseFall: int)
    ensures RiseFallLength(flatLength + 2 * riseFall, flatLength) == Success(riseFall)
  {
  }
}
