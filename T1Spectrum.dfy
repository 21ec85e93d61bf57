/**
 * The T1-versus-flux analysis (customized/node/LCH_T1_spectrum/plotting.py):
 * `fit_exp_decay_vs_flux_amp` fits a·exp(-t/τ) + offset to the state trace at
 * every flux amplitude into NaN-prefilled arrays indexed by flux_amp, and
 * `plot_individual_data_with_fit` chooses its plot from the `signal` variable.
 */
module T1Spectrum {
  import opened Wrappers
  import opened Floats
  import opened NumpyArrays
  import opened CurveFit

  /**
   * The data handed to the fit: the idle-time axis, the flux_amp coordinate,
   * and `state(i)`, the state trace along idle_time at the i-th flux amplitude.
   */
  datatype T1Data = T1Data(idleTime: seq<real>, fluxAmps: seq<real>, state: nat -> seq<real>)

  /** Fitted (amplitude, offset, τ) at one flux amplitude; NaN when the fit raised. */
  datatype DecayCell = DecayCell(amplitude: Float, offset: Float, tau: Float)

  /** The Dataset returned: tau, offset and amplitude, each indexed by flux_amp. */
  datatype DecayFit = DecayFit(fluxAmps: seq<real>, tau: seq<Float>, offset: seq<Float>, amplitude: seq<Float>)

  datatype T1Error =
    | EmptyTrace  // ValueError: max()/min() of an empty trace or empty idle-time axis
    | NoSignal    // RuntimeError: the dataset has no 'signal'

  datatype PlotKind = Heatmap | LinePlot

  /**
   * The curve_fit call for one trace: the guess (max - min of the trace, min of
   * the trace, half the longest idle time) and the bounds τ >= 0, a and offset
   * free. The guess is ordered as the model's parameters (a, offset, τ).
   */
  function DecayRequest(idleTime: seq<real>, y: seq<real>): (req: FitRequest)
    requires |idleTime| > 0 && |y| > 0
    ensures req.model == ExpDecay && |req.p0| == 3
    ensures req.p0[0] >= 0.0
    ensures forall k :: 0 <= k < |y| ==> req.p0[1] <= y[k]
    ensures exists k :: 0 <= k < |y| && req.p0[1] == y[k]
    ensures forall k :: 0 <= k < |y| ==> y[k] <= req.p0[0] + req.p0[1]
    ensures exists k :: 0 <= k < |y| && req.p0[0] + req.p0[1] == y[k]
    ensures forall k :: 0 <= k < |idleTime| ==> idleTime[k] <= req.p0[2] * 2.0
    ensures exists k :: 0 <= k < |idleTime| && req.p0[2] * 2.0 == idleTime[k]
    ensures (exists k :: 0 <= k < |idleTime| && idleTime[k] >= 0.0) ==> WithinBounds(req, req.p0)
  {
    FitRequest(ExpDecay, idleTime, y, [MaxOf(y) - MinOf(y), MinOf(y), MaxOf(idleTime) / 2.0],
               [NegInf, NegInf, Finite(0.0)], [PosInf, PosInf, PosInf])
  }

  /** The cell a solver answer produces: popt[0], popt[1], popt[2] as amplitude, offset and τ. */
  function DecayOf(answer: Option<seq<real>>): DecayCell
  {
    if answer.Some? && |answer.value| == 3 then
      DecayCell(Finite(answer.value[0]), Finite(answer.value[1]), Finite(answer.value[2]))
    else DecayCell(NaN, NaN, NaN)
  }

  /** By the bounds, a fitted τ is never negative. */
  lemma DecayOfBounded(solve: Solver, idleTime: seq<real>, y: seq<real>)
    requires RespectsBounds(solve) && |idleTime| > 0 && |y| > 0
    ensures var cell := DecayOf(solve(DecayRequest(idleTime, y)));
      cell.tau.Finite? ==> cell.tau.v >= 0.0
  {
    var req := DecayRequest(idleTime, y);
    if solve(req).Some? && |solve(req).value| == 3 {
      assert WithinBounds(req, solve(req).value);
      assert AtLeast(solve(req).value[2], req.lower[2]);
    }
  }

  /** Every trace the loop reaches, and the idle-time axis, is non-empty. */
  predicate Fittable(data: T1Data)
  {
    |data.fluxAmps| > 0 ==> |data.idleTime| > 0 && forall i :: 0 <= i < |data.fluxAmps| ==> |data.state(i)| > 0
  }

  /** The cell the fit at the i-th flux amplitude produces. */
  function CellFor(data: T1Data, solve: Solver, i: nat): DecayCell
    requires |data.idleTime| > 0 && |data.state(i)| > 0
  {
    DecayOf(solve(DecayRequest(data.idleTime, data.state(i))))
  }

  /**
   * The try block for entry i: the curve_fit call on the i-th trace, then
   * `fit_amp[i], fit_offset[i], fit_tau[i] = popt` when the fit answers, and
   * the NaN prefill left in place when it raises.
   */
  method StoreFit(ampArr: array<Float>, offsetArr: array<Float>, tauArr: array<Float>, i: nat,
                  data: T1Data, solve: Solver)
    requires RespectsBounds(solve) && |data.idleTime| > 0 && |data.state(i)| > 0
    requires i < ampArr.Length == offsetArr.Length == tauArr.Length
    requires ampArr != offsetArr && ampArr != tauArr && offsetArr != tauArr
    requires ampArr[i] == NaN && offsetArr[i] == NaN && tauArr[i] == NaN
    modifies ampArr, offsetArr, tauArr
    ensures DecayCell(ampArr[i], offsetArr[i], tauArr[i]) == CellFor(data, solve, i)
    ensures tauArr[i].Finite? ==> tauArr[i].v >= 0.0
    ensures forall j :: 0 <= j < ampArr.Length && j != i ==>
      ampArr[j] == old(ampArr[j]) && offsetArr[j] == old(offsetArr[j]) && tauArr[j] == old(tauArr[j])
  {
    var answer := solve(DecayRequest(data.idleTime, data.state(i)));
    DecayOfBounded(solve, data.idleTime, data.state(i));
    if answer.Some? && |answer.value| == 3 {
      ampArr[i] := Finite(answer.value[0]);
      offsetArr[i] := Finite(answer.value[1]);
      tauArr[i] := Finite(answer.value[2]);
    }
  }

  /**
   * `fit_exp_decay_vs_flux_amp`: one entry per flux amplitude, each holding the
   * fit of its own trace only (NaN when that fit raised), with τ >= 0 whenever
   * it is a number. An empty trace makes max()/min() raise outside the try.
   */
  method FitExpDecayVsFluxAmp(data: T1Data, solve: Solver) returns (r: Result<DecayFit, T1Error>)
    requires RespectsBounds(solve)
    ensures r.Failure? <==> !Fittable(data)
    ensures r.Success? ==>
      && r.value.fluxAmps == data.fluxAmps
      && |r.value.tau| == |r.value.offset| == |r.value.amplitude| == |data.fluxAmps|
      && forall i :: 0 <= i < |data.fluxAmps| ==>
        && |data.state(i)| > 0 && |data.idleTime| > 0
        && DecayCell(r.value.amplitude[i], r.value.offset[i], r.value.tau[i]) == CellFor(data, solve, i)
        && (r.value.tau[i].Finite? ==> r.value.tau[i].v >= 0.0)
  {
    var n := |data.fluxAmps|;
    var tauArr := new Float[n](_ => NaN);
    var offsetArr := new Float[n](_ => NaN);
    var ampArr := new Float[n](_ => NaN);
    for i := 0 to n
      invariant i > 0 ==> |data.idleTime| > 0
      invariant forall j :: 0 <= j < i ==>
        && |data.state(j)| > 0
        && DecayCell(ampArr[j], offsetArr[j], tauArr[j]) == CellFor(data, solve, j)
        && (tauArr[j].Finite? ==> tauArr[j].v >= 0.0)
      invariant forall j :: i <= j < n ==> tauArr[j] == NaN && offsetArr[j] == NaN && ampArr[j] == NaN
    {
      var y := data.state(i);
      if |y| == 0 || |data.idleTime| == 0 {
        return Failure(EmptyTrace);
      }
      StoreFit(ampArr, offsetArr, tauArr, i, data, solve);
    }
    r := Success(DecayFit(data.fluxAmps, tauArr[..], offsetArr[..], ampArr[..]));
  }

  /**
   * The `signal` guard of `plot_individual_data_with_fit`: a heatmap when the
   * signal has a flux_amp dimension, a line plot otherwise, and RuntimeError
   * when there is no signal at all.
   */
  function SignalPlot(signalDims: Option<seq<string>>): (r: Result<PlotKind, T1Error>)
    ensures r.Failure? <==> signalDims.None?
    ensures r.Failure? ==> r.error == NoSignal
    ensures r == Success(Heatmap) <==> signalDims.Some? && "flux_amp" in signalDims.value
    ensures r == Success(LinePlot) <==> signalDims.Some? && "flux_amp" !in signalDims.value
  {
    if signalDims.Some? && "flux_amp" in signalDims.value then Success(Heatmap)
    else if signalDims.Some? then Success(LinePlot)
    else Failure(NoSignal)
  }
}
