/**
 * The CZ conditional-phase analysis (customized/node/LCH_CZ_conditional_phase/plotting.py):
 * `fit_on_off_cos` fits A·cos(2πx + φ) + c to the ctrl_switch=True and the
 * ctrl_switch=False trace of one qubit, and `plot_individual_data_with_fit`
 * checks its input and annotates the amplitude ratio and the phase
 * difference of the two fits.
 *
 * `np.cos` is a parameter `cos`; where the source evaluates a Python float
 * expression the model uses exact reals.
 */
module CzConditionalPhase {
  import opened Wrappers
  import opened Floats
  import opened CurveFit

  /**
   * One data variable restricted to a qubit: its dimensions, its coordinate
   * names, `data["basis"].values` (None when that lookup raises), and
   * `slice(b)`, the values of `data.sel(ctrl_switch=b)` (None when that
   * selection raises).
   */
  datatype DataArray = DataArray(dims: seq<string>, coords: seq<string>,
                                 basis: Option<seq<real>>, slice: bool -> Option<seq<real>>)

  /** The input of both functions: a Dataset of named variables in order, or a bare DataArray. */
  datatype QubitData = Dataset(vars: seq<(string, DataArray)>) | Bare(da: DataArray)

  datatype PhaseError =
    | NoDataVariables  // IndexError: an empty Dataset has no first variable
    | NoBasis          // KeyError from data["basis"]
    | NoCtrlSlice      // KeyError from data.sel(ctrl_switch=...)
    | MissingAxes      // RuntimeError: no ctrl_switch coordinate or no basis dimension
    | ZeroAmplitude    // ZeroDivisionError: A_off == 0 in the annotation

  /** The fit of one ctrl value: the curve over the basis points and A, φ, c (NaN when the fit raised). */
  datatype CtrlFit = CtrlFit(curve: seq<Float>, A: Float, phi: Float, c: Float)

  /** The Dataset `fit_on_off_cos` returns: rows follow the ctrl_switch coordinate. */
  datatype OnOffFit = OnOffFit(ctrlSwitch: seq<bool>, basis: seq<real>, rows: seq<CtrlFit>)

  /** The annotation text's numbers: "Diff: A=A_on/A_off, phi=phi_on-phi_off". */
  datatype Annotation = Annotation(ratio: Float, phiDiff: Float)

  predicate HasVar(vars: seq<(string, DataArray)>, name: string)
  {
    exists i :: 0 <= i < |vars| && vars[i].0 == name
  }

  /** Dataset input becomes its `state` variable if present, otherwise its first variable. */
  function Normalize(q: QubitData): (r: Result<DataArray, PhaseError>)
    ensures q.Bare? ==> r == Success(q.da)
    ensures q.Dataset? && |q.vars| == 0 ==> r == Failure(NoDataVariables)
    ensures q.Dataset? && HasVar(q.vars, "state") ==>
      r.Success? && exists i :: 0 <= i < |q.vars| && q.vars[i] == ("state", r.value)
    ensures q.Dataset? && |q.vars| > 0 && !HasVar(q.vars, "state") ==> r == Success(q.vars[0].1)
  {
    match q
    case Bare(a) => Success(a)
    case Dataset(vars) =>
      var i := StateIndex(vars);
      if i.Some? then Success(vars[i.value].1)
      else if |vars| == 0 then Failure(NoDataVariables)
      else Success(vars[0].1)
  }

  /** Position of the variable named `state` (a Dataset holds each name once). */
  function StateIndex(vars: seq<(string, DataArray)>): (r: Option<nat>)
    ensures r.Some? ==> r.value < |vars| && vars[r.value].0 == "state"
    ensures r.None? <==> !HasVar(vars, "state")
  {
    if |vars| == 0 then None
    else if vars[0].0 == "state" then Some(0)
    else
      var rest := StateIndex(vars[1..]);
      assert forall i :: 1 <= i < |vars| ==> vars[i] == vars[1..][i - 1];
      if rest.Some? then Some(rest.value + 1) else None
  }

  /** The fitted curve A·cos(2πx + φ) + c at every basis point. */
  function Curve(x: seq<real>, p: seq<real>, cos: real -> real): (curve: seq<Float>)
    requires |p| == 3
    ensures |curve| == |x|
  {
    seq(|x|, k requires 0 <= k < |x| => Finite(p[0] * cos(2.0 * Pi * x[k] + p[1]) + p[2]))
  }

  /** True exactly for a fit whose parameters are all NaN and whose curve is all NaN over `x`. */
  predicate IsFailedFit(f: CtrlFit, x: seq<real>)
  {
    f.A == NaN && f.phi == NaN && f.c == NaN
    && |f.curve| == |x| && forall k :: 0 <= k < |f.curve| ==> f.curve[k] == NaN
  }

  /** The fit a solver answer produces for one ctrl value. */
  predicate Describes(f: CtrlFit, x: seq<real>, answer: Option<seq<real>>, cos: real -> real)
  {
    if answer.Some? && |answer.value| == 3 then
      var p := answer.value;
      f == CtrlFit(Curve(x, p, cos), Finite(p[0]), Finite(p[1]), Finite(p[2]))
    else IsFailedFit(f, x)
  }

  /**
   * The try block for one ctrl value: popt and its curve when curve_fit
   * answers, NaN parameters and an all-NaN curve when it raises. By the
   * bounds, a fitted A is non-negative and a fitted φ lies in [-π, π].
   */
  function FitOne(x: seq<real>, y: seq<real>, solve: Solver, cos: real -> real): (f: CtrlFit)
    requires RespectsBounds(solve)
    ensures Describes(f, x, solve(CosineRequest(x, y)), cos)
    ensures f.A.Finite? ==> f.A.v >= 0.0
    ensures f.phi.Finite? ==> -Pi <= f.phi.v <= Pi
  {
    var req := CosineRequest(x, y);
    var popt := solve(req);
    if popt.Some? && |popt.value| == 3 then
      var p := popt.value;
      assert WithinBounds(req, p);
      assert AtLeast(p[0], req.lower[0]) && AtLeast(p[1], req.lower[1]) && AtMost(p[1], req.upper[1]);
      CtrlFit(Curve(x, p, cos), Finite(p[0]), Finite(p[1]), Finite(p[2]))
    else
      CtrlFit(seq(|x|, _ => NaN), NaN, NaN, NaN)
  }

  /**
   * `fit_on_off_cos`: exactly two fits, ctrl True then False, each on its own
   * slice only; rows follow the coordinate [True, False]. A successful fit
   * stores popt and its curve, a failed one NaN everywhere.
   */
  method FitOnOffCos(q: QubitData, solve: Solver, cos: real -> real) returns (r: Result<OnOffFit, PhaseError>)
    requires RespectsBounds(solve)
    ensures Normalize(q).Failure? ==> r == Failure(Normalize(q).error)
    ensures Normalize(q).Success? && Normalize(q).value.basis.None? ==> r == Failure(NoBasis)
    ensures r.Failure? && Normalize(q).Success? && Normalize(q).value.basis.Some? ==>
      r.error == NoCtrlSlice && (Normalize(q).value.slice(true).None? || Normalize(q).value.slice(false).None?)
    ensures r.Success? ==>
      var data := Normalize(q).value;
      && data.basis.Some? && data.slice(true).Some? && data.slice(false).Some?
      && r.value.ctrlSwitch == [true, false] && |r.value.rows| == 2
      && r.value.basis == data.basis.value
      && forall i :: 0 <= i < 2 ==>
        var answer := solve(CosineRequest(data.basis.value, data.slice(r.value.ctrlSwitch[i]).value));
        && Describes(r.value.rows[i], data.basis.value, answer, cos)
        && (r.value.rows[i].A.Finite? ==> r.value.rows[i].A.v >= 0.0)
        && (r.value.rows[i].phi.Finite? ==> -Pi <= r.value.rows[i].phi.v <= Pi)
  {
    var normalized := Normalize(q);
    if normalized.Failure? {
      return Failure(normalized.error);
    }
    var data := normalized.value;
    if data.basis.None? {
      return Failure(NoBasis);
    }
    var x := data.basis.value;
    var ctrlVals := [true, false];
    var out: map<bool, CtrlFit> := map[];
    for i := 0 to 2
      invariant forall j :: 0 <= j < i ==> data.slice(ctrlVals[j]).Some?
      invariant forall j :: 0 <= j < i ==> ctrlVals[j] in out
      invariant forall j :: 0 <= j < i ==>
        var answer := solve(CosineRequest(x, data.slice(ctrlVals[j]).value));
        && Describes(out[ctrlVals[j]], x, answer, cos)
        && (out[ctrlVals[j]].A.Finite? ==> out[ctrlVals[j]].A.v >= 0.0)
        && (out[ctrlVals[j]].phi.Finite? ==> -Pi <= out[ctrlVals[j]].phi.v <= Pi)
    {
      var ctrl := ctrlVals[i];
      var y := data.slice(ctrl);
      if y.None? {
        return Failure(NoCtrlSlice);
      }
      out := out[ctrl := FitOne(x, y.value, solve, cos)];
    }
    assert ctrlVals[0] in out && ctrlVals[1] in out;
    return Success(OnOffFit(ctrlVals, x, [out[true], out[false]]));
  }

  /**
   * `plot_individual_data_with_fit` without the drawing: the same
   * normalisation, the RuntimeError unless the data has a ctrl_switch
   * coordinate and a basis dimension, the on/off selection, and (when a fit
   * is given) the annotated A ratio and unwrapped φ difference, taken with
   * Python float division.
   */
  function PlotAnnotation(q: QubitData, fit: Option<OnOffFit>): (r: Result<Option<Annotation>, PhaseError>)
    requires fit.Some? ==> |fit.value.rows| == 2 && fit.value.ctrlSwitch == [true, false]
    ensures Normalize(q).Success? && !("ctrl_switch" in Normalize(q).value.coords && "basis" in Normalize(q).value.dims)
      ==> r == Failure(MissingAxes)
    ensures r.Success? ==>
      Normalize(q).Success? && "ctrl_switch" in Normalize(q).value.coords && "basis" in Normalize(q).value.dims
    ensures r.Success? ==> (r.value.Some? <==> fit.Some?)
    ensures r.Success? && fit.Some? ==>
      && fit.value.rows[1].A != Finite(0.0)
      && r.value.value.ratio == Div(fit.value.rows[0].A, fit.value.rows[1].A)
      && r.value.value.phiDiff == Sub(fit.value.rows[0].phi, fit.value.rows[1].phi)
    ensures fit.Some? && fit.value.rows[1].A == Finite(0.0) ==> r.Failure?
  {
    var normalized := Normalize(q);
    if normalized.Failure? then Failure(normalized.error)
    else
      var data := normalized.value;
      if !("ctrl_switch" in data.coords && "basis" in data.dims) then Failure(MissingAxes)
      else if data.slice(true).None? || data.slice(false).None? then Failure(NoCtrlSlice)
      else if data.basis.None? then Failure(NoBasis)
      else if fit.None? then Success(None)
      else
        var on := fit.value.rows[0];
        var off := fit.value.rows[1];
        if off.A == Finite(0.0) then Failure(ZeroAmplitude)
        else Success(Some(Annotation(Div(on.A, off.A), Sub(on.phi, off.phi))))
  }

  /**
   * Unlike the slow-2D map the annotated difference is not wrapped: with
   * in-bounds phases it lies in [-2π, 2π], and both ends are reached.
   */
  lemma AnnotationUnwrapped(q: QubitData, fit: OnOffFit)
    requires |fit.rows| == 2 && fit.ctrlSwitch == [true, false]
    requires PlotAnnotation(q, Some(fit)).Success?
    requires forall i :: 0 <= i < 2 ==> fit.rows[i].phi.Finite? && -Pi <= fit.rows[i].phi.v <= Pi
    ensures var d := PlotAnnotation(q, Some(fit)).value.value.phiDiff;
      d.Finite? && -2.0 * Pi <= d.v <= 2.0 * Pi
    ensures fit.rows[0].phi == Finite(Pi) && fit.rows[1].phi == Finite(-Pi) ==>
      PlotAnnotation(q, Some(fit)).value.value.phiDiff == Finite(2.0 * Pi)
    ensures fit.rows[0].phi == Finite(-Pi) && fit.rows[1].phi == Finite(Pi) ==>
      PlotAnnotation(q, Some(fit)).value.value.phiDiff == Finite(-2.0 * Pi)
  {
    assert fit.rows[0].phi.Finite? && fit.rows[1].phi.Finite?;
  }

  /** Two fits describing the same solver answer have the same A and φ. */
  lemma DescribesUnique(f: CtrlFit, g: CtrlFit, x: seq<real>, answer: Option<seq<real>>, cos: real -> real)
    requires Describes(f, x, answer, cos) && Describes(g, x, answer, cos)
    ensures f.A == g.A && f.phi == g.phi
  {
  }

  /**
   * The input both functions get through: it normalises, has the ctrl_switch
   * coordinate and the basis dimension, and both its basis values and its
   * two ctrl_switch slices can be read.
   */
  predicate Ready(q: QubitData)
  {
    && Normalize(q).Success?
    && var data := Normalize(q).value;
    && "ctrl_switch" in data.coords && "basis" in data.dims
    && data.basis.Some? && data.slice(true).Some? && data.slice(false).Some?
  }

  /** The try block's fit of the ctrl_switch=`ctrl` slice of ready input. */
  function SliceFit(q: QubitData, ctrl: bool, solve: Solver, cos: real -> real): CtrlFit
    requires Ready(q) && RespectsBounds(solve)
  {
    var data := Normalize(q).value;
    FitOne(data.basis.value, data.slice(ctrl).value, solve, cos)
  }

  /**
   * One qubit of `plot_raw_data_with_fit`: the fit, then the annotation of
   * that fit on the same data. It fails exactly when the input is not ready
   * or the OFF fit has amplitude zero, with the error of the first check
   * that fails; otherwise it annotates the ON and OFF fits of the two
   * slices, and the phase difference is NaN (a fit failed) or lies in
   * [-2π, 2π].
   */
  method FitAndAnnotate(q: QubitData, solve: Solver, cos: real -> real) returns (r: Result<Annotation, PhaseError>)
    requires RespectsBounds(solve)
    ensures r.Failure? <==> !Ready(q) || SliceFit(q, false, solve, cos).A == Finite(0.0)
    ensures Normalize(q).Failure? ==> r == Failure(Normalize(q).error)
    ensures Normalize(q).Success? && Normalize(q).value.basis.None? ==> r == Failure(NoBasis)
    ensures (Normalize(q).Success? && Normalize(q).value.basis.Some?
             && (Normalize(q).value.slice(true).None? || Normalize(q).value.slice(false).None?))
      ==> r == Failure(NoCtrlSlice)
    ensures (Normalize(q).Success? && Normalize(q).value.basis.Some?
             && Normalize(q).value.slice(true).Some? && Normalize(q).value.slice(false).Some?
             && !("ctrl_switch" in Normalize(q).value.coords && "basis" in Normalize(q).value.dims))
      ==> r == Failure(MissingAxes)
    ensures Ready(q) && SliceFit(q, false, solve, cos).A == Finite(0.0) ==> r == Failure(ZeroAmplitude)
    ensures r.Success? ==>
      var on := SliceFit(q, true, solve, cos);
      var off := SliceFit(q, false, solve, cos);
      r.value == Annotation(Div(on.A, off.A), Sub(on.phi, off.phi))
    ensures r.Success? ==> r.value.phiDiff.NaN? || (r.value.phiDiff.Finite? && -2.0 * Pi <= r.value.phiDiff.v <= 2.0 * Pi)
  {
    var fit := FitOnOffCos(q, solve, cos);
    if fit.Failure? {
      return Failure(fit.error);
    }
    var data := Normalize(q).value;
    var x := data.basis.value;
    DescribesUnique(fit.value.rows[0], FitOne(x, data.slice(true).value, solve, cos),
                    x, solve(CosineRequest(x, data.slice(true).value)), cos);
    DescribesUnique(fit.value.rows[1], FitOne(x, data.slice(false).value, solve, cos),
                    x, solve(CosineRequest(x, data.slice(false).value)), cos);
    var annotation := PlotAnnotation(q, Some(fit.value));
    if annotation.Failure? {
      return Failure(annotation.error);
    }
    return Success(annotation.value.value);
  }
}
