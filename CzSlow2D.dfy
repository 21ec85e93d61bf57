/**
 * The CZ slow-2D analysis (calibration_utils/LCH_CZ_slow2D/plotting.py):
 * `fit_cos_basis` fits A·cos(2πx + φ) + c along the `basis` axis of every cell
 * of the remaining dimensions into NaN-prefilled result arrays, and
 * `plot_fit_results_diff_heatmap` composes the ctrl_switch=True and =False
 * slices of that result into an amplitude ratio, a once-wrapped phase
 * difference and an offset difference.
 *
 * Arrays are stored flat in row-major order; `NumpyArrays.Ravel` gives the
 * flat position of an index tuple and `NumpyArrays.Unravel` the tuple at a
 * flat position (the order in which `np.indices(shape)` enumerates cells).
 */
module CzSlow2D {
  import opened Wrappers
  import opened Floats
  import opened NumpyArrays
  import opened CurveFit

  /** A coordinate label of a dimension. */
  datatype Coord = BoolLabel(b: bool) | NumLabel(v: real) | TextLabel(s: string)

  /** A named dimension with its coordinate labels; its size is the number of labels. */
  datatype Dim = Dim(name: string, coords: seq<Coord>)

  /**
   * The data `fit_cos_basis` receives: its dimensions in order (the `basis`
   * dimension among them when present), the `basis` coordinate values, and
   * `state(idx)`, the `state` trace along `basis` of the cell `idx` of the
   * other dimensions.
   */
  datatype StateData = StateData(dims: seq<Dim>, basis: seq<real>, state: seq<nat> -> seq<real>)

  /** Fitted (A, phi, c) of one cell; all three are NaN when the fit raised. */
  datatype CosCell = CosCell(A: Float, phi: Float, c: Float)

  /** The Dataset `fit_cos_basis` returns: variables A, phi, c over `dims`, flat in row-major order. */
  datatype CosFitDataset = CosFitDataset(dims: seq<Dim>, A: seq<Float>, phi: seq<Float>, c: seq<Float>)

  /** The three maps `plot_fit_results_diff_heatmap` draws, over the dimensions other than ctrl_switch. */
  datatype DiffMaps = DiffMaps(dims: seq<Dim>, ratio: seq<Float>, phiDiff: seq<Float>, cDiff: seq<Float>)

  datatype FitError =
    | MissingBasis      // ValueError: no 'basis' axis
    | NoOtherDims       // np.indices(()) cannot be reshaped to (0, -1): ValueError
    | CtrlNotSelectable // .sel(ctrl_switch=True/False) raises KeyError

  const Failed: CosCell := CosCell(NaN, NaN, NaN)

  predicate HasDim(dims: seq<Dim>, name: string)
  {
    exists d :: 0 <= d < |dims| && dims[d].name == name
  }

  /** The dimensions other than `basis`, in their original order. */
  function NonBasis(dims: seq<Dim>): (r: seq<Dim>)
    ensures forall d :: 0 <= d < |r| ==> r[d].name != "basis"
    ensures |r| <= |dims|
  {
    if |dims| == 0 then []
    else if dims[0].name == "basis" then NonBasis(dims[1..])
    else [dims[0]] + NonBasis(dims[1..])
  }

  /** The number of dimensions named `name`. */
  function CountNamed(dims: seq<Dim>, name: string): (n: nat)
    ensures n <= |dims|
  {
    if |dims| == 0 then 0
    else (if dims[0].name == name then 1 else 0) + CountNamed(dims[1..], name)
  }

  /** The kept dimensions are exactly the input's non-`basis` dimensions. */
  lemma {:induction false} NonBasisMembers(dims: seq<Dim>, x: Dim)
    ensures x in NonBasis(dims) <==> x in dims && x.name != "basis"
  {
    if |dims| > 0 {
      NonBasisMembers(dims[1..], x);
      assert dims == [dims[0]] + dims[1..];
    }
  }

  /** Keeping distributes over concatenation, so the kept dimensions keep their relative order. */
  lemma {:induction false} NonBasisAppend(a: seq<Dim>, b: seq<Dim>)
    ensures NonBasis(a + b) == NonBasis(a) + NonBasis(b)
  {
    if |a| > 0 {
      assert (a + b)[1..] == a[1..] + b;
      NonBasisAppend(a[1..], b);
    } else {
      assert a + b == b;
    }
  }

  /** Exactly the `basis` dimensions are dropped. */
  lemma {:induction false} NonBasisCount(dims: seq<Dim>)
    ensures |NonBasis(dims)| == |dims| - CountNamed(dims, "basis")
  {
    if |dims| > 0 {
      NonBasisCount(dims[1..]);
    }
  }

  /** Where the i-th kept dimension sits in the input: a non-`basis` dimension equal to it. */
  function Origin(dims: seq<Dim>, i: nat): (p: nat)
    requires i < |NonBasis(dims)|
    ensures p < |dims| && dims[p] == NonBasis(dims)[i] && dims[p].name != "basis"
  {
    if dims[0].name == "basis" then 1 + Origin(dims[1..], i)
    else if i == 0 then 0
    else 1 + Origin(dims[1..], i - 1)
  }

  /** Kept dimensions come from strictly increasing input positions: the input order is kept. */
  lemma {:induction false} OriginIncreasing(dims: seq<Dim>, i: nat, j: nat)
    requires i < j < |NonBasis(dims)|
    ensures Origin(dims, i) < Origin(dims, j)
  {
    var t := dims[1..];
    if dims[0].name == "basis" {
      assert |NonBasis(dims)| == |NonBasis(t)|;
      assert Origin(dims, i) == 1 + Origin(t, i) && Origin(dims, j) == 1 + Origin(t, j);
      OriginIncreasing(t, i, j);
    } else {
      assert |NonBasis(dims)| == 1 + |NonBasis(t)|;
      assert Origin(dims, j) == 1 + Origin(t, j - 1);
      if i > 0 {
        assert Origin(dims, i) == 1 + Origin(t, i - 1);
        OriginIncreasing(t, i - 1, j - 1);
      }
    }
  }

  /** Sizes of the dimensions (`da.sizes`). */
  function Shape(dims: seq<Dim>): (s: seq<nat>)
    ensures |s| == |dims| && forall d :: 0 <= d < |dims| ==> s[d] == |dims[d].coords|
  {
    seq(|dims|, d requires 0 <= d < |dims| => |dims[d].coords|)
  }

  /** The cell a solver answer produces: popt[0], popt[1], popt[2], or NaN when the fit raised. */
  function CellOf(answer: Option<seq<real>>): CosCell
  {
    if answer.Some? && |answer.value| == 3 then
      CosCell(Finite(answer.value[0]), Finite(answer.value[1]), Finite(answer.value[2]))
    else Failed
  }

  /** A cell is either a failed (all-NaN) cell or a finite fit with A >= 0 and -pi <= phi <= pi. */
  predicate Bounded(cell: CosCell)
  {
    || cell == Failed
    || (cell.A.Finite? && cell.phi.Finite? && cell.c.Finite?
        && cell.A.v >= 0.0 && -Pi <= cell.phi.v <= Pi)
  }

  lemma {:induction false} CellOfBounded(solve: Solver, x: seq<real>, y: seq<real>)
    requires RespectsBounds(solve)
    ensures Bounded(CellOf(solve(CosineRequest(x, y))))
    ensures solve(CosineRequest(x, y)).Some? ==> CellOf(solve(CosineRequest(x, y))) != Failed
  {
    var req := CosineRequest(x, y);
    if solve(req).Some? {
      var p := solve(req).value;
      assert WithinBounds(req, p);
      assert AtLeast(p[0], req.lower[0]) && AtLeast(p[1], req.lower[1]) && AtMost(p[1], req.upper[1]);
    }
  }

  predicate WellFormed(ds: CosFitDataset)
  {
    |ds.A| == |ds.phi| == |ds.c| == Product(Shape(ds.dims))
  }

  function CellAt(ds: CosFitDataset, k: nat): CosCell
    requires WellFormed(ds) && k < |ds.A|
  {
    CosCell(ds.A[k], ds.phi[k], ds.c[k])
  }

  /** Cell k of the flat result holds the fit of the trace at the k-th index tuple. */
  predicate FitsFlat(ds: CosFitDataset, da: StateData, solve: Solver)
    requires WellFormed(ds)
  {
    forall k :: 0 <= k < |ds.A| ==>
      CellAt(ds, k) == CellOf(solve(CosineRequest(da.basis, da.state(Unravel(k, Shape(ds.dims))))))
  }

  /** Every index tuple addresses a cell that holds the fit of that tuple's trace. */
  ghost predicate FitsEveryCell(ds: CosFitDataset, da: StateData, solve: Solver)
    requires WellFormed(ds)
  {
    forall idx :: ValidIndex(idx, Shape(ds.dims)) ==>
      && Ravel(idx, Shape(ds.dims)) < |ds.A|
      && CellAt(ds, Ravel(idx, Shape(ds.dims))) == CellOf(solve(CosineRequest(da.basis, da.state(idx))))
  }

  lemma FlatToTuples(ds: CosFitDataset, da: StateData, solve: Solver)
    requires WellFormed(ds) && FitsFlat(ds, da, solve)
    ensures FitsEveryCell(ds, da, solve)
  {
    var shape := Shape(ds.dims);
    forall idx | ValidIndex(idx, shape)
      ensures Ravel(idx, shape) < |ds.A|
      ensures CellAt(ds, Ravel(idx, shape)) == CellOf(solve(CosineRequest(da.basis, da.state(idx))))
    {
      UnravelRavel(idx, shape);
    }
  }

  lemma FlatBounded(ds: CosFitDataset, da: StateData, solve: Solver)
    requires RespectsBounds(solve)
    requires WellFormed(ds) && FitsFlat(ds, da, solve)
    ensures forall k :: 0 <= k < |ds.A| ==> Bounded(CellAt(ds, k))
  {
    forall k | 0 <= k < |ds.A| ensures Bounded(CellAt(ds, k)) {
      CellOfBounded(solve, da.basis, da.state(Unravel(k, Shape(ds.dims))));
    }
  }

  /** The cell the fit of the trace at flat position k yields. */
  function CellFit(shape: seq<nat>, da: StateData, solve: Solver, k: nat): CosCell
    requires k < Product(shape)
  {
    CellOf(solve(CosineRequest(da.basis, da.state(Unravel(k, shape)))))
  }

  /**
   * The loop of `fit_cos_basis` over the index tuples of `shape`: NaN-prefilled
   * arrays whose cell at each tuple takes popt when that cell's fit succeeds.
   */
  method FillCells(shape: seq<nat>, da: StateData, solve: Solver) returns (A: seq<Float>, phi: seq<Float>, c: seq<Float>)
    ensures |A| == |phi| == |c| == Product(shape)
    ensures forall k :: 0 <= k < |A| ==>
      CosCell(A[k], phi[k], c[k]) == CellOf(solve(CosineRequest(da.basis, da.state(Unravel(k, shape)))))
  {
    var n := Product(shape);
    var aArr := new Float[n](_ => NaN);
    var phiArr := new Float[n](_ => NaN);
    var cArr := new Float[n](_ => NaN);
    for k := 0 to n
      invariant forall j :: 0 <= j < k ==> CosCell(aArr[j], phiArr[j], cArr[j]) == CellFit(shape, da, solve, j)
      invariant forall j :: k <= j < n ==> aArr[j] == NaN && phiArr[j] == NaN && cArr[j] == NaN
    {
      var idx := Unravel(k, shape);
      var popt := solve(CosineRequest(da.basis, da.state(idx)));
      assert CellFit(shape, da, solve, k) == CellOf(popt);
      if popt.Some? && |popt.value| == 3 {
        var pos := Ravel(idx, shape);
        RavelUnravel(k, shape);
        Store(aArr, phiArr, cArr, pos, popt.value);
      }
    }
    A, phi, c := aArr[..], phiArr[..], cArr[..];
  }

  /** `A[idx], phi[idx], c[idx] = popt`: one cell of each array takes its fitted value. */
  method Store(aArr: array<Float>, phiArr: array<Float>, cArr: array<Float>, pos: nat, popt: seq<real>)
    requires pos < aArr.Length == phiArr.Length == cArr.Length && |popt| == 3
    requires aArr != phiArr && aArr != cArr && phiArr != cArr
    modifies aArr, phiArr, cArr
    ensures aArr[..] == old(aArr[..])[pos := Finite(popt[0])]
    ensures phiArr[..] == old(phiArr[..])[pos := Finite(popt[1])]
    ensures cArr[..] == old(cArr[..])[pos := Finite(popt[2])]
  {
    aArr[pos] := Finite(popt[0]);
    phiArr[pos] := Finite(popt[1]);
    cArr[pos] := Finite(popt[2]);
  }

  /**
   * `fit_cos_basis`: rejects data without a `basis` axis; otherwise every cell
   * of the remaining dimensions holds exactly the fit of its own trace (NaN
   * when that fit raised), and the result has those dimensions in order.
   */
  method FitCosBasis(da: StateData, solve: Solver) returns (r: Result<CosFitDataset, FitError>)
    requires RespectsBounds(solve)
    ensures r.Failure? <==> !HasDim(da.dims, "basis") || |NonBasis(da.dims)| == 0
    ensures r.Failure? && !HasDim(da.dims, "basis") ==> r.error == MissingBasis
    ensures r.Success? ==> r.value.dims == NonBasis(da.dims) && WellFormed(r.value)
    ensures r.Success? ==> FitsEveryCell(r.value, da, solve)
    ensures r.Success? ==> forall k :: 0 <= k < |r.value.A| ==> Bounded(CellAt(r.value, k))
  {
    if !HasDim(da.dims, "basis") {
      return Failure(MissingBasis);
    }
    var dims := NonBasis(da.dims);
    if |dims| == 0 {
      return Failure(NoOtherDims);
    }
    var A, phi, c := FillCells(Shape(dims), da, solve);
    var ds := CosFitDataset(dims, A, phi, c);
    assert FitsFlat(ds, da, solve) by {
      forall k | 0 <= k < |A|
        ensures CellAt(ds, k) == CellOf(solve(CosineRequest(da.basis, da.state(Unravel(k, Shape(dims))))))
      {
        assert CellAt(ds, k) == CosCell(A[k], phi[k], c[k]);
      }
    }
    FlatToTuples(ds, da, solve);
    FlatBounded(ds, da, solve);
    return Success(ds);
  }

  // ---------------------------------------------------------------------
  // plot_fit_results_diff_heatmap
  // ---------------------------------------------------------------------

  /**
   * The single-step wrap `np.where(x > pi, x - 2pi, np.where(x < -pi, x + 2pi, x))`:
   * NaN stays NaN, a finite value moves by at most one period, and anything in
   * [-2pi, 2pi] lands in [-pi, pi].
   */
  function WrapPhase(x: Float): (r: Float)
    ensures r.NaN? <==> x.NaN?
    ensures x.Finite? ==> r.Finite? && (r.v == x.v || r.v == x.v - 2.0 * Pi || r.v == x.v + 2.0 * Pi)
    ensures x.Finite? && -2.0 * Pi <= x.v <= 2.0 * Pi ==> -Pi <= r.v <= Pi
    ensures x.Finite? && -Pi <= x.v <= Pi ==> r == x
  {
    if Greater(x, Pi) then Sub(x, Finite(2.0 * Pi))
    else if Less(x, -Pi) then Add(x, Finite(2.0 * Pi))
    else x
  }

  /** The wrap is odd: wrapping the reversed difference gives the negated wrapped difference. */
  lemma WrapPhaseOdd(x: Float)
    ensures WrapPhase(Negate(x)) == Negate(WrapPhase(x))
  {
  }

  function RemoveAt<T>(s: seq<T>, d: nat): (r: seq<T>)
    requires d < |s|
    ensures |r| == |s| - 1
    ensures forall i :: 0 <= i < d ==> r[i] == s[i]
    ensures forall i :: d <= i < |r| ==> r[i] == s[i + 1]
  {
    s[..d] + s[d + 1..]
  }

  function InsertAt(idx: seq<nat>, d: nat, j: nat): (r: seq<nat>)
    requires d <= |idx|
    ensures |r| == |idx| + 1 && r[d] == j
    ensures forall i :: 0 <= i < d ==> r[i] == idx[i]
    ensures forall i :: d < i < |r| ==> r[i] == idx[i - 1]
  {
    idx[..d] + [j] + idx[d..]
  }

  /** Position of the first dimension with the given name. */
  function DimPosition(dims: seq<Dim>, name: string): (r: Option<nat>)
    ensures r.Some? ==> r.value < |dims| && dims[r.value].name == name
    ensures r.None? <==> !HasDim(dims, name)
  {
    if |dims| == 0 then None
    else if dims[0].name == name then Some(0)
    else
      var rest := DimPosition(dims[1..], name);
      assert forall d :: 1 <= d < |dims| ==> dims[d] == dims[1..][d - 1];
      if rest.Some? then Some(rest.value + 1) else None
  }

  /** Position of the label `b` among a dimension's coordinate labels. */
  function LabelPosition(coords: seq<Coord>, b: bool): (r: Option<nat>)
    ensures r.Some? ==> r.value < |coords| && coords[r.value] == BoolLabel(b)
    ensures r.None? <==> BoolLabel(b) !in coords
  {
    if |coords| == 0 then None
    else if coords[0] == BoolLabel(b) then Some(0)
    else
      var rest := LabelPosition(coords[1..], b);
      if rest.Some? then Some(rest.value + 1) else None
  }

  /** The dataset can be sliced at ctrl_switch=True and at ctrl_switch=False. */
  predicate Selectable(dims: seq<Dim>)
  {
    var d := DimPosition(dims, "ctrl_switch");
    d.Some? && LabelPosition(dims[d.value].coords, true).Some?
            && LabelPosition(dims[d.value].coords, false).Some?
  }

  lemma ShapeRemoveAt(dims: seq<Dim>, d: nat)
    requires d < |dims|
    ensures Shape(RemoveAt(dims, d)) == RemoveAt(Shape(dims), d)
  {
  }

  lemma InsertValid(idx: seq<nat>, shape: seq<nat>, d: nat, j: nat)
    requires d < |shape| && j < shape[d]
    requires ValidIndex(idx, RemoveAt(shape, d))
    ensures ValidIndex(InsertAt(idx, d, j), shape)
  {
  }

  /** Flat position, in the full array, of cell m of the slice at label position j of dimension d. */
  function SlicePosition(m: nat, shape: seq<nat>, d: nat, j: nat): (pos: nat)
    requires d < |shape| && j < shape[d] && m < Product(RemoveAt(shape, d))
    ensures pos < Product(shape)
  {
    var idx := Unravel(m, RemoveAt(shape, d));
    InsertValid(idx, shape, d, j);
    RavelBelow(InsertAt(idx, d, j), shape);
    Ravel(InsertAt(idx, d, j), shape)
  }

  /** The three derived maps, pointwise over the slices at label positions on and off of dimension d. */
  function Compose(fit: CosFitDataset, d: nat, on: nat, off: nat): (r: DiffMaps)
    requires WellFormed(fit) && d < |fit.dims|
    requires on < |fit.dims[d].coords| && off < |fit.dims[d].coords|
    ensures r.dims == RemoveAt(fit.dims, d)
    ensures |r.ratio| == |r.phiDiff| == |r.cDiff| == Product(Shape(r.dims))
  {
    var shape := Shape(fit.dims);
    ShapeRemoveAt(fit.dims, d);
    var n := Product(RemoveAt(shape, d));
    DiffMaps(RemoveAt(fit.dims, d),
      seq(n, m requires 0 <= m < n =>
        Div(fit.A[SlicePosition(m, shape, d, on)], fit.A[SlicePosition(m, shape, d, off)])),
      seq(n, m requires 0 <= m < n =>
        WrapPhase(Sub(fit.phi[SlicePosition(m, shape, d, on)], fit.phi[SlicePosition(m, shape, d, off)]))),
      seq(n, m requires 0 <= m < n =>
        Sub(fit.c[SlicePosition(m, shape, d, on)], fit.c[SlicePosition(m, shape, d, off)])))
  }

  /**
   * `plot_fit_results_diff_heatmap` (the arithmetic, not the drawing): A ratio,
   * wrapped phi difference and c difference between the ctrl_switch=True and
   * =False slices; selecting a missing ctrl_switch dimension or label raises.
   */
  function DiffHeatmap(fit: CosFitDataset): (r: Result<DiffMaps, FitError>)
    requires WellFormed(fit)
    ensures r.Failure? <==> !Selectable(fit.dims)
    ensures r.Success? ==> r.value == Compose(fit, DimPosition(fit.dims, "ctrl_switch").value,
      LabelPosition(fit.dims[DimPosition(fit.dims, "ctrl_switch").value].coords, true).value,
      LabelPosition(fit.dims[DimPosition(fit.dims, "ctrl_switch").value].coords, false).value)
  {
    var d := DimPosition(fit.dims, "ctrl_switch");
    if d.None? then Failure(CtrlNotSelectable)
    else
      var on := LabelPosition(fit.dims[d.value].coords, true);
      var off := LabelPosition(fit.dims[d.value].coords, false);
      if on.None? || off.None? then Failure(CtrlNotSelectable)
      else Success(Compose(fit, d.value, on.value, off.value))
  }

  /** The selected dimension and labels, when the ctrl_switch slices exist. */
  function CtrlDim(dims: seq<Dim>): (d: nat)
    requires Selectable(dims)
    ensures d < |dims| && dims[d].name == "ctrl_switch"
  {
    DimPosition(dims, "ctrl_switch").value
  }

  function OnLabel(dims: seq<Dim>): (j: nat)
    requires Selectable(dims)
    ensures j < |dims[CtrlDim(dims)].coords| && dims[CtrlDim(dims)].coords[j] == BoolLabel(true)
  {
    LabelPosition(dims[CtrlDim(dims)].coords, true).value
  }

  function OffLabel(dims: seq<Dim>): (j: nat)
    requires Selectable(dims)
    ensures j < |dims[CtrlDim(dims)].coords| && dims[CtrlDim(dims)].coords[j] == BoolLabel(false)
  {
    LabelPosition(dims[CtrlDim(dims)].coords, false).value
  }

  /**
   * The maps are pointwise over index tuples of the remaining dimensions: the
   * entry at `idx` combines the cells at `idx` with ctrl_switch=True and with
   * ctrl_switch=False inserted at the ctrl_switch axis.
   */
  lemma DiffHeatmapPointwise(fit: CosFitDataset, idx: seq<nat>)
    requires WellFormed(fit) && Selectable(fit.dims)
    requires ValidIndex(idx, Shape(RemoveAt(fit.dims, CtrlDim(fit.dims))))
    ensures DiffHeatmap(fit).Success?
    ensures
      var maps := DiffHeatmap(fit).value;
      var shape := Shape(fit.dims);
      var d := CtrlDim(fit.dims);
      var on := Ravel(InsertAt(idx, d, OnLabel(fit.dims)), shape);
      var off := Ravel(InsertAt(idx, d, OffLabel(fit.dims)), shape);
      var m := Ravel(idx, Shape(maps.dims));
      && m < |maps.ratio| && on < |fit.A| && off < |fit.A|
      && maps.ratio[m] == Div(fit.A[on], fit.A[off])
      && maps.phiDiff[m] == WrapPhase(Sub(fit.phi[on], fit.phi[off]))
      && maps.cDiff[m] == Sub(fit.c[on], fit.c[off])
  {
    var shape := Shape(fit.dims);
    var d := CtrlDim(fit.dims);
    ShapeRemoveAt(fit.dims, d);
    var rest := RemoveAt(shape, d);
    UnravelRavel(idx, rest);
    InsertValid(idx, shape, d, OnLabel(fit.dims));
    InsertValid(idx, shape, d, OffLabel(fit.dims));
    RavelBelow(InsertAt(idx, d, OnLabel(fit.dims)), shape);
    RavelBelow(InsertAt(idx, d, OffLabel(fit.dims)), shape);
  }

  /** A failed fit on either side makes all three derived entries NaN. */
  lemma DiffPropagatesFailure(fit: CosFitDataset, m: nat)
    requires WellFormed(fit) && Selectable(fit.dims)
    requires m < Product(RemoveAt(Shape(fit.dims), CtrlDim(fit.dims)))
    requires
      var shape := Shape(fit.dims);
      var d := CtrlDim(fit.dims);
      || CellAt(fit, SlicePosition(m, shape, d, OnLabel(fit.dims))) == Failed
      || CellAt(fit, SlicePosition(m, shape, d, OffLabel(fit.dims))) == Failed
    ensures
      var maps := DiffHeatmap(fit).value;
      && m < |maps.ratio|
      && maps.ratio[m] == NaN && maps.phiDiff[m] == NaN && maps.cDiff[m] == NaN
  {
    ShapeRemoveAt(fit.dims, CtrlDim(fit.dims));
  }

  /**
   * When every fitted phi lies in [-pi, pi] (as the fit bounds promise), the
   * difference lies in [-2pi, 2pi] and one wrap step brings it into [-pi, pi].
   */
  lemma DiffPhaseInRange(fit: CosFitDataset)
    requires WellFormed(fit) && Selectable(fit.dims)
    requires forall k :: 0 <= k < |fit.A| ==> Bounded(CellAt(fit, k))
    ensures
      var maps := DiffHeatmap(fit).value;
      forall m :: 0 <= m < |maps.phiDiff| ==>
        maps.phiDiff[m].NaN? || (maps.phiDiff[m].Finite? && -Pi <= maps.phiDiff[m].v <= Pi)
  {
    var maps := DiffHeatmap(fit).value;
    var shape := Shape(fit.dims);
    var d := CtrlDim(fit.dims);
    ShapeRemoveAt(fit.dims, d);
    forall m | 0 <= m < |maps.phiDiff|
      ensures maps.phiDiff[m].NaN? || (maps.phiDiff[m].Finite? && -Pi <= maps.phiDiff[m].v <= Pi)
    {
      var on := SlicePosition(m, shape, d, OnLabel(fit.dims));
      var off := SlicePosition(m, shape, d, OffLabel(fit.dims));
      BoundedDiff(CellAt(fit, on), CellAt(fit, off));
      assert maps.phiDiff[m] == WrapPhase(Sub(fit.phi[on], fit.phi[off]));
    }
  }

  /** Two bounded cells give a NaN or in-range wrapped phase difference. */
  lemma BoundedDiff(a: CosCell, b: CosCell)
    requires Bounded(a) && Bounded(b)
    ensures var w := WrapPhase(Sub(a.phi, b.phi)); w.NaN? || (w.Finite? && -Pi <= w.v <= Pi)
  {
  }

  /**
   * `plot_raw_data_with_fit` on the q1 slice: the fit followed by the
   * difference maps; whenever both succeed, every phase difference is NaN or
   * lies in [-pi, pi].
   */
  method FitAndDiff(da: StateData, solve: Solver) returns (r: Result<DiffMaps, FitError>)
    requires RespectsBounds(solve)
    ensures r.Failure? <==> !HasDim(da.dims, "basis") || |NonBasis(da.dims)| == 0 || !Selectable(NonBasis(da.dims))
    ensures r.Success? ==> forall m :: 0 <= m < |r.value.phiDiff| ==>
      r.value.phiDiff[m].NaN? || (r.value.phiDiff[m].Finite? && -Pi <= r.value.phiDiff[m].v <= Pi)
  {
    var fit := FitCosBasis(da, solve);
    if fit.Failure? {
      return Failure(fit.error);
    }
    r := DiffHeatmap(fit.value);
    if r.Success? {
      DiffPhaseInRange(fit.value);
    }
  }
}
