/**
 * `scipy.optimize.curve_fit` as the plotting modules use it: an opaque bounded
 * least-squares solver. The model keeps only its contract: given a model, the
 * data, an initial guess and per-parameter bounds, it either raises (None) or
 * returns one parameter per entry of the guess, each within its bounds.
 */
module CurveFit {
  import opened Wrappers
  import opened Floats

  /** The model function handed to the solver. */
  datatype FitModel =
    | Cosine    // A * cos(2*pi*x + phi) + c, parameters (A, phi, c)
    | ExpDecay  // a * exp(-t / tau) + offset, parameters (a, offset, tau)

  /** One call `curve_fit(model, x, y, p0=p0, bounds=(lower, upper))`. */
  datatype FitRequest = FitRequest(model: FitModel, x: seq<real>, y: seq<real>,
                                   p0: seq<real>, lower: seq<Float>, upper: seq<Float>)

  /** A solver answers a request with the optimal parameters, or None when it raises. */
  type Solver = FitRequest -> Option<seq<real>>

  /** `lo <= v` for a bound that may be minus infinity. */
  predicate AtLeast(v: real, lo: Float)
  {
    match lo
    case Finite(b) => b <= v
    case NegInf => true
    case _ => false
  }

  /** `v <= hi` for a bound that may be plus infinity. */
  predicate AtMost(v: real, hi: Float)
  {
    match hi
    case Finite(b) => v <= b
    case PosInf => true
    case _ => false
  }

  /** `p` has one entry per initial-guess entry and lies on the box the bounds describe. */
  predicate WithinBounds(req: FitRequest, p: seq<real>)
  {
    && |p| == |req.p0| == |req.lower| == |req.upper|
    && forall i :: 0 <= i < |p| ==> AtLeast(p[i], req.lower[i]) && AtMost(p[i], req.upper[i])
  }

  /** What the model assumes of curve_fit: whatever it returns respects the declared bounds. */
  ghost predicate RespectsBounds(solve: Solver)
  {
    forall req :: solve(req).Some? ==> WithinBounds(req, solve(req).value)
  }

  /**
   * The curve_fit call both CZ analyses make for one trace: the model
   * A·cos(2πx + φ) + c with the fixed guess (0.5, 0, 0.5), whatever the data,
   * and the bounds A >= 0, -π <= φ <= π, c free. The guess is feasible.
   */
  function CosineRequest(x: seq<real>, y: seq<real>): (req: FitRequest)
    ensures req.model == Cosine && req.x == x && req.y == y
    ensures WithinBounds(req, req.p0)
  {
    FitRequest(Cosine, x, y, [0.5, 0.0, 0.5], [Finite(0.0), Finite(-Pi), NegInf], [PosInf, Finite(Pi), PosInf])
  }
}
