/**
 * The numpy array builders the calibration scripts rely on: `np.arange` over
 * integers, `np.linspace`, `max`/`min` of a 1-D array, and the row-major
 * enumeration of an n-dimensional index space (`np.indices(shape)` flattened,
 * and the flat position of an index tuple in a C-ordered array).
 */
module NumpyArrays {
  import opened Wrappers

  datatype ArrayError =
    | ZeroStep        // np.arange with step 0 raises ZeroDivisionError
    | NegativeCount   // np.linspace with a negative sample count raises ValueError
    | EmptyArray      // max()/min() of an empty array raises ValueError

  /** Number of entries `np.arange(start, stop, step)` produces: ceil((stop - start) / step), or 0. */
  function ArangeLength(start: int, stop: int, step: int): nat
    requires step != 0
  {
    if step > 0 then (if stop > start then (stop - start + step - 1) / step else 0)
    else (if start > stop then (start - stop - step - 1) / (-step) else 0)
  }

  /** `a <= b` is preserved by multiplying both sides with a non-negative factor. */
  lemma MulMonotone(a: int, b: int, c: int)
    ensures c >= 0 && a <= b ==> a * c <= b * c
  {
    if c >= 0 && a <= b {
      assert b * c - a * c == (b - a) * c;
    }
  }

  /** Euclidean division is determined by quotient and remainder. */
  lemma DivUnique(d: int, s: int, q: int, r: int)
    requires s > 0 && d == q * s + r && 0 <= r < s
    ensures d / s == q && d % s == r
  {
    var q', r' := d / s, d % s;
    assert d == q' * s + r' && 0 <= r' < s;
    MulMonotone(q' + 1, q, s);
    MulMonotone(q + 1, q', s);
    assert (q' + 1) * s == q' * s + s;
    assert (q + 1) * s == q * s + s;
  }

  lemma DivStep(d: int, s: int)
    requires s > 0
    ensures (d + s) / s == d / s + 1
  {
    assert d == (d / s) * s + d % s;
    assert d + s == (d / s + 1) * s + d % s;
    DivUnique(d + s, s, d / s + 1, d % s);
  }

  lemma ArangeLengthStep(start: int, stop: int, step: int)
    requires step != 0
    requires if step > 0 then start < stop else start > stop
    ensures ArangeLength(start, stop, step) == ArangeLength(start + step, stop, step) + 1
  {
    if step > 0 {
      CeilStep(stop - start, step);
    } else {
      CeilStep(start - stop, -step);
    }
  }

  /** ceil(g / s) drops by one when the gap g > 0 shrinks by s. */
  lemma CeilStep(g: int, s: int)
    requires s > 0 && g > 0
    ensures (g + s - 1) / s == (if g - s > 0 then (g - s + s - 1) / s else 0) + 1
  {
    DivStep(g - 1, s);
    if g - s <= 0 {
      assert 0 <= g - 1 < s;
      DivUnique(g - 1, s, 0, g - 1);
    }
  }

  /** The integer sequence start, start+step, ... strictly before stop (past it when step < 0). */
  function ArangeFrom(start: int, stop: int, step: int): (r: seq<int>)
    requires step != 0
    ensures |r| == ArangeLength(start, stop, step)
    ensures forall k :: 0 <= k < |r| ==> r[k] == start + k * step
    decreases if step > 0 then stop - start else start - stop
  {
    if (step > 0 && start < stop) || (step < 0 && start > stop) then
      ArangeLengthStep(start, stop, step);
      var rest := ArangeFrom(start + step, stop, step);
      assert forall k :: 1 <= k < |rest| + 1 ==> rest[k - 1] == start + k * step;
      [start] + rest
    else
      []
  }

  /** `np.arange(start, stop, step)` for integer arguments. */
  function Arange(start: int, stop: int, step: int): (r: Result<seq<int>, ArrayError>)
    ensures r.Failure? <==> step == 0
    ensures r.Failure? ==> r.error == ZeroStep
    ensures r.Success? ==> |r.value| == ArangeLength(start, stop, step)
    ensures r.Success? ==> forall k :: 0 <= k < |r.value| ==> r.value[k] == start + k * step
  {
    if step == 0 then Failure(ZeroStep) else Success(ArangeFrom(start, stop, step))
  }

  /** Every entry of a successful arange lies on the half-open interval [start, stop) when step > 0. */
  lemma ArangeWithin(start: int, stop: int, step: int)
    requires step > 0
    ensures forall k :: 0 <= k < |Arange(start, stop, step).value| ==>
      start <= Arange(start, stop, step).value[k] < stop
  {
    var r := Arange(start, stop, step).value;
    forall k | 0 <= k < |r| ensures start <= r[k] < stop {
      var n := |r|;
      assert n == (stop - start + step - 1) / step;
      assert k * step <= (n - 1) * step by {
        assert k <= n - 1;
      }
      assert (n - 1) * step < stop - start by {
        var s := stop - start + step - 1;
        assert n * step <= s;
      }
    }
  }

  /**
   * `np.linspace(start, stop, num)` with the default `endpoint=True`: `num` evenly
   * spaced samples, the first `start` and (for num >= 2) the last `stop`.
   */
  function Linspace(start: real, stop: real, num: int): (r: Result<seq<real>, ArrayError>)
    ensures r.Failure? <==> num < 0
    ensures r.Success? ==> |r.value| == num
    ensures r.Success? && num >= 1 ==> r.value[0] == start
    ensures r.Success? && num >= 2 ==> r.value[num - 1] == stop
    ensures r.Success? && num >= 2 ==> forall k :: 0 <= k < num - 1 ==>
      r.value[k + 1] - r.value[k] == (stop - start) / (num - 1) as real
  {
    if num < 0 then Failure(NegativeCount)
    else if num == 1 then Success([start])
    else
      var step := if num >= 2 then (stop - start) / (num - 1) as real else 0.0;
      var s := seq(num, k requires 0 <= k < num => if k == num - 1 then stop else start + k as real * step);
      assert num >= 2 ==> s[num - 1] == start + (num - 1) as real * step;
      Success(s)
  }

  /** Largest entry of `a`; the array must be non-empty. */
  function MaxOf(a: seq<real>): (m: real)
    requires |a| > 0
    ensures forall k :: 0 <= k < |a| ==> a[k] <= m
    ensures exists k :: 0 <= k < |a| && a[k] == m
  {
    if |a| == 1 then a[0]
    else
      var rest := MaxOf(a[1..]);
      assert forall k :: 1 <= k < |a| ==> a[k] == a[1..][k - 1];
      if a[0] >= rest then a[0] else rest
  }

  /** Smallest entry of `a`; the array must be non-empty. */
  function MinOf(a: seq<real>): (m: real)
    requires |a| > 0
    ensures forall k :: 0 <= k < |a| ==> m <= a[k]
    ensures exists k :: 0 <= k < |a| && a[k] == m
  {
    if |a| == 1 then a[0]
    else
      var rest := MinOf(a[1..]);
      assert forall k :: 1 <= k < |a| ==> a[k] == a[1..][k - 1];
      if a[0] <= rest then a[0] else rest
  }

  /** `a.max()`, which raises on an empty array. */
  function ArrayMax(a: seq<real>): (r: Result<real, ArrayError>)
    ensures r.Failure? <==> |a| == 0
    ensures r.Success? ==> r.value == MaxOf(a)
  {
    if |a| == 0 then Failure(EmptyArray) else Success(MaxOf(a))
  }

  /** `a.min()`, which raises on an empty array. */
  function ArrayMin(a: seq<real>): (r: Result<real, ArrayError>)
    ensures r.Failure? <==> |a| == 0
    ensures r.Success? ==> r.value == MinOf(a)
  {
    if |a| == 0 then Failure(EmptyArray) else Success(MinOf(a))
  }

  // ---------------------------------------------------------------------
  // Row-major (C order) index space of an n-dimensional array
  // ---------------------------------------------------------------------

  /** Number of cells of an array of the given shape. */
  function Product(shape: seq<nat>): nat
  {
    if |shape| == 0 then 1 else shape[0] * Product(shape[1..])
  }

  /** `idx` addresses a cell of an array of this shape. */
  predicate ValidIndex(idx: seq<nat>, shape: seq<nat>)
  {
    |idx| == |shape| && forall d :: 0 <= d < |idx| ==> idx[d] < shape[d]
  }

  /** Flat row-major position of the cell `idx` (what `arr[tuple(idx)]` addresses). */
  function Ravel(idx: seq<nat>, shape: seq<nat>): nat
    requires |idx| == |shape|
  {
    if |idx| == 0 then 0 else idx[0] * Product(shape[1..]) + Ravel(idx[1..], shape[1..])
  }

  lemma MulBelow(i: nat, p: nat, n: nat, r: nat)
    requires i < n && r < p
    ensures i * p + r < n * p
  {
    assert i * p + r < i * p + p == (i + 1) * p;
    assert (i + 1) * p <= n * p by {
      assert i + 1 <= n;
    }
  }

  lemma RavelBelow(idx: seq<nat>, shape: seq<nat>)
    requires ValidIndex(idx, shape)
    ensures Ravel(idx, shape) < Product(shape)
  {
    if |idx| > 0 {
      assert ValidIndex(idx[1..], shape[1..]) by {
        forall d | 0 <= d < |idx| - 1 ensures idx[1..][d] < shape[1..][d] {
          assert idx[1..][d] == idx[d + 1];
        }
      }
      RavelBelow(idx[1..], shape[1..]);
      MulBelow(idx[0], Product(shape[1..]), shape[0], Ravel(idx[1..], shape[1..]));
    }
  }

  /** The index tuple at flat row-major position k: entry k of `np.indices(shape).reshape(len(shape), -1).T`. */
  function Unravel(k: nat, shape: seq<nat>): (idx: seq<nat>)
    requires k < Product(shape)
    ensures ValidIndex(idx, shape)
  {
    if |shape| == 0 then []
    else
      var p := Product(shape[1..]);
      UnravelHead(k, shape[0], p);
      Prepend(k / p, Unravel(k % p, shape[1..]), shape)
  }

  /** The leading coordinate and the remainder of a position below n * p are in range. */
  lemma UnravelHead(k: nat, n: nat, p: nat)
    requires k < n * p
    ensures p > 0 && k / p < n && k % p < p
  {
    PositiveFactor(n, p);
    DivBelow(k, p, n);
  }

  /** The index tuple with leading coordinate i followed by rest. */
  function Prepend(i: nat, rest: seq<nat>, shape: seq<nat>): (idx: seq<nat>)
    requires |shape| > 0 && i < shape[0] && ValidIndex(rest, shape[1..])
    ensures ValidIndex(idx, shape) && idx[0] == i && idx[1..] == rest
  {
    assert forall d :: 1 <= d < |shape| ==> ([i] + rest)[d] == rest[d - 1];
    [i] + rest
  }

  lemma PositiveFactor(a: nat, p: nat)
    ensures a * p > 0 ==> p > 0
  {
    if p == 0 {
      assert a * p == 0;
    }
  }

  lemma DivBelow(k: nat, p: nat, n: nat)
    requires p > 0 && k < n * p
    ensures k / p < n
  {
    assert (k / p) * p <= k;
    MulMonotone(n, k / p, p);
  }

  /** Unravel is a left inverse of Ravel: each valid index tuple is visited exactly once. */
  lemma {:induction false} UnravelRavel(idx: seq<nat>, shape: seq<nat>)
    requires ValidIndex(idx, shape)
    ensures Ravel(idx, shape) < Product(shape)
    ensures Unravel(Ravel(idx, shape), shape) == idx
  {
    RavelBelow(idx, shape);
    if |idx| > 0 {
      var p := Product(shape[1..]);
      var tail := Ravel(idx[1..], shape[1..]);
      assert ValidIndex(idx[1..], shape[1..]) by {
        forall d | 0 <= d < |idx| - 1 ensures idx[1..][d] < shape[1..][d] {
          assert idx[1..][d] == idx[d + 1];
        }
      }
      RavelBelow(idx[1..], shape[1..]);
      var k := idx[0] * p + tail;
      assert k / p == idx[0] && k % p == tail by {
        DivMod(idx[0], p, tail);
      }
      UnravelRavel(idx[1..], shape[1..]);
      assert Unravel(k, shape) == [idx[0]] + idx[1..];
    }
  }

  lemma DivMod(q: nat, p: nat, r: nat)
    requires r < p
    ensures (q * p + r) / p == q && (q * p + r) % p == r
  {
    DivUnique(q * p + r, p, q, r);
  }

  /** Ravel is a left inverse of Unravel: the loop over flat positions writes position k at step k. */
  lemma {:induction false} RavelUnravel(k: nat, shape: seq<nat>)
    requires k < Product(shape)
    ensures Ravel(Unravel(k, shape), shape) == k
  {
    if |shape| > 0 {
      var p := Product(shape[1..]);
      UnravelHead(k, shape[0], p);
      var q, r := k / p, k % p;
      var rest := Unravel(r, shape[1..]);
      var idx := Prepend(q, rest, shape);
      assert Unravel(k, shape) == idx;
      RavelUnravel(r, shape[1..]);
      assert Ravel(idx, shape) == q * p + Ravel(rest, shape[1..]);
      DivSplit(k, p);
    }
  }

  lemma DivSplit(k: nat, p: nat)
    requires p > 0
    ensures k == (k / p) * p + k % p
  {
  }
}
