/**
 * calibrations/offline_graph/LCH_graph_charge_gate_ramsey.py: a Ramsey
 * measurement at each of 21 gate charges from -0.5 V to 0.5 V, run one
 * after the other.
 */
module ChargeGateRamseyGraph {
  import opened Wrappers
  import opened NumpyArrays
  import opened GraphChain

  const T2Detuning: real := 0.25
  const T2Max: int := 80000

  /** `repeat_times = len(charge_gate)`. */
  const RepeatTimes: nat := 21

  /** `charge_gate = linspace(-0.5, 0.5, 21)`. */
  function ChargeGate(): (r: seq<real>)
    ensures |r| == RepeatTimes && r[0] == -0.5 && r[RepeatTimes - 1] == 0.5
    ensures forall k :: 0 <= k < RepeatTimes - 1 ==> r[k + 1] - r[k] == 0.05
  {
    Linspace(-0.5, 0.5, 21).value
  }

  /** `charge_gate[i]`; the loop only asks for indices of the grid. */
  function Charge(i: nat): real
  {
    if i < |ChargeGate()| then ChargeGate()[i] else 0.0
  }

  function Ramsey(i: nat): Node
  {
    Node("LCH_const_charge_gate_ramsey", map[
      "name" := StrV(Indexed("LCH_const_charge_gate_ramsey_", i)),
      "frequency_detuning_in_mhz" := RealV(T2Detuning),
      "min_wait_time_in_ns" := IntV(16),
      "max_wait_time_in_ns" := IntV(T2Max),
      "wait_time_num_points" := IntV(100),
      "use_state_discrimination" := BoolV(true),
      "multiplexed" := BoolV(true),
      "log_or_linear_sweep" := StrV("linear"),
      "reset_type" := StrV("thermal"),
      "num_shots" := IntV(200),
      "charge_gate_in_v" := RealV(Charge(i))])
  }

  function Kinds(): seq<Kind>
  {
    [Kind((i: nat) => Indexed("LCH_const_charge_gate_ramsey_", i), Ramsey)]
  }

  lemma KindsInjective(n: nat)
    ensures NamesInjective(Kinds(), 0, n)
  {
    IndexedKindsInjective(Kinds(), ["LCH_const_charge_gate_ramsey_"], 0, n);
  }

  /**
   * The script's two loops: the `nodes` dict, one copy per gate charge,
   * and the `connectivity` list, `for i in range(repeat_times - 1)`
   * linking copy i to copy i + 1.
   */
  method Build() returns (nodes: map<string, Node>, connectivity: seq<Edge>)
    ensures nodes == Built(map[], Kinds(), 0, RepeatTimes) && connectivity == Chain(Kinds(), 0, RepeatTimes - 1, RepeatTimes - 1)
  {
    nodes := AddNodes(map[], Kinds(), 0, RepeatTimes);
    connectivity := ConnectChain([], Kinds(), 0, RepeatTimes - 1, RepeatTimes - 1);
  }

  // The lemmas below hold for every repeat count n; the script runs n = RepeatTimes.

  /** The edges form one simple path through all nodes, in charge order. */
  lemma IsPath(n: nat)
    requires n >= 2
    ensures PathThrough(Built(map[], Kinds(), 0, n), Chain(Kinds(), 0, n - 1, n - 1), Order(Kinds(), 0, n))
  {
    KindsInjective(n);
    PairChainPath(Kinds(), n);
  }

  lemma PathEnds(n: nat)
    requires n >= 2
    ensures Order(Kinds(), 0, n)[0] == Indexed("LCH_const_charge_gate_ramsey_", 0)
    ensures Order(Kinds(), 0, n)[|Order(Kinds(), 0, n)| - 1] == Indexed("LCH_const_charge_gate_ramsey_", n - 1)
  {
  }

  lemma Endpoints(n: nat)
    requires n >= 2
    ensures EndpointsDefined(Built(map[], Kinds(), 0, n), Chain(Kinds(), 0, n - 1, n - 1))
  {
    KindsInjective(n);
    PairChainEndpoints(Kinds(), n);
  }

  lemma NodeCount(n: nat)
    ensures |Built(map[], Kinds(), 0, n)| == n
  {
    KindsInjective(n);
    BuiltCount(Kinds(), 0, n);
  }

  lemma EdgeCount(n: nat)
    requires n >= 2
    ensures |Chain(Kinds(), 0, n - 1, n - 1)| == n - 1
  {
    PairChainLength(Kinds(), n);
  }

  lemma Named(n: nat)
    ensures NamedAfterKey(Built(map[], Kinds(), 0, n))
  {
    KindsInjective(n);
    BuiltNamed(map[], Kinds(), 0, n);
  }

  predicate UsesT2(n: Node)
  {
    HasParam(n, "frequency_detuning_in_mhz", RealV(T2Detuning)) && HasParam(n, "max_wait_time_in_ns", IntV(T2Max))
  }

  /** Every copy uses the script's t2_detuning and t2_max. */
  lemma SharedT2(n: nat)
    ensures forall x :: x in Built(map[], Kinds(), 0, n) ==> UsesT2(Built(map[], Kinds(), 0, n)[x])
  {
    BuiltAll(map[], Kinds(), 0, n, UsesT2);
  }

  /** Copy i sits at the i-th gate charge of the grid. */
  lemma ChargeAt(n: nat, i: nat)
    requires i < n <= RepeatTimes
    ensures Indexed("LCH_const_charge_gate_ramsey_", i) in Built(map[], Kinds(), 0, n)
    ensures HasParam(Built(map[], Kinds(), 0, n)[Indexed("LCH_const_charge_gate_ramsey_", i)], "charge_gate_in_v", RealV(ChargeGate()[i]))
  {
    KindsInjective(n);
    BuiltAt(map[], Kinds(), 0, n, n, i, 0);
  }
}
