/**
 * calibrations/LCH_graph_charge_gate_fidelity.py: a readout-fidelity
 * measurement at each of 11 gate charges from -0.5 V to 0.5 V, run one
 * after the other. The script assigns t2_detuning and t2_max, which no
 * copy uses.
 */
module ChargeGateFidelityGraph {
  import opened Wrappers
  import opened NumpyArrays
  import opened GraphChain

  const T2Detuning: real := 0.5
  const T2Max: int := 20000

  /** `repeat_times = len(charge_gate)`. */
  const RepeatTimes: nat := 11

  /** `charge_gate = linspace(-0.5, 0.5, 11)`. */
  function ChargeGate(): (r: seq<real>)
    ensures |r| == RepeatTimes && r[0] == -0.5 && r[RepeatTimes - 1] == 0.5
    ensures forall k :: 0 <= k < RepeatTimes - 1 ==> r[k + 1] - r[k] == 0.1
  {
    Linspace(-0.5, 0.5, 11).value
  }

  /** `charge_gate[i]`; the loop only asks for indices of the grid. */
  function Charge(i: nat): real
  {
    if i < |ChargeGate()| then ChargeGate()[i] else 0.0
  }

  function ReadoutFidelity(i: nat): Node
  {
    Node("LCH_const_charge_readout_fidelity", map[
      "name" := StrV(Indexed("LCH_const_charge_readout_fidelity_", i)),
      "multiplexed" := BoolV(true),
      "reset_type" := StrV("active"),
      "num_shots" := IntV(5000),
      "charge_gate_in_v" := RealV(Charge(i))])
  }

  function Kinds(): seq<Kind>
  {
    [Kind((i: nat) => Indexed("LCH_const_charge_readout_fidelity_", i), ReadoutFidelity)]
  }

  lemma KindsInjective(n: nat)
    ensures NamesInjective(Kinds(), 0, n)
  {
    IndexedKindsInjective(Kinds(), ["LCH_const_charge_readout_fidelity_"], 0, n);
  }

  /**
   * The script's two loops: the `nodes` dict, one copy per gate charge,
   * and the `connectivity` list, `for i in range(repeat_times - 1)`
   * linking copy i to copy i + 1.
   */
  method Build() returns (nodes: map<string, Node>, connectivity: seq<Edge>)
    ensures nodes == Built(map[], Kinds(), 0, RepeatTimes) && connectivity == Chain(Kinds(), 0, RepeatTimes - 1, RepeatTimes - 1)
  {
    nodes := AddNodes(map[], Kinds(), 0, RepeatTimes);
    connectivity := ConnectChain([], Kinds(), 0, RepeatTimes - 1, RepeatTimes - 1);
  }

  // The lemmas below hold for every repeat count n; the script runs n = RepeatTimes.

  /** The edges form one simple path through all nodes, in charge order. */
  lemma IsPath(n: nat)
    requires n >= 2
    ensures PathThrough(Built(map[], Kinds(), 0, n), Chain(Kinds(), 0, n - 1, n - 1), Order(Kinds(), 0, n))
  {
    KindsInjective(n);
    PairChainPath(Kinds(), n);
  }

  lemma PathEnds(n: nat)
    requires n >= 2
    ensures Order(Kinds(), 0, n)[0] == Indexed("LCH_const_charge_readout_fidelity_", 0)
    ensures Order(Kinds(), 0, n)[|Order(Kinds(), 0, n)| - 1] == Indexed("LCH_const_charge_readout_fidelity_", n - 1)
  {
  }

  lemma Endpoints(n: nat)
    requires n >= 2
    ensures EndpointsDefined(Built(map[], Kinds(), 0, n), Chain(Kinds(), 0, n - 1, n - 1))
  {
    KindsInjective(n);
    PairChainEndpoints(Kinds(), n);
  }

  lemma NodeCount(n: nat)
    ensures |Built(map[], Kinds(), 0, n)| == n
  {
    KindsInjective(n);
    BuiltCount(Kinds(), 0, n);
  }

  lemma EdgeCount(n: nat)
    requires n >= 2
    ensures |Chain(Kinds(), 0, n - 1, n - 1)| == n - 1
  {
    PairChainLength(Kinds(), n);
  }

  lemma Named(n: nat)
    ensures NamedAfterKey(Built(map[], Kinds(), 0, n))
  {
    KindsInjective(n);
    BuiltNamed(map[], Kinds(), 0, n);
  }

  /**
   * Every copy resets actively and takes 5000 shots, and its keyword
   * arguments are exactly these five: no Ramsey detuning or wait time, so
   * t2_detuning and t2_max reach no node.
   */
  predicate FidelitySettings(n: Node)
  {
    && n.params.Keys == {"name", "multiplexed", "reset_type", "num_shots", "charge_gate_in_v"}
    && HasParam(n, "reset_type", StrV("active")) && HasParam(n, "num_shots", IntV(5000))
  }

  lemma Settings(n: nat)
    ensures forall x :: x in Built(map[], Kinds(), 0, n) ==> FidelitySettings(Built(map[], Kinds(), 0, n)[x])
  {
    BuiltAll(map[], Kinds(), 0, n, FidelitySettings);
  }

  /** Copy i sits at the i-th gate charge of the grid. */
  lemma ChargeAt(n: nat, i: nat)
    requires i < n <= RepeatTimes
    ensures Indexed("LCH_const_charge_readout_fidelity_", i) in Built(map[], Kinds(), 0, n)
    ensures HasParam(Built(map[], Kinds(), 0, n)[Indexed("LCH_const_charge_readout_fidelity_", i)], "charge_gate_in_v", RealV(ChargeGate()[i]))
  {
    KindsInjective(n);
    BuiltAt(map[], Kinds(), 0, n, n, i, 0);
  }
}
