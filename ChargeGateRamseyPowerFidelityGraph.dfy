/**
 * calibrations/offline_graph/LCH_graph_charge_gate_ramsey_power_fidelity.py:
 * for each of 41 gate charges from -0.5 V to 0.5 V, a Ramsey measurement
 * and a readout-power sweep at that charge, chained charge after charge.
 */
module ChargeGateRamseyPowerFidelityGraph {
  import opened Wrappers
  import opened NumpyArrays
  import opened GraphChain

  /** `repeat_times = len(charge_gate)`. */
  const RepeatTimes: nat := 41

  /** `charge_gate = linspace(-0.5, 0.5, 41)`. */
  function ChargeGate(): (r: seq<real>)
    ensures |r| == RepeatTimes && r[0] == -0.5 && r[RepeatTimes - 1] == 0.5
    ensures forall k :: 0 <= k < RepeatTimes - 1 ==> r[k + 1] - r[k] == 0.025
  {
    Linspace(-0.5, 0.5, 41).value
  }

  /** `charge_gate[i]`; the loops only ask for indices of the grid. */
  function Charge(i: nat): real
  {
    if i < |ChargeGate()| then ChargeGate()[i] else 0.0
  }

  function Ramsey(i: nat): Node
  {
    Node("LCH_const_charge_gate_ramsey", map[
      "name" := StrV(Indexed("LCH_const_charge_gate_ramsey_", i)),
      "frequency_detuning_in_mhz" := RealV(0.2),
      "min_wait_time_in_ns" := IntV(16),
      "max_wait_time_in_ns" := IntV(40000),
      "wait_time_num_points" := IntV(100),
      "use_state_discrimination" := BoolV(true),
      "multiplexed" := BoolV(true),
      "log_or_linear_sweep" := StrV("linear"),
      "reset_type" := StrV("active"),
      "num_shots" := IntV(200),
      "charge_gate_in_v" := RealV(Charge(i))])
  }

  function ReadoutPower(i: nat): Node
  {
    Node("LCH_const_charge_readout_power", map[
      "name" := StrV(Indexed("LCH_const_charge_readout_power_", i)),
      "multiplexed" := BoolV(true),
      "reset_type" := StrV("active"),
      "start_amp" := RealV(0.9),
      "end_amp" := RealV(1.9),
      "num_amps" := IntV(11),
      "num_shots" := IntV(500),
      "charge_gate_in_v" := RealV(Charge(i))])
  }

  function Kinds(): seq<Kind>
  {
    [Kind((i: nat) => Indexed("LCH_const_charge_gate_ramsey_", i), Ramsey),
     Kind((i: nat) => Indexed("LCH_const_charge_readout_power_", i), ReadoutPower)]
  }

  lemma KindsInjective(n: nat)
    ensures NamesInjective(Kinds(), 0, n)
  {
    var prefixes := ["LCH_const_charge_gate_ramsey_", "LCH_const_charge_readout_power_"];
    assert prefixes[0] != prefixes[1] by {
      assert prefixes[0][17] != prefixes[1][17];
    }
    IndexedKindsInjective(Kinds(), prefixes, 0, n);
  }

  /**
   * The script's two loops: the `nodes` dict, a Ramsey and a readout-power
   * copy per gate charge, and the `connectivity` list, with the guard
   * `i < repeat_times - 1`.
   */
  method Build() returns (nodes: map<string, Node>, connectivity: seq<Edge>)
    ensures nodes == Built(map[], Kinds(), 0, RepeatTimes) && connectivity == Chain(Kinds(), 0, RepeatTimes, RepeatTimes - 1)
  {
    nodes := AddNodes(map[], Kinds(), 0, RepeatTimes);
    connectivity := ConnectChain([], Kinds(), 0, RepeatTimes, RepeatTimes - 1);
  }

  // The lemmas below hold for every repeat count n; the script runs n = RepeatTimes.

  /** The edges form one simple path ramsey_i → power_i → ramsey_{i+1} through all nodes. */
  lemma IsPath(n: nat)
    requires n >= 1
    ensures PathThrough(Built(map[], Kinds(), 0, n), Chain(Kinds(), 0, n, n - 1), Order(Kinds(), 0, n))
  {
    KindsInjective(n);
    GuardedChainPath(Kinds(), 0, n);
  }

  lemma PathEnds(n: nat)
    requires n >= 1
    ensures Order(Kinds(), 0, n)[0] == Indexed("LCH_const_charge_gate_ramsey_", 0)
    ensures Order(Kinds(), 0, n)[|Order(Kinds(), 0, n)| - 1] == Indexed("LCH_const_charge_readout_power_", n - 1)
  {
  }

  lemma Endpoints(n: nat)
    requires n >= 1
    ensures EndpointsDefined(Built(map[], Kinds(), 0, n), Chain(Kinds(), 0, n, n - 1))
  {
    KindsInjective(n);
    GuardedChainEndpoints(Kinds(), 0, n);
  }

  lemma NodeCount(n: nat)
    ensures |Built(map[], Kinds(), 0, n)| == 2 * n
  {
    KindsInjective(n);
    BuiltCount(Kinds(), 0, n);
  }

  lemma EdgeCount(n: nat)
    requires n >= 1
    ensures |Chain(Kinds(), 0, n, n - 1)| == 2 * n - 1
  {
    GuardedChainLength(Kinds(), 0, n);
  }

  lemma Named(n: nat)
    ensures NamedAfterKey(Built(map[], Kinds(), 0, n))
  {
    KindsInjective(n);
    BuiltNamed(map[], Kinds(), 0, n);
  }

  /** Both copies of round i sit at the i-th gate charge of the grid. */
  lemma ChargeAt(n: nat, i: nat)
    requires i < n <= RepeatTimes
    ensures Indexed("LCH_const_charge_gate_ramsey_", i) in Built(map[], Kinds(), 0, n)
    ensures HasParam(Built(map[], Kinds(), 0, n)[Indexed("LCH_const_charge_gate_ramsey_", i)], "charge_gate_in_v", RealV(ChargeGate()[i]))
    ensures Indexed("LCH_const_charge_readout_power_", i) in Built(map[], Kinds(), 0, n)
    ensures HasParam(Built(map[], Kinds(), 0, n)[Indexed("LCH_const_charge_readout_power_", i)], "charge_gate_in_v", RealV(ChargeGate()[i]))
  {
    KindsInjective(n);
    BuiltAt(map[], Kinds(), 0, n, n, i, 0);
    BuiltAt(map[], Kinds(), 0, n, n, i, 1);
  }
}
