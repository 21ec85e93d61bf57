/**
 * calibrations/offline_graph/LCH_graph_charge_gate_r_rp.py: 21 rounds of
 * a charge-gate Ramsey measurement followed by a charge-gate
 * readout-power sweep, linked round after round with no guard, and a last
 * Ramsey copy added after the loop so that the final link has a target.
 */
module ChargeGateRRpGraph {
  import opened GraphChain

  const RepeatTimes: nat := 21

  function Ramsey(i: nat): Node
  {
    Node("LCH_charge_gate_ramsey", map[
      "reset_type" := StrV("active"),
      "frequency_detuning_in_mhz" := RealV(0.25),
      "min_wait_time_in_ns" := IntV(16),
      "max_wait_time_in_ns" := IntV(80000),
      "wait_time_num_points" := IntV(100),
      "use_state_discrimination" := BoolV(true),
      "charge_gate_start_in_v" := RealV(-0.5),
      "charge_gate_end_in_v" := RealV(0.5),
      "charge_gate_step_in_v" := RealV(0.1),
      "log_or_linear_sweep" := StrV("linear"),
      "num_shots" := IntV(200),
      "name" := StrV(Indexed("LCH_charge_gate_ramsey_", i))])
  }

  function ReadoutPower(i: nat): Node
  {
    Node("LCH_charge_gate_readout_power", map[
      "reset_type" := StrV("active"),
      "start_amp" := RealV(0.2),
      "end_amp" := RealV(1.9),
      "num_amps" := IntV(35),
      "charge_gate_start_in_v" := RealV(-0.5),
      "charge_gate_end_in_v" := RealV(0.5),
      "charge_gate_step_in_v" := RealV(0.005),
      "prepared_states" := ListV([IntV(1)]),
      "num_shots" := IntV(100),
      "name" := StrV(Indexed("LCH_charge_gate_readout_power_", i))])
  }

  /** The copy the script adds after the loop, written out again in full. */
  function TerminalRamsey(n: nat): Node
  {
    Node("LCH_charge_gate_ramsey", map[
      "reset_type" := StrV("active"),
      "frequency_detuning_in_mhz" := RealV(0.25),
      "min_wait_time_in_ns" := IntV(16),
      "max_wait_time_in_ns" := IntV(80000),
      "wait_time_num_points" := IntV(100),
      "use_state_discrimination" := BoolV(true),
      "charge_gate_start_in_v" := RealV(-0.5),
      "charge_gate_end_in_v" := RealV(0.5),
      "charge_gate_step_in_v" := RealV(0.1),
      "log_or_linear_sweep" := StrV("linear"),
      "num_shots" := IntV(200),
      "name" := StrV(Indexed("LCH_charge_gate_ramsey_", n))])
  }

  function Kinds(): seq<Kind>
  {
    [Kind((i: nat) => Indexed("LCH_charge_gate_ramsey_", i), Ramsey),
     Kind((i: nat) => Indexed("LCH_charge_gate_readout_power_", i), ReadoutPower)]
  }

  lemma KindsInjective(n: nat)
    ensures NamesInjective(Kinds(), 0, n)
  {
    var prefixes := ["LCH_charge_gate_ramsey_", "LCH_charge_gate_readout_power_"];
    assert prefixes[0] != prefixes[1] by {
      assert prefixes[0][17] != prefixes[1][17];
    }
    IndexedKindsInjective(Kinds(), prefixes, 0, n);
  }

  /** The dict after the loop over range(n) and the terminal assignment for index n. */
  function WithTerminal(loop: map<string, Node>, n: nat): map<string, Node>
  {
    loop[Indexed("LCH_charge_gate_ramsey_", n) := TerminalRamsey(n)]
  }

  /** The assignment after the loop: the ramsey copy for index n. */
  method AddTerminal(loop: map<string, Node>, n: nat) returns (nodes: map<string, Node>)
    ensures nodes == WithTerminal(loop, n)
  {
    nodes := loop[Indexed("LCH_charge_gate_ramsey_", n) := TerminalRamsey(n)];
  }

  /**
   * The script's three steps: the loop filling `nodes`, the terminal
   * ramsey copy for index repeat_times, and the `connectivity` loop, whose
   * guard is commented out, so every round links to the next.
   */
  method Build() returns (nodes: map<string, Node>, connectivity: seq<Edge>)
    ensures nodes == WithTerminal(Built(map[], Kinds(), 0, RepeatTimes), RepeatTimes) && connectivity == Chain(Kinds(), 0, RepeatTimes, RepeatTimes)
  {
    var loop := AddNodes(map[], Kinds(), 0, RepeatTimes);
    nodes := AddTerminal(loop, RepeatTimes);
    connectivity := ConnectChain([], Kinds(), 0, RepeatTimes, RepeatTimes);
  }

  // The lemmas below hold for every repeat count n >= 1; the script runs n = RepeatTimes.

  /** The terminal node carries the same arguments as a loop copy for its index would. */
  lemma TerminalIsCopy(n: nat)
    ensures TerminalRamsey(n) == Ramsey(n)
  {
  }

  /** The edges form one simple path ramsey_0 → power_0 → ramsey_1 → … → power_{n-1} → ramsey_n. */
  lemma IsPath(n: nat)
    requires n >= 1
    ensures PathThrough(WithTerminal(Built(map[], Kinds(), 0, n), n), Chain(Kinds(), 0, n, n), Order(Kinds(), 0, n) + [Indexed("LCH_charge_gate_ramsey_", n)])
  {
    KindsInjective(n + 1);
    TerminalChainPath(Kinds(), 0, n, TerminalRamsey(n));
  }

  lemma PathEnds(n: nat)
    requires n >= 1
    ensures (Order(Kinds(), 0, n) + [Indexed("LCH_charge_gate_ramsey_", n)])[0] == Indexed("LCH_charge_gate_ramsey_", 0)
  {
  }

  /** The terminal copy gives the last link its target, so every endpoint is a node. */
  lemma Endpoints(n: nat)
    requires n >= 1
    ensures EndpointsDefined(WithTerminal(Built(map[], Kinds(), 0, n), n), Chain(Kinds(), 0, n, n))
  {
    KindsInjective(n + 1);
    TerminalChainEndpoints(Kinds(), 0, n, TerminalRamsey(n));
  }

  /** 2·n loop copies and the terminal one. */
  lemma NodeCount(n: nat)
    ensures |WithTerminal(Built(map[], Kinds(), 0, n), n)| == 2 * n + 1
  {
    KindsInjective(n + 1);
    TerminalNodeCount(Kinds(), 0, n, TerminalRamsey(n));
  }

  /** Exactly two edges per round. */
  lemma EdgeCount(n: nat)
    requires n >= 1
    ensures |Chain(Kinds(), 0, n, n)| == 2 * n
  {
    TerminalChainLength(Kinds(), 0, n);
  }

  lemma Named(n: nat)
    ensures NamedAfterKey(WithTerminal(Built(map[], Kinds(), 0, n), n))
  {
    KindsInjective(n);
    BuiltNamed(map[], Kinds(), 0, n);
    NamedUpdate(Built(map[], Kinds(), 0, n), Indexed("LCH_charge_gate_ramsey_", n), TerminalRamsey(n));
  }
}
