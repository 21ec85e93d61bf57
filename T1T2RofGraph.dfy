/**
 * calibrations/exclude/LCH_graph_T1_T2_ROF.py: ten rounds of T1, Ramsey,
 * echo and readout fidelity, chained round after round.
 */
module T1T2RofGraph {
  import opened GraphChain

  const RepeatTimes: nat := 10

  function T1(i: nat): Node
  {
    Node("05_T1", map[
      "name" := StrV(Indexed("05_T1_", i)),
      "reset_type" := StrV("thermal"),
      "multiplexed" := BoolV(true),
      "use_state_discrimination" := BoolV(true),
      "min_wait_time_in_ns" := IntV(16),
      "max_wait_time_in_ns" := IntV(200000),
      "wait_time_num_points" := IntV(100),
      "log_or_linear_sweep" := StrV("log"),
      "num_shots" := IntV(200)])
  }

  function Ramsey(i: nat): Node
  {
    Node("LCH_Ramsey", map[
      "name" := StrV(Indexed("LCH_Ramsey_", i)),
      "reset_type" := StrV("thermal"),
      "multiplexed" := BoolV(true),
      "use_state_discrimination" := BoolV(true),
      "frequency_detuning_in_mhz" := RealV(0.2),
      "min_wait_time_in_ns" := IntV(16),
      "max_wait_time_in_ns" := IntV(20000),
      "wait_time_num_points" := IntV(100),
      "log_or_linear_sweep" := StrV("linear"),
      "num_shots" := IntV(200)])
  }

  function Echo(i: nat): Node
  {
    Node("06b_echo", map[
      "name" := StrV(Indexed("06b_echo_", i)),
      "reset_type" := StrV("thermal"),
      "multiplexed" := BoolV(true),
      "min_wait_time_in_ns" := IntV(16),
      "max_wait_time_in_ns" := IntV(200000),
      "wait_time_num_points" := IntV(100),
      "use_state_discrimination" := BoolV(true),
      "log_or_linear_sweep" := StrV("log"),
      "num_shots" := IntV(200)])
  }

  function ReadoutFidelity(i: nat): Node
  {
    Node("LCH_readout_fidelity", map[
      "name" := StrV(Indexed("LCH_readout_fidelity_", i)),
      "reset_type" := StrV("thermal"),
      "multiplexed" := BoolV(true),
      "num_shots" := IntV(10000)])
  }

  /** The loop body's four copies, in the order the script adds and chains them. */
  function Kinds(): seq<Kind>
  {
    [Kind((i: nat) => Indexed("05_T1_", i), T1),
     Kind((i: nat) => Indexed("LCH_Ramsey_", i), Ramsey),
     Kind((i: nat) => Indexed("06b_echo_", i), Echo),
     Kind((i: nat) => Indexed("LCH_readout_fidelity_", i), ReadoutFidelity)]
  }

  lemma KindsInjective(n: nat)
    ensures NamesInjective(Kinds(), 0, n)
  {
    var prefixes := ["05_T1_", "LCH_Ramsey_", "06b_echo_", "LCH_readout_fidelity_"];
    assert prefixes[0] != prefixes[2] by {
      assert prefixes[0][1] != prefixes[2][1];
    }
    IndexedKindsInjective(Kinds(), prefixes, 0, n);
  }

  /**
   * The script's two loops: the `nodes` dict, one copy of each kind per
   * round, and the `connectivity` list, with the guard `i < repeat_times - 1`.
   */
  method Build() returns (nodes: map<string, Node>, connectivity: seq<Edge>)
    ensures nodes == Built(map[], Kinds(), 0, RepeatTimes) && connectivity == Chain(Kinds(), 0, RepeatTimes, RepeatTimes - 1)
  {
    nodes := AddNodes(map[], Kinds(), 0, RepeatTimes);
    connectivity := ConnectChain([], Kinds(), 0, RepeatTimes, RepeatTimes - 1);
  }

  // The lemmas below hold for every repeat count n >= 1; the script runs n = RepeatTimes.

  /** The edges form one simple path T1_i → Ramsey_i → echo_i → readout_fidelity_i → T1_{i+1} through all nodes. */
  lemma IsPath(n: nat)
    requires n >= 1
    ensures PathThrough(Built(map[], Kinds(), 0, n), Chain(Kinds(), 0, n, n - 1), Order(Kinds(), 0, n))
  {
    KindsInjective(n);
    GuardedChainPath(Kinds(), 0, n);
  }

  /** The path runs from 05_T1_0 to LCH_readout_fidelity_{n-1}. */
  lemma PathEnds(n: nat)
    requires n >= 1
    ensures Order(Kinds(), 0, n)[0] == Indexed("05_T1_", 0)
    ensures Order(Kinds(), 0, n)[|Order(Kinds(), 0, n)| - 1] == Indexed("LCH_readout_fidelity_", n - 1)
  {
  }

  lemma Endpoints(n: nat)
    requires n >= 1
    ensures EndpointsDefined(Built(map[], Kinds(), 0, n), Chain(Kinds(), 0, n, n - 1))
  {
    KindsInjective(n);
    GuardedChainEndpoints(Kinds(), 0, n);
  }

  /** Four nodes per round. */
  lemma NodeCount(n: nat)
    ensures |Built(map[], Kinds(), 0, n)| == 4 * n
  {
    KindsInjective(n);
    BuiltCount(Kinds(), 0, n);
  }

  /** One edge fewer than nodes: the last round has no link to a next one. */
  lemma EdgeCount(n: nat)
    requires n >= 1
    ensures |Chain(Kinds(), 0, n, n - 1)| == 4 * n - 1
  {
    GuardedChainLength(Kinds(), 0, n);
  }

  lemma Named(n: nat)
    ensures NamedAfterKey(Built(map[], Kinds(), 0, n))
  {
    KindsInjective(n);
    BuiltNamed(map[], Kinds(), 0, n);
  }
}
