/**
 * calibrations/exclude/LCH_graph_ramsey_parity.py: fifty rounds of a
 * Ramsey measurement followed by a parity-switch Ramsey, chained round
 * after round.
 */
module RamseyParityGraph {
  import opened GraphChain

  const RepeatTimes: nat := 50

  function Ramsey(i: nat): Node
  {
    Node("LCH_Ramsey", map[
      "name" := StrV(Indexed("LCH_Ramsey_", i)),
      "reset_type" := StrV("active"),
      "frequency_detuning_in_mhz" := RealV(0.4),
      "min_wait_time_in_ns" := IntV(16),
      "max_wait_time_in_ns" := IntV(40000),
      "wait_time_num_points" := IntV(100),
      "use_state_discrimination" := BoolV(true),
      "log_or_linear_sweep" := StrV("linear"),
      "num_shots" := IntV(1000)])
  }

  function ParitySwitch(i: nat): Node
  {
    Node("LCH_parity_switch_ramsey", map[
      "name" := StrV(Indexed("LCH_parity_switch_ramsey_", i)),
      "reset_type" := StrV("thermal"),
      "use_state_discrimination" := BoolV(false),
      "max_idle_time_in_ns" := IntV(20000),
      "num_shots" := IntV(10000)])
  }

  function Kinds(): seq<Kind>
  {
    [Kind((i: nat) => Indexed("LCH_Ramsey_", i), Ramsey),
     Kind((i: nat) => Indexed("LCH_parity_switch_ramsey_", i), ParitySwitch)]
  }

  lemma KindsInjective(n: nat)
    ensures NamesInjective(Kinds(), 0, n)
  {
    var prefixes := ["LCH_Ramsey_", "LCH_parity_switch_ramsey_"];
    assert prefixes[0] != prefixes[1] by {
      assert prefixes[0][4] != prefixes[1][4];
    }
    IndexedKindsInjective(Kinds(), prefixes, 0, n);
  }

  /**
   * The script's two loops: the `nodes` dict, a Ramsey and a parity-switch
   * copy per round, and the `connectivity` list, with the guard
   * `i < repeat_times - 1`.
   */
  method Build() returns (nodes: map<string, Node>, connectivity: seq<Edge>)
    ensures nodes == Built(map[], Kinds(), 0, RepeatTimes) && connectivity == Chain(Kinds(), 0, RepeatTimes, RepeatTimes - 1)
  {
    nodes := AddNodes(map[], Kinds(), 0, RepeatTimes);
    connectivity := ConnectChain([], Kinds(), 0, RepeatTimes, RepeatTimes - 1);
  }

  // The lemmas below hold for every repeat count n; the script runs n = RepeatTimes.

  /** The edges form one simple path Ramsey_i → parity_i → Ramsey_{i+1} through all nodes. */
  lemma IsPath(n: nat)
    requires n >= 1
    ensures PathThrough(Built(map[], Kinds(), 0, n), Chain(Kinds(), 0, n, n - 1), Order(Kinds(), 0, n))
  {
    KindsInjective(n);
    GuardedChainPath(Kinds(), 0, n);
  }

  lemma PathEnds(n: nat)
    requires n >= 1
    ensures Order(Kinds(), 0, n)[0] == Indexed("LCH_Ramsey_", 0)
    ensures Order(Kinds(), 0, n)[|Order(Kinds(), 0, n)| - 1] == Indexed("LCH_parity_switch_ramsey_", n - 1)
  {
  }

  lemma Endpoints(n: nat)
    requires n >= 1
    ensures EndpointsDefined(Built(map[], Kinds(), 0, n), Chain(Kinds(), 0, n, n - 1))
  {
    KindsInjective(n);
    GuardedChainEndpoints(Kinds(), 0, n);
  }

  lemma NodeCount(n: nat)
    ensures |Built(map[], Kinds(), 0, n)| == 2 * n
  {
    KindsInjective(n);
    BuiltCount(Kinds(), 0, n);
  }

  lemma EdgeCount(n: nat)
    requires n >= 1
    ensures |Chain(Kinds(), 0, n, n - 1)| == 2 * n - 1
  {
    GuardedChainLength(Kinds(), 0, n);
  }

  lemma Named(n: nat)
    ensures NamedAfterKey(Built(map[], Kinds(), 0, n))
  {
    KindsInjective(n);
    BuiltNamed(map[], Kinds(), 0, n);
  }

  /** Ramsey copies reset actively and discriminate states; parity-switch copies reset thermally and do not. */
  predicate ResetRule(n: Node)
  {
    && (n.template == "LCH_Ramsey" ==>
          HasParam(n, "reset_type", StrV("active")) && HasParam(n, "use_state_discrimination", BoolV(true)))
    && (n.template == "LCH_parity_switch_ramsey" ==>
          HasParam(n, "reset_type", StrV("thermal")) && HasParam(n, "use_state_discrimination", BoolV(false)))
  }

  lemma ResetModes(n: nat)
    ensures forall x :: x in Built(map[], Kinds(), 0, n) ==> ResetRule(Built(map[], Kinds(), 0, n)[x])
  {
    BuiltAll(map[], Kinds(), 0, n, ResetRule);
  }
}
