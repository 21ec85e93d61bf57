/**
 * calibrations/exclude/LCH_graph_ramsey_repeat.py: ten copies of the
 * same Ramsey measurement, run one after the other. The script assigns
 * t2_detuning and t2_max but writes other literals into the copies.
 */
module RamseyRepeatExcludedGraph {
  import opened GraphChain

  const RepeatTimes: nat := 10
  const T2Detuning: real := 0.5
  const T2Max: int := 10000

  function Ramsey(i: nat): Node
  {
    Node("LCH_Ramsey", map[
      "name" := StrV(Indexed("LCH_Ramsey_", i)),
      "multiplexed" := BoolV(true),
      "reset_type" := StrV("active"),
      "frequency_detuning_in_mhz" := RealV(0.4),
      "min_wait_time_in_ns" := IntV(16),
      "max_wait_time_in_ns" := IntV(40000),
      "wait_time_num_points" := IntV(100),
      "use_state_discrimination" := BoolV(true),
      "log_or_linear_sweep" := StrV("linear"),
      "num_shots" := IntV(1000)])
  }

  function Kinds(): seq<Kind>
  {
    [Kind((i: nat) => Indexed("LCH_Ramsey_", i), Ramsey)]
  }

  lemma KindsInjective(n: nat)
    ensures NamesInjective(Kinds(), 0, n)
  {
    IndexedKindsInjective(Kinds(), ["LCH_Ramsey_"], 0, n);
  }

  /**
   * The script's two loops: the `nodes` dict, and the `connectivity` list,
   * `for i in range(repeat_times - 1)` linking LCH_Ramsey_i to LCH_Ramsey_{i+1}.
   */
  method Build() returns (nodes: map<string, Node>, connectivity: seq<Edge>)
    ensures nodes == Built(map[], Kinds(), 0, RepeatTimes) && connectivity == Chain(Kinds(), 0, RepeatTimes - 1, RepeatTimes - 1)
  {
    nodes := AddNodes(map[], Kinds(), 0, RepeatTimes);
    connectivity := ConnectChain([], Kinds(), 0, RepeatTimes - 1, RepeatTimes - 1);
  }

  // The lemmas below hold for every repeat count n; the script runs n = RepeatTimes.

  /** The edges form one simple path through all nodes, so no two copies share a name. */
  lemma IsPath(n: nat)
    requires n >= 2
    ensures PathThrough(Built(map[], Kinds(), 0, n), Chain(Kinds(), 0, n - 1, n - 1), Order(Kinds(), 0, n))
  {
    KindsInjective(n);
    PairChainPath(Kinds(), n);
  }

  lemma PathEnds(n: nat)
    requires n >= 2
    ensures Order(Kinds(), 0, n)[0] == Indexed("LCH_Ramsey_", 0)
    ensures Order(Kinds(), 0, n)[|Order(Kinds(), 0, n)| - 1] == Indexed("LCH_Ramsey_", n - 1)
  {
  }

  lemma Endpoints(n: nat)
    requires n >= 2
    ensures EndpointsDefined(Built(map[], Kinds(), 0, n), Chain(Kinds(), 0, n - 1, n - 1))
  {
    KindsInjective(n);
    PairChainEndpoints(Kinds(), n);
  }

  lemma NodeCount(n: nat)
    ensures |Built(map[], Kinds(), 0, n)| == n
  {
    KindsInjective(n);
    BuiltCount(Kinds(), 0, n);
  }

  lemma EdgeCount(n: nat)
    requires n >= 2
    ensures |Chain(Kinds(), 0, n - 1, n - 1)| == n - 1
  {
    PairChainLength(Kinds(), n);
  }

  lemma Named(n: nat)
    ensures NamedAfterKey(Built(map[], Kinds(), 0, n))
  {
    KindsInjective(n);
    BuiltNamed(map[], Kinds(), 0, n);
  }

  /** The copies carry the literals 0.4 MHz and 40000 ns, which differ from t2_detuning and t2_max. */
  predicate IgnoresT2(n: Node)
  {
    && HasParam(n, "frequency_detuning_in_mhz", RealV(0.4)) && !HasParam(n, "frequency_detuning_in_mhz", RealV(T2Detuning))
    && HasParam(n, "max_wait_time_in_ns", IntV(40000)) && !HasParam(n, "max_wait_time_in_ns", IntV(T2Max))
  }

  lemma T2Unused(n: nat)
    ensures forall x :: x in Built(map[], Kinds(), 0, n) ==> IgnoresT2(Built(map[], Kinds(), 0, n)[x])
  {
    BuiltAll(map[], Kinds(), 0, n, IgnoresT2);
  }
}
