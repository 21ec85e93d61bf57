/**
 * calibrations/LCH_graph_ramsey_repeat.py: one hundred copies of the same
 * Ramsey measurement, run one after the other.
 */
module RamseyRepeatGraph {
  import opened GraphChain

  const RepeatTimes: nat := 100
  const T2Detuning: real := 0.2
  const T2Max: int := 40000

  function Ramsey(i: nat): Node
  {
    Node("LCH_Ramsey", map[
      "name" := StrV(Indexed("ramsey_", i)),
      "frequency_detuning_in_mhz" := RealV(T2Detuning),
      "min_wait_time_in_ns" := IntV(16),
      "max_wait_time_in_ns" := IntV(T2Max),
      "wait_time_num_points" := IntV(64),
      "use_state_discrimination" := BoolV(true),
      "log_or_linear_sweep" := StrV("linear"),
      "num_shots" := IntV(256)])
  }

  function Kinds(): seq<Kind>
  {
    [Kind((i: nat) => Indexed("ramsey_", i), Ramsey)]
  }

  lemma KindsInjective(n: nat)
    ensures NamesInjective(Kinds(), 0, n)
  {
    IndexedKindsInjective(Kinds(), ["ramsey_"], 0, n);
  }

  /**
   * The script's two loops: the `nodes` dict, and the `connectivity` list,
   * `for i in range(repeat_times - 1)` linking ramsey_i to ramsey_{i+1}.
   */
  method Build() returns (nodes: map<string, Node>, connectivity: seq<Edge>)
    ensures nodes == Built(map[], Kinds(), 0, RepeatTimes) && connectivity == Chain(Kinds(), 0, RepeatTimes - 1, RepeatTimes - 1)
  {
    nodes := AddNodes(map[], Kinds(), 0, RepeatTimes);
    connectivity := ConnectChain([], Kinds(), 0, RepeatTimes - 1, RepeatTimes - 1);
  }

  // The lemmas below hold for every repeat count n; the script runs n = RepeatTimes.

  /** The edges form one simple path through all nodes, in index order. */
  lemma IsPath(n: nat)
    requires n >= 2
    ensures PathThrough(Built(map[], Kinds(), 0, n), Chain(Kinds(), 0, n - 1, n - 1), Order(Kinds(), 0, n))
  {
    KindsInjective(n);
    PairChainPath(Kinds(), n);
  }

  lemma PathEnds(n: nat)
    requires n >= 2
    ensures Order(Kinds(), 0, n)[0] == Indexed("ramsey_", 0)
    ensures Order(Kinds(), 0, n)[|Order(Kinds(), 0, n)| - 1] == Indexed("ramsey_", n - 1)
  {
  }

  lemma Endpoints(n: nat)
    requires n >= 2
    ensures EndpointsDefined(Built(map[], Kinds(), 0, n), Chain(Kinds(), 0, n - 1, n - 1))
  {
    KindsInjective(n);
    PairChainEndpoints(Kinds(), n);
  }

  lemma NodeCount(n: nat)
    ensures |Built(map[], Kinds(), 0, n)| == n
  {
    KindsInjective(n);
    BuiltCount(Kinds(), 0, n);
  }

  lemma EdgeCount(n: nat)
    requires n >= 2
    ensures |Chain(Kinds(), 0, n - 1, n - 1)| == n - 1
  {
    PairChainLength(Kinds(), n);
  }

  lemma Named(n: nat)
    ensures NamedAfterKey(Built(map[], Kinds(), 0, n))
  {
    KindsInjective(n);
    BuiltNamed(map[], Kinds(), 0, n);
  }

  predicate UsesT2(n: Node)
  {
    HasParam(n, "frequency_detuning_in_mhz", RealV(T2Detuning)) && HasParam(n, "max_wait_time_in_ns", IntV(T2Max))
  }

  /** Every copy uses the script's t2_detuning and t2_max. */
  lemma SharedT2(n: nat)
    ensures forall x :: x in Built(map[], Kinds(), 0, n) ==> UsesT2(Built(map[], Kinds(), 0, n)[x])
  {
    BuiltAll(map[], Kinds(), 0, n, UsesT2);
  }
}
