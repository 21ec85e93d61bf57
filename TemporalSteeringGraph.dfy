/**
 * calibrations/LCH_graph_TS.py: a temporal-steering measurement for each
 * of six prepared states, named by the state's label, run one after the
 * other.
 */
module TemporalSteeringGraph {
  import opened GraphChain

  /** `prepare`: the gate that prepares each state. */
  const Prepare: seq<string> := ["y90", "-y90", "-x90", "x90", "I", "x180"]

  /** `labels`: the name suffix of each state, paired with `prepare` by index. */
  const Labels: seq<string> := ["xp", "xm", "yp", "ym", "zp", "zm"]

  /** `range(len(prepare))`. */
  const RepeatTimes: nat := |Prepare|

  const Prefix: string := "LCH_temporal_steering_"

  /** `labels[i]`; the loops only ask for indices of the list. */
  function Label(i: nat): string
  {
    if i < |Labels| then Labels[i] else ""
  }

  /** `prepare[i]`. */
  function PrepareGate(i: nat): string
  {
    if i < |Prepare| then Prepare[i] else ""
  }

  /** f"LCH_temporal_steering_{labels[i]}". */
  function Name(i: nat): string
  {
    Prefix + Label(i)
  }

  function Steering(i: nat): Node
  {
    Node("LCH_temporal_steering", map[
      "name" := StrV(Name(i)),
      "multiplexed" := BoolV(false),
      "qubits" := ListV([StrV("q0")]),
      "reset_type" := StrV("active"),
      "use_state_discrimination" := BoolV(true),
      "num_shots" := IntV(10000),
      "prepare_gate" := StrV(PrepareGate(i)),
      "min_wait_time_in_ns" := IntV(16),
      "max_wait_time_in_ns" := IntV(32000),
      "wait_time_num_points" := IntV(100),
      "log_or_linear_sweep" := StrV("linear")])
  }

  function Kinds(): seq<Kind>
  {
    [Kind(Name, Steering)]
  }

  /** The six labels are distinct, so the six names are. */
  lemma KindsInjective(n: nat)
    requires n <= |Labels|
    ensures NamesInjective(Kinds(), 0, n)
  {
    assert forall a, b :: 0 <= a < b < |Labels| ==> Labels[a] != Labels[b];
    forall i1: nat, i2: nat | i1 < n && i2 < n && Name(i1) == Name(i2)
      ensures i1 == i2
    {
      assert Label(i1) == Name(i1)[|Prefix|..];
      assert Label(i2) == Name(i2)[|Prefix|..];
    }
  }

  /**
   * The script's two loops: the `nodes` dict, one copy per state, and the
   * `connectivity` list, `for i in range(len(prepare) - 1)` linking copy i
   * to copy i + 1.
   */
  method Build() returns (nodes: map<string, Node>, connectivity: seq<Edge>)
    ensures nodes == Built(map[], Kinds(), 0, RepeatTimes) && connectivity == Chain(Kinds(), 0, RepeatTimes - 1, RepeatTimes - 1)
  {
    nodes := AddNodes(map[], Kinds(), 0, RepeatTimes);
    connectivity := ConnectChain([], Kinds(), 0, RepeatTimes - 1, RepeatTimes - 1);
  }

  // The lemmas below hold for the first n states; the script takes all six.

  /** The edges form one simple path through all nodes, in label order. */
  lemma IsPath(n: nat)
    requires 2 <= n <= RepeatTimes
    ensures PathThrough(Built(map[], Kinds(), 0, n), Chain(Kinds(), 0, n - 1, n - 1), Order(Kinds(), 0, n))
  {
    KindsInjective(n);
    PairChainPath(Kinds(), n);
  }

  lemma PathEnds(n: nat)
    requires 2 <= n <= RepeatTimes
    ensures Order(Kinds(), 0, n)[0] == Prefix + Labels[0]
    ensures Order(Kinds(), 0, n)[|Order(Kinds(), 0, n)| - 1] == Prefix + Labels[n - 1]
  {
  }

  lemma Endpoints(n: nat)
    requires 2 <= n <= RepeatTimes
    ensures EndpointsDefined(Built(map[], Kinds(), 0, n), Chain(Kinds(), 0, n - 1, n - 1))
  {
    KindsInjective(n);
    PairChainEndpoints(Kinds(), n);
  }

  /** One node per label: the labels are distinct, so none overwrites another. */
  lemma NodeCount(n: nat)
    requires n <= RepeatTimes
    ensures |Built(map[], Kinds(), 0, n)| == n
  {
    KindsInjective(n);
    BuiltCount(Kinds(), 0, n);
  }

  lemma EdgeCount(n: nat)
    requires 2 <= n <= RepeatTimes
    ensures |Chain(Kinds(), 0, n - 1, n - 1)| == n - 1
  {
    PairChainLength(Kinds(), n);
  }

  lemma Named(n: nat)
    requires n <= RepeatTimes
    ensures NamedAfterKey(Built(map[], Kinds(), 0, n))
  {
    KindsInjective(n);
    BuiltNamed(map[], Kinds(), 0, n);
  }

  /** The copy named after labels[i] prepares its state with prepare[i]. */
  lemma PrepareAt(n: nat, i: nat)
    requires i < n <= RepeatTimes
    ensures Prefix + Labels[i] in Built(map[], Kinds(), 0, n)
    ensures HasParam(Built(map[], Kinds(), 0, n)[Prefix + Labels[i]], "prepare_gate", StrV(Prepare[i]))
  {
    KindsInjective(n);
    BuiltAt(map[], Kinds(), 0, n, n, i, 0);
  }

  /** Every copy runs non-multiplexed on qubit q0. */
  predicate OnQ0(n: Node)
  {
    HasParam(n, "multiplexed", BoolV(false)) && HasParam(n, "qubits", ListV([StrV("q0")]))
  }

  lemma SingleQubit(n: nat)
    ensures forall x :: x in Built(map[], Kinds(), 0, n) ==> OnQ0(Built(map[], Kinds(), 0, n)[x])
  {
    BuiltAll(map[], Kinds(), 0, n, OnQ0);
  }
}
