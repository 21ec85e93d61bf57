/**
 * calibrations/exclude/retuning_graph_t2_repeat.py: a node closing the
 * other quantum machines, then pairs of T1 and long Ramsey measurements
 * on qubit q0 for i in range(1, 321), chained pair after pair.
 *
 * The script's guard on the link to the next pair, `i < 321`, holds for
 * every index of the loop, so the last pair links to a T1_321 that is
 * never created. `BuildAsWritten` models the script as it stands and
 * `DanglingEdge` exhibits the undefined endpoint; `Build` uses the guard
 * `i < 320` that the documented chain ending at ramsey_long320 calls for,
 * and the lemmas after it prove that graph is one simple path.
 */
module RetuningGraph {
  import opened GraphChain

  /** The stop of both `range(1, Stop)` loops. */
  const Stop: nat := 321
  const T2Max: int := 50000
  const T2Detuning: real := 0.2

  const Head: string := "close_other_qms"

  const Qubits: Value := ListV([StrV("q0")])

  function CloseOtherQms(): Node
  {
    Node("00_Close_other_QMs", map["name" := StrV(Head)])
  }

  function T1(i: nat): Node
  {
    Node("05_T1", map[
      "qubits" := Qubits,
      "name" := StrV(Indexed("T1_", i))])
  }

  function RamseyLong(i: nat): Node
  {
    Node("06a_ramsey", map[
      "qubits" := Qubits,
      "flux_point_joint_or_independent" := StrV("joint"),
      "name" := StrV(Indexed("ramsey_long", i)),
      "frequency_detuning_in_mhz" := RealV(T2Detuning),
      "min_wait_time_in_ns" := IntV(16),
      "max_wait_time_in_ns" := IntV(T2Max),
      "num_time_points" := IntV(500)])
  }

  function Kinds(): seq<Kind>
  {
    [Kind((i: nat) => Indexed("T1_", i), T1),
     Kind((i: nat) => Indexed("ramsey_long", i), RamseyLong)]
  }

  lemma KindsInjective(m: nat)
    ensures NamesInjective(Kinds(), 1, m)
  {
    var prefixes := ["T1_", "ramsey_long"];
    assert prefixes[0] != prefixes[1] by {
      assert prefixes[0][0] != prefixes[1][0];
    }
    IndexedKindsInjective(Kinds(), prefixes, 1, m);
  }

  /** The head never clashes with a loop copy: its name does not end in a digit. */
  lemma HeadFresh(m: nat)
    requires m >= 1
    ensures Head !in Order(Kinds(), 1, m)
  {
    assert EndsInNonDigit(Head);
    UnindexedFresh(Kinds(), ["T1_", "ramsey_long"], 1, m, Head);
  }

  /** The connectivity's first entry, written with the literal "T1_1" in the script. */
  function HeadEdge(): (e: Edge)
    ensures e == (Head, Kinds()[0].name(1))
  {
    assert DigitChar(1) == '1';
    assert "T1_1" == "T1_" + [DigitChar(1)];
    (Head, "T1_1")
  }

  /** The two loops of the script with its guard `i < 321`, which no index of range(1, 321) fails. */
  method BuildAsWritten() returns (nodes: map<string, Node>, connectivity: seq<Edge>)
    ensures nodes == Built(map[Head := CloseOtherQms()], Kinds(), 1, Stop)
    ensures connectivity == [HeadEdge()] + Chain(Kinds(), 1, Stop, Stop)
  {
    nodes := AddNodes(map[Head := CloseOtherQms()], Kinds(), 1, Stop);
    connectivity := ConnectChain([HeadEdge()], Kinds(), 1, Stop, Stop);
  }

  /**
   * With the guard as written, for any stop m >= 2 the last edge goes from
   * ramsey_long{m-1} to T1_{m}, a name that is not a node of the graph.
   */
  lemma DanglingEdge(m: nat)
    requires m >= 2
    ensures var edges := [HeadEdge()] + Chain(Kinds(), 1, m, m);
      && edges[|edges| - 1] == (Indexed("ramsey_long", m - 1), Indexed("T1_", m))
      && Indexed("T1_", m) !in Built(map[Head := CloseOtherQms()], Kinds(), 1, m)
  {
    var chain := Chain(Kinds(), 1, m, m);
    var order := Order(Kinds(), 1, m) + [Kinds()[0].name(m)];
    ChainLinked(Kinds(), 1, m, m);
    PathEdgesAt(order);
    OrderLength(Kinds(), 1, m);
    assert chain[|chain| - 1] == (order[|order| - 2], order[|order| - 1]);
    BuiltKeys(map[Head := CloseOtherQms()], Kinds(), 1, m);
    OutOfRangeFresh(Kinds(), ["T1_", "ramsey_long"], 1, m, 0, m);
    assert Indexed("T1_", m) != Head by {
      IndexedEndsInDigit("T1_", m);
      assert EndsInNonDigit(Head);
    }
  }

  /** Hence the graph the script builds has a connectivity endpoint that names no node. */
  lemma AsWrittenUndefined(m: nat)
    requires m >= 2
    ensures !EndpointsDefined(Built(map[Head := CloseOtherQms()], Kinds(), 1, m), [HeadEdge()] + Chain(Kinds(), 1, m, m))
  {
    DanglingEdge(m);
  }

  /** The intended graph: the same nodes, and the link to the next pair only under `i < Stop - 1`. */
  method Build() returns (nodes: map<string, Node>, connectivity: seq<Edge>)
    ensures nodes == Built(map[Head := CloseOtherQms()], Kinds(), 1, Stop)
    ensures connectivity == [HeadEdge()] + Chain(Kinds(), 1, Stop, Stop - 1)
  {
    nodes := AddNodes(map[Head := CloseOtherQms()], Kinds(), 1, Stop);
    connectivity := ConnectChain([HeadEdge()], Kinds(), 1, Stop, Stop - 1);
  }

  // The lemmas below hold for every stop m >= 2; the script runs m = Stop.

  /** close_other_qms → T1_1 → ramsey_long1 → T1_2 → … → ramsey_long{m-1}, through every node once. */
  lemma IsPath(m: nat)
    requires m >= 2
    ensures PathThrough(Built(map[Head := CloseOtherQms()], Kinds(), 1, m), [HeadEdge()] + Chain(Kinds(), 1, m, m - 1),
                        [Head] + Order(Kinds(), 1, m))
  {
    KindsInjective(m);
    HeadFresh(m);
    HeadedChainPath(Head, CloseOtherQms(), Kinds(), 1, m);
  }

  lemma PathEnds(m: nat)
    requires m >= 2
    ensures ([Head] + Order(Kinds(), 1, m))[|Order(Kinds(), 1, m)|] == Indexed("ramsey_long", m - 1)
  {
  }

  lemma Endpoints(m: nat)
    requires m >= 2
    ensures EndpointsDefined(Built(map[Head := CloseOtherQms()], Kinds(), 1, m), [HeadEdge()] + Chain(Kinds(), 1, m, m - 1))
  {
    KindsInjective(m);
    HeadFresh(m);
    HeadedChainEndpoints(Head, CloseOtherQms(), Kinds(), 1, m);
  }

  /** The head and two copies for each of the m - 1 indices. */
  lemma NodeCount(m: nat)
    requires m >= 1
    ensures |Built(map[Head := CloseOtherQms()], Kinds(), 1, m)| == 2 * (m - 1) + 1
  {
    KindsInjective(m);
    HeadFresh(m);
    HeadedNodeCount(Head, CloseOtherQms(), Kinds(), 1, m);
  }

  lemma EdgeCount(m: nat)
    requires m >= 2
    ensures |[HeadEdge()] + Chain(Kinds(), 1, m, m - 1)| == 2 * (m - 1)
  {
    HeadedChainLength(Head, Kinds(), 1, m);
  }

  lemma Named(m: nat)
    requires m >= 1
    ensures NamedAfterKey(Built(map[Head := CloseOtherQms()], Kinds(), 1, m))
  {
    KindsInjective(m);
    BuiltNamed(map[Head := CloseOtherQms()], Kinds(), 1, m);
  }

  /** A node is the head or a measurement on qubit q0. */
  predicate OnQ0OrHead(n: Node)
  {
    n == CloseOtherQms() || ((n.template == "05_T1" || n.template == "06a_ramsey") && HasParam(n, "qubits", Qubits))
  }

  /** Every measurement the graph runs is on q0. */
  lemma SingleQubit(m: nat)
    requires m >= 1
    ensures forall x :: x in Built(map[Head := CloseOtherQms()], Kinds(), 1, m) ==> OnQ0OrHead(Built(map[Head := CloseOtherQms()], Kinds(), 1, m)[x])
  {
    BuiltAll(map[Head := CloseOtherQms()], Kinds(), 1, m, OnQ0OrHead);
  }
}
