/**
 * calibrations/offline_graph/LCH_graph_pd_freq_time.py: a parametric-drive
 * frequency/time sweep at each of 17 drive amplitudes from 0.2 to 1, run
 * one after the other, all over the same 231-238 MHz window.
 */
module PdFreqTimeGraph {
  import opened Wrappers
  import opened NumpyArrays
  import opened GraphChain

  /** `repeat_times = len(driving_amp_ratios)`. */
  const RepeatTimes: nat := 17

  /** `driving_amp_ratios = linspace(0.2, 1, 17)`. */
  function AmpRatios(): (r: seq<real>)
    ensures |r| == RepeatTimes && r[0] == 0.2 && r[RepeatTimes - 1] == 1.0
    ensures forall k :: 0 <= k < RepeatTimes - 1 ==> r[k + 1] - r[k] == 0.05
  {
    Linspace(0.2, 1.0, 17).value
  }

  /** `driving_amp_ratios[i]`; the loop only asks for indices of the grid. */
  function AmpRatio(i: nat): real
  {
    if i < |AmpRatios()| then AmpRatios()[i] else 0.0
  }

  function DriveTime(i: nat): Node
  {
    Node("LCH_qubit_parametric_drive_time", map[
      "name" := StrV(Indexed("LCH_qubit_parametric_drive_time_", i)),
      "max_driving_time_ns" := IntV(60000),
      "min_driving_time_ns" := IntV(16),
      "driving_time_step" := IntV(400),
      "max_frequency_mhz" := IntV(238),
      "min_frequency_mhz" := IntV(231),
      "frequency_points" := IntV(141),
      "driving_amp_ratio" := RealV(AmpRatio(i)),
      "use_state_discrimination" := BoolV(true),
      "simulate" := BoolV(false),
      "num_shots" := IntV(1000),
      "multiplexed" := BoolV(true)])
  }

  function Kinds(): seq<Kind>
  {
    [Kind((i: nat) => Indexed("LCH_qubit_parametric_drive_time_", i), DriveTime)]
  }

  lemma KindsInjective(n: nat)
    ensures NamesInjective(Kinds(), 0, n)
  {
    IndexedKindsInjective(Kinds(), ["LCH_qubit_parametric_drive_time_"], 0, n);
  }

  /**
   * The script's two loops: the `nodes` dict, one copy per amplitude, and
   * the `connectivity` list, `for i in range(repeat_times - 1)` linking
   * copy i to copy i + 1.
   */
  method Build() returns (nodes: map<string, Node>, connectivity: seq<Edge>)
    ensures nodes == Built(map[], Kinds(), 0, RepeatTimes) && connectivity == Chain(Kinds(), 0, RepeatTimes - 1, RepeatTimes - 1)
  {
    nodes := AddNodes(map[], Kinds(), 0, RepeatTimes);
    connectivity := ConnectChain([], Kinds(), 0, RepeatTimes - 1, RepeatTimes - 1);
  }

  // The lemmas below hold for every repeat count n; the script runs n = RepeatTimes.

  /** The edges form one simple path through all nodes, in amplitude order; no two copies share a name. */
  lemma IsPath(n: nat)
    requires n >= 2
    ensures PathThrough(Built(map[], Kinds(), 0, n), Chain(Kinds(), 0, n - 1, n - 1), Order(Kinds(), 0, n))
  {
    KindsInjective(n);
    PairChainPath(Kinds(), n);
  }

  lemma PathEnds(n: nat)
    requires n >= 2
    ensures Order(Kinds(), 0, n)[0] == Indexed("LCH_qubit_parametric_drive_time_", 0)
    ensures Order(Kinds(), 0, n)[|Order(Kinds(), 0, n)| - 1] == Indexed("LCH_qubit_parametric_drive_time_", n - 1)
  {
  }

  lemma Endpoints(n: nat)
    requires n >= 2
    ensures EndpointsDefined(Built(map[], Kinds(), 0, n), Chain(Kinds(), 0, n - 1, n - 1))
  {
    KindsInjective(n);
    PairChainEndpoints(Kinds(), n);
  }

  lemma NodeCount(n: nat)
    ensures |Built(map[], Kinds(), 0, n)| == n
  {
    KindsInjective(n);
    BuiltCount(Kinds(), 0, n);
  }

  lemma EdgeCount(n: nat)
    requires n >= 2
    ensures |Chain(Kinds(), 0, n - 1, n - 1)| == n - 1
  {
    PairChainLength(Kinds(), n);
  }

  lemma Named(n: nat)
    ensures NamedAfterKey(Built(map[], Kinds(), 0, n))
  {
    KindsInjective(n);
    BuiltNamed(map[], Kinds(), 0, n);
  }

  /** Every copy sweeps 231 MHz up to 238 MHz. */
  predicate FixedWindow(n: Node)
  {
    && HasParam(n, "min_frequency_mhz", IntV(231)) && HasParam(n, "max_frequency_mhz", IntV(238))
    && n.params["min_frequency_mhz"].i < n.params["max_frequency_mhz"].i
  }

  lemma SameWindow(n: nat)
    ensures forall x :: x in Built(map[], Kinds(), 0, n) ==> FixedWindow(Built(map[], Kinds(), 0, n)[x])
  {
    BuiltAll(map[], Kinds(), 0, n, FixedWindow);
  }

  /** Copy i drives at the i-th amplitude ratio of the grid. */
  lemma AmpAt(n: nat, i: nat)
    requires i < n <= RepeatTimes
    ensures Indexed("LCH_qubit_parametric_drive_time_", i) in Built(map[], Kinds(), 0, n)
    ensures HasParam(Built(map[], Kinds(), 0, n)[Indexed("LCH_qubit_parametric_drive_time_", i)], "driving_amp_ratio", RealV(AmpRatios()[i]))
  {
    KindsInjective(n);
    BuiltAt(map[], Kinds(), 0, n, n, i, 0);
  }
}
