/**
 * calibrations/offline_graph/LCH_graph_pd_freq_time_tomo.py: a parametric
 * drive time-tomography sweep for each (amplitude ratio, frequency) pair
 * of a fixed list, each over a 0.2 MHz window centred on the listed
 * frequency, run one after the other.
 */
module PdFreqTimeTomoGraph {
  import opened GraphChain

  /** `driving_list`: (driving amplitude ratio, driving frequency in Hz). */
  const DrivingList: seq<(real, real)> := [
    (0.75, 292350000.0), (0.8, 294450000.0), (0.85, 296800000.0), (0.9, 299400000.0),
    (0.95, 302350000.0), (1.0, 305650000.0), (1.05, 309000000.0), (1.1, 312200000.0),
    (1.15, 315150000.0), (1.2, 317950000.0), (1.25, 320750000.0), (1.3, 323550000.0),
    (1.35, 326250000.0), (1.4, 328750000.0), (1.45, 330950000.0)]

  /** The frequency window width in MHz. */
  const Span: real := 0.2

  /** `repeat_times = len(driving_list)`. */
  const RepeatTimes: nat := |DrivingList|

  /** `driving_freq_center_mhz = driving_list[i][1] / 1e6`; the loop only asks for indices of the list. */
  function CenterMhz(i: nat): real
  {
    if i < |DrivingList| then DrivingList[i].1 / 1000000.0 else 0.0
  }

  /** `driving_list[i][0]`. */
  function AmpRatio(i: nat): real
  {
    if i < |DrivingList| then DrivingList[i].0 else 0.0
  }

  function DriveTimeTomo(i: nat): Node
  {
    Node("LCH_qubit_parametric_drive_time_tomo", map[
      "name" := StrV(Indexed("LCH_qubit_parametric_drive_time_tomo_", i)),
      "max_driving_time_ns" := IntV(6000),
      "min_driving_time_ns" := IntV(20),
      "driving_time_step" := IntV(40),
      "max_frequency_mhz" := RealV(CenterMhz(i) + Span / 2.0),
      "min_frequency_mhz" := RealV(CenterMhz(i) - Span / 2.0),
      "frequency_points" := IntV(11),
      "driving_amp_ratio" := RealV(AmpRatio(i)),
      "use_state_discrimination" := BoolV(true),
      "simulate" := BoolV(false),
      "num_shots" := IntV(1000),
      "multiplexed" := BoolV(true),
      "prepare_state" := StrV("-x90")])
  }

  function Kinds(): seq<Kind>
  {
    [Kind((i: nat) => Indexed("LCH_qubit_parametric_drive_time_tomo_", i), DriveTimeTomo)]
  }

  lemma KindsInjective(n: nat)
    ensures NamesInjective(Kinds(), 0, n)
  {
    IndexedKindsInjective(Kinds(), ["LCH_qubit_parametric_drive_time_tomo_"], 0, n);
  }

  /**
   * The script's two loops: the `nodes` dict, one copy per entry of the
   * driving list, and the `connectivity` list, `for i in range(repeat_times - 1)`
   * linking copy i to copy i + 1.
   */
  method Build() returns (nodes: map<string, Node>, connectivity: seq<Edge>)
    ensures nodes == Built(map[], Kinds(), 0, RepeatTimes) && connectivity == Chain(Kinds(), 0, RepeatTimes - 1, RepeatTimes - 1)
  {
    nodes := AddNodes(map[], Kinds(), 0, RepeatTimes);
    connectivity := ConnectChain([], Kinds(), 0, RepeatTimes - 1, RepeatTimes - 1);
  }

  // The lemmas below hold for every repeat count n; the script runs n = RepeatTimes.

  /** The edges form one simple path through all nodes, in list order; no two copies share a name. */
  lemma IsPath(n: nat)
    requires n >= 2
    ensures PathThrough(Built(map[], Kinds(), 0, n), Chain(Kinds(), 0, n - 1, n - 1), Order(Kinds(), 0, n))
  {
    KindsInjective(n);
    PairChainPath(Kinds(), n);
  }

  lemma PathEnds(n: nat)
    requires n >= 2
    ensures Order(Kinds(), 0, n)[0] == Indexed("LCH_qubit_parametric_drive_time_tomo_", 0)
    ensures Order(Kinds(), 0, n)[|Order(Kinds(), 0, n)| - 1] == Indexed("LCH_qubit_parametric_drive_time_tomo_", n - 1)
  {
  }

  lemma Endpoints(n: nat)
    requires n >= 2
    ensures EndpointsDefined(Built(map[], Kinds(), 0, n), Chain(Kinds(), 0, n - 1, n - 1))
  {
    KindsInjective(n);
    PairChainEndpoints(Kinds(), n);
  }

  lemma NodeCount(n: nat)
    ensures |Built(map[], Kinds(), 0, n)| == n
  {
    KindsInjective(n);
    BuiltCount(Kinds(), 0, n);
  }

  lemma EdgeCount(n: nat)
    requires n >= 2
    ensures |Chain(Kinds(), 0, n - 1, n - 1)| == n - 1
  {
    PairChainLength(Kinds(), n);
  }

  lemma Named(n: nat)
    ensures NamedAfterKey(Built(map[], Kinds(), 0, n))
  {
    KindsInjective(n);
    BuiltNamed(map[], Kinds(), 0, n);
  }

  /** The copy sweeps a real-valued window of the given width centred on the given frequency. */
  predicate Window(n: Node, centre: real, width: real)
  {
    && "min_frequency_mhz" in n.params && n.params["min_frequency_mhz"].RealV?
    && "max_frequency_mhz" in n.params && n.params["max_frequency_mhz"].RealV?
    && n.params["max_frequency_mhz"].r - n.params["min_frequency_mhz"].r == width
    && (n.params["max_frequency_mhz"].r + n.params["min_frequency_mhz"].r) / 2.0 == centre
  }

  /**
   * Copy i drives at the i-th listed amplitude ratio, over a window of width
   * `span` centred on the i-th listed frequency, converted to MHz.
   */
  lemma WindowAt(n: nat, i: nat)
    requires i < n <= RepeatTimes
    ensures Indexed("LCH_qubit_parametric_drive_time_tomo_", i) in Built(map[], Kinds(), 0, n)
    ensures Window(Built(map[], Kinds(), 0, n)[Indexed("LCH_qubit_parametric_drive_time_tomo_", i)], DrivingList[i].1 / 1000000.0, Span)
    ensures HasParam(Built(map[], Kinds(), 0, n)[Indexed("LCH_qubit_parametric_drive_time_tomo_", i)], "driving_amp_ratio", RealV(DrivingList[i].0))
  {
    KindsInjective(n);
    BuiltAt(map[], Kinds(), 0, n, n, i, 0);
    CopyWindow(i);
  }

  /** Copy i itself: its window and its amplitude ratio, for an index of the list. */
  lemma CopyWindow(i: nat)
    requires i < |DrivingList|
    ensures Window(DriveTimeTomo(i), DrivingList[i].1 / 1000000.0, Span)
    ensures HasParam(DriveTimeTomo(i), "driving_amp_ratio", RealV(DrivingList[i].0))
  {
    var c := CenterMhz(i);
    assert c == DrivingList[i].1 / 1000000.0;
    assert (c + Span / 2.0) - (c - Span / 2.0) == Span;
    assert ((c + Span / 2.0) + (c - Span / 2.0)) / 2.0 == c;
  }
}
