# LCHQMDriver calibration core in Dafny

This project models the deterministic core of the LCHQMDriver calibration scripts for superconducting
qubits. It covers four groups of code and proves their properties with the Dafny verifier.

- **Calibration graphs.** Twelve graph scripts build a dictionary of measurement nodes. Each node is a
  copy of a library node with its own parameter overrides. The script then builds a connectivity list,
  which is a chain of edges through those nodes. `GraphChain` models the generic loops: adding
  `repeat_times` rounds of node kinds, and chaining them with an optional `i < repeat - 1` guard. There
  is one module per script. Each module has a `Build` method that is proved equal to the specification
  functions `Built` and `Chain`. Lemmas, stated for every round count `n`, give the following: the edges
  form one simple path through every node in creation order; every edge endpoint is a defined node;
  the node and edge counts; every key equals its node's `name`; and the per-node parameters (charge
  voltage, amplitude ratio, frequency window, prepare gate, reset mode, T2 settings).
- **The calibration-link tool** (`create_calibration_links.py`).
    - Reading and normalising the source settings.
    - Listing `.py` files and non-dunder sub-folders, sorted as POSIX Paths.
    - Joining paths as POSIX `pathlib` does, with its normalisation (`PurePaths`).
    - `create_symlink` against an abstract filesystem.
    - `main`'s two link loops, with their success and failure counters and the list of created entries.
    - The `.gitignore` rewrite, which drops the old auto-generated block, trims trailing blank lines
      and appends a sorted block.
    - The exit code.

  The `.gitignore` rewrite is proved idempotent. Reading back a rewritten file recovers the
  user-written lines.
- **The fit and analysis code of the CZ and T1 nodes.**
    - The CZ slow-2D cosine fit over every non-basis grid cell. The grid is stored flat in row-major
      order, with `np.indices` enumeration as `Unravel`.
    - The ON/OFF difference heatmaps, with phase wrapping.
    - The CZ conditional-phase fit and its plot annotation.
    - The T1-spectrum exponential-decay fit for each flux amplitude, and the dispatch to its plot kind.

  `scipy.optimize.curve_fit` is a solver parameter. Its only assumed property is that any answer it
  returns lies within the declared bounds.
- **Small numeric pieces of the node scripts and pulses.**
    - The rise/fall length of the flat-top Gaussian pulse, and the ramp pulse's samples.
    - The idle-time choice of the parity-switch Ramsey in 4 ns clock ticks.
    - The delay sweep of the time-dependent resonator photon measurement.
    - The driving-time sweep of the parametric-drive measurements.

Floating-point values are modelled as `Floats.Float`: NaN, plus or minus infinity, or a finite real. The
special values are tracked where numpy produces them, for example a failed fit's NaN, or a division by
zero. Rounding is not modelled. Integer floor division `//` by 4 is Dafny's Euclidean `/`, which gives
the same result for a positive divisor.

## Model

| member | source | states |
|---|---|---|
| NumpyArrays.Arange | calibrations/LCH_time_dep_rr_photon.py:78 | `np.arange` fails exactly when the step is 0; otherwise it returns `ceil((stop-start)/step)` values `start + k*step`, or none at all |
| NumpyArrays.ArangeWithin | calibrations/LCH_qubit_parametric_drive_freq_time.py:74 | with a positive step, every value lies in `[start, stop)` |
| NumpyArrays.Linspace | customized/components/pulses.py:26 | `np.linspace(start, stop, num)` fails for `num < 0`; otherwise it has `num` values, its first value is `start`, its last is `stop`, and consecutive values differ by `(stop-start)/(num-1)` |
| NumpyArrays.ArrayMax | customized/node/LCH_T1_spectrum/plotting.py:109 | `max()` fails on an empty array; otherwise it is an element that bounds every element from above |
| NumpyArrays.ArrayMin | customized/node/LCH_T1_spectrum/plotting.py:109 | `min()` fails on an empty array; otherwise it is an element that bounds every element from below |
| NumpyArrays.Unravel | calibration_utils/LCH_CZ_slow2D/plotting.py:69 | the k-th row of `np.indices(shape).reshape(len(shape), -1).T` is a valid index of the shape |
| NumpyArrays.RavelBelow | calibration_utils/LCH_CZ_slow2D/plotting.py:69-72 | the row-major position of a valid index lies inside the flat array |
| NumpyArrays.UnravelRavel | calibration_utils/LCH_CZ_slow2D/plotting.py:69 | the index enumeration meets every valid index: unravelling the position of an index gives that index back |
| NumpyArrays.RavelUnravel | calibration_utils/LCH_CZ_slow2D/plotting.py:69 | the enumeration visits each flat position exactly once, at its own place |
| Floats.Add | calibration_utils/LCH_CZ_slow2D/plotting.py:186 | IEEE addition of the special values: it gives NaN exactly for a NaN operand or opposite infinities, and is finite exactly for two finite operands, with the exact sum |
| Floats.Sub | calibration_utils/LCH_CZ_slow2D/plotting.py:183 | IEEE subtraction: it gives NaN exactly for a NaN operand or equal infinities, and the exact difference for finite operands |
| Floats.Div | calibration_utils/LCH_CZ_slow2D/plotting.py:180 | numpy division: it gives NaN exactly for a NaN operand, 0/0, or two infinite operands; the exact quotient for a non-zero finite divisor; and +inf for a positive value over 0 |
| CurveFit.CosineRequest | calibration_utils/LCH_CZ_slow2D/plotting.py:82-85 | the cosine fit uses the guess (0.5, 0, 0.5) and the bounds `A >= 0`, `-pi <= phi <= pi`; the guess itself satisfies the bounds |
| CzSlow2D.NonBasis | calibration_utils/LCH_CZ_slow2D/plotting.py:65 | no kept dimension is named `basis`, and there are at most as many as in the input |
| CzSlow2D.NonBasisMembers | calibration_utils/LCH_CZ_slow2D/plotting.py:65 | a dimension is kept exactly when it is an input dimension not named `basis` |
| CzSlow2D.NonBasisAppend | calibration_utils/LCH_CZ_slow2D/plotting.py:65 | keeping distributes over concatenation of dimension lists, so the relative order is kept |
| CzSlow2D.NonBasisCount | calibration_utils/LCH_CZ_slow2D/plotting.py:65 | the number kept is the input's count minus the number of `basis` dimensions |
| CzSlow2D.Origin | calibration_utils/LCH_CZ_slow2D/plotting.py:65 | the i-th kept dimension is an input dimension at a definite position, and it is not `basis` |
| CzSlow2D.OriginIncreasing | calibration_utils/LCH_CZ_slow2D/plotting.py:65 | later kept dimensions come from later input positions, so the input order is kept |
| CzSlow2D.Shape | calibration_utils/LCH_CZ_slow2D/plotting.py:64 | the grid shape has one size per kept dimension, the length of its coordinates |
| CzSlow2D.CellOfBounded | calibration_utils/LCH_CZ_slow2D/plotting.py:83-90 | the stored cell of one fit respects the bounds; a fit that returns gives a non-NaN cell |
| CzSlow2D.FlatToTuples | calibration_utils/LCH_CZ_slow2D/plotting.py:77-88 | the flat per-position result holds the fit of the cell at every grid index tuple |
| CzSlow2D.FlatBounded | calibration_utils/LCH_CZ_slow2D/plotting.py:84-88 | every stored A is NaN or at least 0, and every stored phi is NaN or within [-pi, pi] |
| CzSlow2D.FillCells | calibration_utils/LCH_CZ_slow2D/plotting.py:70-90 | the loop over `np.indices` fills the three NaN-initialised arrays; each cell holds the solver's answer for that cell's basis trace, and stays NaN where the fit raised |
| CzSlow2D.Store | calibration_utils/LCH_CZ_slow2D/plotting.py:86-88 | one successful fit writes exactly its three values at its own position, and nothing else changes |
| CzSlow2D.FitCosBasis | calibration_utils/LCH_CZ_slow2D/plotting.py:47-98 | it fails exactly when `basis` is missing (with that error) or no other dimension is left; on success the dataset keeps the non-basis dimensions, every cell is its own fit, and every cell respects the bounds |
| CzSlow2D.WrapPhase | calibration_utils/LCH_CZ_slow2D/plotting.py:186 | NaN is kept; a finite value moves by at most one turn of 2*pi; a value within [-2pi, 2pi] lands within [-pi, pi]; a value within [-pi, pi] is unchanged |
| CzSlow2D.WrapPhaseOdd | calibration_utils/LCH_CZ_slow2D/plotting.py:186 | wrapping commutes with negation |
| CzSlow2D.RemoveAt | calibration_utils/LCH_CZ_slow2D/plotting.py:173 | selecting one `ctrl_switch` label drops that axis and keeps the other axes in order |
| CzSlow2D.InsertAt | calibration_utils/LCH_CZ_slow2D/plotting.py:173 | a slice index with the selected label put back at the axis position |
| CzSlow2D.DimPosition | calibration_utils/LCH_CZ_slow2D/plotting.py:173 | it finds the `ctrl_switch` axis when there is one, and fails exactly when there is none |
| CzSlow2D.LabelPosition | calibration_utils/LCH_CZ_slow2D/plotting.py:173-178 | it finds a True/False coordinate label, and fails exactly when the label is absent |
| CzSlow2D.ShapeRemoveAt | calibration_utils/LCH_CZ_slow2D/plotting.py:173-178 | the shape of a `.sel` result is the input shape without the selected axis |
| CzSlow2D.InsertValid | calibration_utils/LCH_CZ_slow2D/plotting.py:173-178 | a valid slice index with an in-range label is a valid index of the full grid |
| CzSlow2D.SlicePosition | calibration_utils/LCH_CZ_slow2D/plotting.py:173-178 | the full-grid position read for a slice cell lies inside the grid |
| CzSlow2D.Compose | calibration_utils/LCH_CZ_slow2D/plotting.py:180-189 | the three maps range over the grid without the `ctrl_switch` axis, with one value per cell |
| CzSlow2D.DiffHeatmap | calibration_utils/LCH_CZ_slow2D/plotting.py:164-189 | it fails exactly when `ctrl_switch` or one of its labels True/False is missing; otherwise it composes the maps at that axis and those labels |
| CzSlow2D.CtrlDim | calibration_utils/LCH_CZ_slow2D/plotting.py:173 | the position of the `ctrl_switch` axis |
| CzSlow2D.OnLabel | calibration_utils/LCH_CZ_slow2D/plotting.py:173 | the position of the label True on that axis |
| CzSlow2D.OffLabel | calibration_utils/LCH_CZ_slow2D/plotting.py:174 | the position of the label False on that axis |
| CzSlow2D.DiffHeatmapPointwise | calibration_utils/LCH_CZ_slow2D/plotting.py:173-189 | at every slice index, the ratio is A(True)/A(False), the phase difference is wrap(phi(True) - phi(False)), and the offset difference is c(True) - c(False), each read at that index with the label inserted |
| CzSlow2D.DiffPropagatesFailure | calibration_utils/LCH_CZ_slow2D/plotting.py:89-90 | a cell whose fit failed for either label gives NaN in all three maps |
| CzSlow2D.DiffPhaseInRange | calibration_utils/LCH_CZ_slow2D/plotting.py:182-188 | for bounded fits, every wrapped phase difference is NaN or within [-pi, pi] |
| CzSlow2D.BoundedDiff | calibration_utils/LCH_CZ_slow2D/plotting.py:182-188 | the wrapped difference of two bounded phases is NaN or within [-pi, pi] |
| CzSlow2D.FitAndDiff | calibration_utils/LCH_CZ_slow2D/plotting.py:47-189 | the fit followed by the heatmap fails exactly when `basis`, the other axes, or the selectable `ctrl_switch` axis are missing; on success every phase difference is NaN or within [-pi, pi] |
| CzConditionalPhase.Normalize | customized/node/LCH_CZ_conditional_phase/plotting.py:133-139 | a DataArray is used as it is; a Dataset gives its `state` variable when it has one, else its first variable, and it fails when it has no variable at all |
| CzConditionalPhase.StateIndex | customized/node/LCH_CZ_conditional_phase/plotting.py:134 | it finds a `state` variable, and fails exactly when there is none |
| CzConditionalPhase.Curve | customized/node/LCH_CZ_conditional_phase/plotting.py:149 | the fitted curve has one value per basis point |
| CzConditionalPhase.FitOne | customized/node/LCH_CZ_conditional_phase/plotting.py:145-162 | one try block: a returned fit gives (A, phi, c) and its curve, a raising fit gives NaN everywhere, and the result respects `A >= 0` and `-pi <= phi <= pi` |
| CzConditionalPhase.FitOnOffCos | customized/node/LCH_CZ_conditional_phase/plotting.py:124-171 | it fails on a missing basis or a missing True/False slice; on success it has the rows (True, False), each the try-block result for that slice |
| CzConditionalPhase.PlotAnnotation | customized/node/LCH_CZ_conditional_phase/plotting.py:73-115 | it raises without the `ctrl_switch` coordinate and the `basis` dimension; given a fit, the text shows A_on/A_off and phi_on - phi_off; a zero A_off raises |
| CzConditionalPhase.AnnotationUnwrapped | customized/node/LCH_CZ_conditional_phase/plotting.py:114 | the annotated difference is not wrapped: it lies within [-2pi, 2pi], reaches 2pi for the phases pi and -pi, and -2pi for the phases -pi and pi |
| CzConditionalPhase.DescribesUnique | customized/node/LCH_CZ_conditional_phase/plotting.py:147-162 | two fits that describe the same solver answer have the same A and phi |
| CzConditionalPhase.FitAndAnnotate | customized/node/LCH_CZ_conditional_phase/plotting.py:73-171 | it fails exactly when the data cannot be normalised, lacks the basis values, a ctrl_switch slice, the ctrl_switch coordinate or the basis dimension, or the OFF fit has amplitude 0, each with the error of the first check that fails; otherwise the annotation is A_on/A_off and phi_on - phi_off of the two slice fits, and the phase difference is NaN or within [-2pi, 2pi] |
| T1Spectrum.DecayRequest | customized/node/LCH_T1_spectrum/plotting.py:104-111 | the guessed offset is the smallest sample, the guessed amplitude plus offset is the largest sample, and twice the guessed tau is the longest idle time, so the guess is (max-min, min, max idle/2); tau is bounded below by 0 and the guess is feasible when some idle time is non-negative |
| T1Spectrum.DecayOfBounded | customized/node/LCH_T1_spectrum/plotting.py:111-114 | a stored tau is NaN or non-negative |
| T1Spectrum.StoreFit | customized/node/LCH_T1_spectrum/plotting.py:110-116 | one try block fits the i-th trace and writes that fit at index i, or leaves NaN when the fit raises; the stored tau is NaN or non-negative, and no other index changes |
| T1Spectrum.FitExpDecayVsFluxAmp | customized/node/LCH_T1_spectrum/plotting.py:92-122 | for each flux amplitude in order, the dataset holds that trace's fit, or NaN where it raised, and each tau is NaN or non-negative; empty traces fail |
| T1Spectrum.SignalPlot | customized/node/LCH_T1_spectrum/plotting.py:58-71 | without `signal` it raises; with `flux_amp` among the signal's dimensions it draws a heatmap, otherwise a line plot |
| Pulses.RiseFallLength | customized/components/pulses.py:57-63 | it raises exactly when `length - flat_length` is odd; otherwise `flat_length + 2*rise_fall == length`, and the rise/fall is negative when the flat part is longer than the pulse |
| Pulses.CascadeWaveform | customized/components/pulses.py:54-76 | it raises exactly for an odd difference; otherwise the samples are the flat-top Gaussian with that rise/fall, tagged with the axis angle |
| Pulses.RampWaveform | customized/components/pulses.py:24-32 | it raises for a negative length; otherwise it has `length` samples from start to end in equal steps, tagged with the axis angle |
| Pulses.RiseFallRoundTrip | customized/components/pulses.py:57-58 | a pulse built from a flat length and a rise/fall gives that rise/fall back |
| ParitySwitchRamsey.Ticks | calibrations/LCH_parity_switch_ramsey.py:93 | `ns // 4` is the number of whole 4 ns ticks in ns |
| ParitySwitchRamsey.QuarterPeriodNs | calibrations/LCH_parity_switch_ramsey.py:99 | `1/(d_f/1e9)/4` is a quarter of the dispersion's period in ns: times the dispersion it is 2.5e8, and it is positive exactly for a positive dispersion |
| ParitySwitchRamsey.IdleTicks | calibrations/LCH_parity_switch_ramsey.py:92-101 | a given idle time is floored to ticks; zero dispersion waits 4 ticks; otherwise it waits a quarter charge-dispersion period, capped at the maximum idle |
| ParitySwitchRamsey.NegativeDispersionWaitsNegative | calibrations/LCH_parity_switch_ramsey.py:98-101 | a negative dispersion gives a negative wait, which the cap does not catch |
| ParitySwitchRamsey.ReportedIdleBounded | calibrations/LCH_parity_switch_ramsey.py:98-101 | for a qubit with non-zero dispersion the computed wait never exceeds the maximum idle time |
| ParitySwitchRamsey.ZeroDispersionUncapped | calibrations/LCH_parity_switch_ramsey.py:95-97 | zero dispersion waits 16 ns whatever the maximum, so it exceeds a maximum idle time below 16 ns |
| ParitySwitchRamsey.ReportedIdleNs | calibrations/LCH_parity_switch_ramsey.py:102 | the printed idle time is a multiple of 4 ns, within 4 ns below a given idle time |
| TimeDepRrPhoton.DelayTicks | calibrations/LCH_time_dep_rr_photon.py:78 | it raises exactly for a zero resolution; otherwise the k-th tick is the floor of k*resolution/4 |
| TimeDepRrPhoton.DelayTimes | calibrations/LCH_time_dep_rr_photon.py:79 | each delay is 4 times its tick, so a multiple of 4 ns |
| TimeDepRrPhoton.DelaysWithinRequest | calibrations/LCH_time_dep_rr_photon.py:78-79 | each delay is at most the maximum, within 4 ns below k*resolution, and the sweep starts at 0 |
| TimeDepRrPhoton.DelaysIncreasing | calibrations/LCH_time_dep_rr_photon.py:78-79 | with a resolution of at least 4 ns, the delays strictly increase |
| TimeDepRrPhoton.SubTickResolutionRepeats | calibrations/LCH_time_dep_rr_photon.py:78-79 | with a resolution below 4 ns, the first two delays are both 0 |
| ParametricDriveTime.TimeTicks | calibrations/LCH_qubit_parametric_drive_freq_time_tomo.py:75 | it raises exactly when the step floors to 0 ticks; otherwise the ticks are min//4 + k*(step//4) |
| ParametricDriveTime.TimesNs | calibrations/LCH_qubit_parametric_drive_freq_time.py:75 | each time is 4 times its tick |
| ParametricDriveTime.TimesWithinRange | calibrations/LCH_qubit_parametric_drive_freq_time.py:74-75 | the sweep starts within 4 ns below the minimum, stays below the maximum, strictly increases, and has the stated number of points |
| PyStrings.StripLeftSuffix | create_calibration_links.py:126 | `lstrip` removes exactly the leading whitespace |
| PyStrings.StripRightPrefix | create_calibration_links.py:137 | `rstrip` removes exactly the trailing whitespace |
| PyStrings.Strip | create_calibration_links.py:126-137 | `strip()` is never longer than its input; the result neither starts nor ends with whitespace; a string with no whitespace at either end is unchanged |
| PyStrings.StripBlank | create_calibration_links.py:137 | `strip()` is empty exactly for an all-whitespace line |
| PyStrings.SplitLines | create_calibration_links.py:121 | `splitlines()` yields lines without line breaks |
| PyStrings.SplitJoinTerminated | create_calibration_links.py:121-152 | splitting newline-terminated lines gives those lines back |
| PyStrings.JoinLines | create_calibration_links.py:141 | `"\n".join(lines)` with a final newline added is the newline-terminated layout of the lines |
| PyStrings.SplitJoinLines | create_calibration_links.py:141-152 | reading back `"\n".join(lines)` written with a final newline recovers the break-free lines |
| PyStrings.SortStrings | create_calibration_links.py:148 | `sorted` gives an ordered permutation |
| PyStrings.LexAntisym | create_calibration_links.py:93 | two strings in code-point order both ways are equal |
| Gitignore.Kept | create_calibration_links.py:121-134 | the scan keeps no marker line and never adds lines |
| Gitignore.MarkersStripped | create_calibration_links.py:104-105 | the two markers are their own `strip()` and differ |
| Gitignore.MarkersUnbroken | create_calibration_links.py:104-105 | neither marker holds a line break |
| Gitignore.KeptAppend | create_calibration_links.py:125-134 | the scan of two pieces is the scan of the first, then of the second in the state the first leaves |
| Gitignore.KeptNoMarkers | create_calibration_links.py:125-134 | lines without markers are all kept |
| Gitignore.KeptInsideBlock | create_calibration_links.py:133-134 | inside a block, nothing is kept until an end marker |
| Gitignore.BlockDropped | create_calibration_links.py:125-134 | a start marker, its body and its end marker are dropped, and the lines around them are kept |
| Gitignore.BlockSkipped | create_calibration_links.py:125-134 | a whole block is dropped whatever the state before it |
| Gitignore.UnterminatedBlockDropsRest | create_calibration_links.py:125-134 | a start marker without an end drops everything after it |
| Gitignore.TrimBlank | create_calibration_links.py:137-138 | the result is a prefix of the input without a blank last line, and only blank lines were removed |
| Gitignore.UpdateGitignore | create_calibration_links.py:108-155 | the file written is the rebuilt line list, each line newline-terminated (an absent file counts as empty) |
| Gitignore.DropAutoSections | create_calibration_links.py:121-134 | the loop computes the scan |
| Gitignore.DropTrailingBlank | create_calibration_links.py:137-138 | the loop computes the blank-line trim |
| Gitignore.BuildContent | create_calibration_links.py:141-152 | the text built equals the kept lines, a blank separator, the start marker, the sorted entries and the end marker, each newline-terminated; with no entries it is the kept lines alone |
| Gitignore.AppendEntries | create_calibration_links.py:148-149 | the loop appends each entry with its newline |
| Gitignore.JoinLinesEmpty | create_calibration_links.py:141-145 | `"\n".join` is empty exactly for no lines, when the last line is not blank |
| Gitignore.RebuiltLayout | create_calibration_links.py:144-150 | the string concatenation of the block is the joined line list |
| Gitignore.KeptUnbroken | create_calibration_links.py:121-134 | the kept lines hold no line break |
| Gitignore.SortedEntries | create_calibration_links.py:148 | the block lists exactly the given paths |
| Gitignore.NewLinesUnbroken | create_calibration_links.py:121-152 | no rebuilt line holds a line break when no path does |
| Gitignore.UpdateIdempotent | create_calibration_links.py:108-155 | rewriting a rewritten file with the same paths changes nothing |
| Gitignore.RereadRebuilt | create_calibration_links.py:121-152 | scanning and trimming a rebuilt file gives back the user-written lines |
| Gitignore.KeptRebuilt | create_calibration_links.py:125-150 | the scan of a rebuilt file keeps the user lines and the blank separator |
| Gitignore.TrimSeparator | create_calibration_links.py:137-146 | trimming removes the separator line the rebuild adds |
| PurePaths.SplitSlash | create_calibration_links.py:167 | the pieces between slashes: at least one, none holding a slash |
| PurePaths.Join | create_calibration_links.py:207 | the join of two well-formed paths is well-formed |
| PurePaths.KeptPartsAppend | create_calibration_links.py:167 | dropping empty and "." pieces distributes over concatenation |
| PurePaths.Parse | create_calibration_links.py:167 | `Path(s)` is rooted exactly when `s` starts with '/', and every part is non-empty, not ".", and free of slashes; ParseRender and TrailingSlash give its normalisation |
| PurePaths.Render | create_calibration_links.py:207-209 | `str(p)` of a well-formed path is never empty and starts with '/' exactly for an absolute path; ParseRender inverts it |
| PurePaths.SplitJoinSlash | create_calibration_links.py:167 | splitting the slash-join of well-formed parts gives back the parts |
| PurePaths.ParseRender | create_calibration_links.py:167 | parsing the text of a well-formed path gives back the path |
| PurePaths.RenderNormal | create_calibration_links.py:167 | the text of a parsed path parses to the same path |
| PurePaths.TrailingSlash | create_calibration_links.py:167 | a trailing slash on a non-empty string does not change the path |
| PurePaths.EmptyIsCurrent | create_calibration_links.py:167 | `Path("")` is the empty relative path, written "." |
| PurePaths.JoinEmpty | create_calibration_links.py:207 | joining the empty path changes nothing |
| PurePaths.SplitSlashJoin | create_calibration_links.py:207 | splitting at a slash splits each side |
| PurePaths.ParseSlash | create_calibration_links.py:207 | a string joined with one slash to a relative string parses as the path join |
| PurePaths.ParsePart | create_calibration_links.py:223-224 | a single well-formed name parses as the one-part relative path |
| PurePaths.SortKeyChild | create_calibration_links.py:93 | the comparison key of a child path is the parent's key followed by the child's name |
| PurePaths.PartsLePrefix | create_calibration_links.py:93 | lists with a common prefix compare as their next entries |
| PurePaths.ChildOrder | create_calibration_links.py:93 | two children of one folder are in Path order exactly when their names are in string order |
| PurePaths.PathLe | create_calibration_links.py:93 | the `<=` that `sorted()` uses on POSIX Paths: keys compared like lists; every path is in order with itself, and PathLeTotal, PathLeTrans and PathLeAntisym make it a total order on well-formed paths |
| PurePaths.PathLeTotal | create_calibration_links.py:93 | any two Paths are in order one way or the other |
| PurePaths.PathLeTrans | create_calibration_links.py:93 | the Path order is transitive |
| PurePaths.PathLeAntisym | create_calibration_links.py:93 | two well-formed Paths in order both ways are the same Path |
| PurePaths.PartsLeAntisym | create_calibration_links.py:93 | two lists of strings in order both ways are equal |
| PurePaths.JoinSplitSlash | create_calibration_links.py:93 | splitting at '/' loses nothing: the pieces join back to the text |
| CalibrationLinks.JoinPath | create_calibration_links.py:207 | `source_base / source_rel`: joining to a well-formed base gives a well-formed path, and a relative `rel` keeps the base's root and parts as a prefix (the lemmas below give the rest) |
| CalibrationLinks.JoinPathEmptyRel | create_calibration_links.py:207 | `Path(base) / ""` is the base |
| CalibrationLinks.JoinPathCurrent | create_calibration_links.py:167-207 | `Path("") / rel` is `Path(rel)` |
| CalibrationLinks.JoinPathTrailingSlash | create_calibration_links.py:207 | a trailing slash on `rel` does not change the joined path |
| CalibrationLinks.JoinPathAbsolute | create_calibration_links.py:207 | an absolute `rel` replaces the base |
| CalibrationLinks.JoinPathText | create_calibration_links.py:207 | joining a relative `rel` to `Path(base)` is `Path(base + "/" + rel)` |
| CalibrationLinks.ParsedLinkFolders | create_calibration_links.py:224 | "calibrations" and "calibration_utils" parse as single relative parts |
| CalibrationLinks.ChildPath | create_calibration_links.py:223-224 | joining a listed name gives the folder's child of that name |
| CalibrationLinks.GetPyFilesPathOrder | create_calibration_links.py:93 | the returned Paths `folder / name` are in the order `sorted()` gives POSIX Paths |
| CalibrationLinks.GetSubfoldersPathOrder | create_calibration_links.py:100 | the returned sub-folder Paths are in the order `sorted()` gives POSIX Paths |
| CalibrationLinks.LastDot | create_calibration_links.py:93 | the position of the last dot in a name, or -1 when it has none |
| CalibrationLinks.PySuffix | create_calibration_links.py:93 | `suffix == ".py"` agrees with the `.py` test the model uses |
| CalibrationLinks.PyNames | create_calibration_links.py:93 | the names kept are exactly those of the `.py` files in the listing |
| CalibrationLinks.FolderNames | create_calibration_links.py:100 | the names kept are exactly those of the directories not starting with `__` |
| CalibrationLinks.SortedPyNames | create_calibration_links.py:93 | the sorted names of exactly the `.py` regular files of a listing |
| CalibrationLinks.SortedFolderNames | create_calibration_links.py:100 | the sorted names of exactly the directories of a listing not starting with `__` |
| CalibrationLinks.GetPyFiles | create_calibration_links.py:89-93 | a missing path gives no files; a path that exists but is not a folder raises (`NotADirectoryError` from `iterdir`), exactly then; a folder gives the sorted names of exactly its `.py` files |
| CalibrationLinks.GetSubfolders | create_calibration_links.py:96-100 | a missing path gives no folders; a path that exists but is not a folder raises, exactly then; a folder gives the sorted names of exactly its non-dunder sub-folders |
| CalibrationLinks.Names | create_calibration_links.py:215-218 | the names of a listing that succeeded, none for one that raised |
| CalibrationLinks.SourceList | create_calibration_links.py:169-176 | a missing setting gives no sources, a non-empty string gives one source, an empty string gives none, and a list is kept |
| CalibrationLinks.BaseGuardAsWrittenMissesMissing | create_calibration_links.py:167-180 | the guard as written lets a missing or empty `source_base` through, where the intended guard aborts |
| CalibrationLinks.BaseGuard | create_calibration_links.py:178-180 | abort exactly when `source_base` is missing or empty |
| CalibrationLinks.CreateSymlink | create_calibration_links.py:57-86 | it succeeds exactly when the target exists, any old link can be removed and the new one can be made; it returns False untouched without a target or when removal fails; success adds the link and failure only drops the old one |
| CalibrationLinks.FileBatch | create_calibration_links.py:221-224 | one planned link per `.py` file, in order, at `calibrations/<name>` |
| CalibrationLinks.FolderBatch | create_calibration_links.py:256-259 | one planned link per sub-folder, in order, at `calibration_utils/<name>/` |
| CalibrationLinks.FileLinksSnoc | create_calibration_links.py:206-221 | the file links of one more source are those before followed by that folder's batch |
| CalibrationLinks.FolderLinksSnoc | create_calibration_links.py:241-256 | the folder links of one more source are those before followed by that folder's batch |
| CalibrationLinks.FileLinksEntries | create_calibration_links.py:232 | every file entry is `calibrations/<name>` |
| CalibrationLinks.FolderLinksEntries | create_calibration_links.py:267 | every folder entry is `calibration_utils/<name>/` |
| CalibrationLinks.FirstUnlistable | create_calibration_links.py:206-215 | the first source whose path exists but is not a folder: every source before it can be listed, and it cannot (or there is none) |
| CalibrationLinks.Stop | create_calibration_links.py:202-269 | the source path that stops `main` with `NotADirectoryError`: none exactly when every source path of both lists can be listed |
| CalibrationLinks.RegularFileSourceStops | create_calibration_links.py:211-215 | a first calibrations source naming a regular file stops `main` at that path before any link, leaving the filesystem unchanged |
| CalibrationLinks.ListableRunsAll | create_calibration_links.py:202-269 | when every source can be listed, `main` attempts the links of every source of both lists |
| CalibrationLinks.Step | create_calibration_links.py:229-234 | each link adds one to exactly one counter, and a success appends its entry |
| CalibrationLinks.Play | create_calibration_links.py:221-234 | after the links, the counters have grown by their number, and one entry was recorded per success |
| CalibrationLinks.PlayEntries | create_calibration_links.py:229-232 | the old entries are kept as a prefix, and every new entry is a planned link's |
| CalibrationLinks.PlayAllSucceed | create_calibration_links.py:229-232 | with no failure, the entries are exactly the planned ones, in order |
| CalibrationLinks.PlayAppend | create_calibration_links.py:202-269 | the two loops run one after the other |
| CalibrationLinks.Finish | create_calibration_links.py:271-281 | the exit code is 0 exactly when nothing failed, else 1; the .gitignore is rewritten with the created entries |
| CalibrationLinks.MainCounts | create_calibration_links.py:197-281 | successes plus failures equal the planned links, one entry is recorded per success, and the exit code is 0 exactly without a failure |
| CalibrationLinks.MainEntryKinds | create_calibration_links.py:229-269 | every created entry is a file entry or a folder entry |
| CalibrationLinks.MainAllSucceed | create_calibration_links.py:229-269 | with no failure, the entries are exactly the planned ones |
| CalibrationLinks.PlannedEntries | create_calibration_links.py:221-267 | every planned entry is a file entry or a folder entry |
| CalibrationLinks.Entries | create_calibration_links.py:232 | the entries of the links, in order |
| CalibrationLinks.CreateLinks | create_calibration_links.py:159-281 | `main` fails exactly when `source_base` is missing or empty (the intended guard) or a source path exists but is not a folder; the listing error names that path and leaves the links made so far and the untouched .gitignore; otherwise the report is the sequential outcome of every planned link, with the .gitignore rewrite and the exit code |
| CalibrationLinks.LinkCalibrations | create_calibration_links.py:202-234 | the calibrations loop skips missing sources, plays the file links of the sources before the first one that cannot be listed, and returns that one |
| CalibrationLinks.LinkCalibrationUtils | create_calibration_links.py:237-269 | the calibration_utils loop skips missing sources, plays the folder links of the sources before the first one that cannot be listed, and returns that one |
| CalibrationLinks.LinkPyFiles | create_calibration_links.py:221-234 | the inner loop plays one folder's file batch |
| CalibrationLinks.LinkSubfolders | create_calibration_links.py:256-269 | the inner loop plays one folder's sub-folder batch |
| GraphChain.Decimal | calibrations/LCH_graph_ramsey_repeat.py:22 | the `{i}` of an f-string is a non-empty string of digits |
| GraphChain.DecimalRoundTrip | calibrations/LCH_graph_ramsey_repeat.py:22 | the decimal text of a round parses back to that round |
| GraphChain.IndexedInjective | calibrations/LCH_graph_ramsey_repeat.py:22 | names `f"{prefix}{i}"` with prefixes ending in a non-digit are equal only for equal prefixes and rounds |
| GraphChain.AddNodes | calibrations/LCH_graph_ramsey_repeat.py:21-31 | the node loop computes `Built`: round by round, each kind's copy under its name |
| GraphChain.ConnectChain | calibrations/exclude/LCH_graph_T1_T2_ROF.py:63-69 | the connectivity loop computes `Chain`, the edges inside each round and, under the guard, to the next round |
| GraphChain.ConnectRound | calibrations/exclude/LCH_graph_T1_T2_ROF.py:64-69 | one iteration appends one round's edges |
| GraphChain.BuiltKeys | calibrations/LCH_graph_ramsey_repeat.py:21-22 | the keys are the initial keys plus every name created |
| GraphChain.BuiltAt | calibrations/LCH_graph_ramsey_repeat.py:21-31 | the node under a created name is that kind's copy for that round |
| GraphChain.ChainLinked | calibrations/exclude/LCH_graph_T1_T2_ROF.py:63-69 | an unguarded chain is the path through the creation order and on to the next round's first node |
| GraphChain.ChainClosed | calibrations/exclude/LCH_graph_T1_T2_ROF.py:63-69 | the guarded chain is exactly the path through the creation order |
| GraphChain.PathShape | calibrations/exclude/LCH_graph_T1_T2_ROF.py:63-69 | a simple path through all nodes has defined endpoints and one edge fewer than nodes |
| GraphChain.BuiltNamed | calibrations/LCH_graph_ramsey_repeat.py:22-23 | when every copy is named after its key, so is every node of the built map |
| T1T2RofGraph.KindsInjective | calibrations/exclude/LCH_graph_T1_T2_ROF.py:23-57 | the four name patterns never produce the same name twice |
| T1T2RofGraph.Build | calibrations/exclude/LCH_graph_T1_T2_ROF.py:20-69 | ten rounds of T1, Ramsey, echo and readout fidelity, chained with the guard `i < repeat_times - 1` |
| T1T2RofGraph.IsPath | calibrations/exclude/LCH_graph_T1_T2_ROF.py:22-69 | the edges form one simple path through every node in creation order |
| T1T2RofGraph.PathEnds | calibrations/exclude/LCH_graph_T1_T2_ROF.py:23-69 | the path starts at `05_T1_0` and ends at `LCH_readout_fidelity_{n-1}` |
| T1T2RofGraph.Endpoints | calibrations/exclude/LCH_graph_T1_T2_ROF.py:63-69 | every edge joins two defined nodes |
| T1T2RofGraph.NodeCount | calibrations/exclude/LCH_graph_T1_T2_ROF.py:22-62 | 4n nodes |
| T1T2RofGraph.EdgeCount | calibrations/exclude/LCH_graph_T1_T2_ROF.py:63-69 | 4n - 1 edges |
| T1T2RofGraph.Named | calibrations/exclude/LCH_graph_T1_T2_ROF.py:23-58 | every node's `name` is its key |
| ChargeGateFidelityGraph.ChargeGate | calibrations/LCH_graph_charge_gate_fidelity.py:20 | 11 voltages from -0.5 to 0.5 in steps of 0.1 |
| ChargeGateFidelityGraph.KindsInjective | calibrations/LCH_graph_charge_gate_fidelity.py:24 | the names are distinct |
| ChargeGateFidelityGraph.Build | calibrations/LCH_graph_charge_gate_fidelity.py:20-34 | one readout-fidelity copy per voltage, chained in order |
| ChargeGateFidelityGraph.IsPath | calibrations/LCH_graph_charge_gate_fidelity.py:23-34 | a simple path through every node in creation order |
| ChargeGateFidelityGraph.PathEnds | calibrations/LCH_graph_charge_gate_fidelity.py:23-34 | from round 0 to round n-1 |
| ChargeGateFidelityGraph.Endpoints | calibrations/LCH_graph_charge_gate_fidelity.py:32-34 | every edge joins defined nodes |
| ChargeGateFidelityGraph.NodeCount | calibrations/LCH_graph_charge_gate_fidelity.py:23-30 | n nodes |
| ChargeGateFidelityGraph.EdgeCount | calibrations/LCH_graph_charge_gate_fidelity.py:32-34 | n - 1 edges |
| ChargeGateFidelityGraph.Named | calibrations/LCH_graph_charge_gate_fidelity.py:24-25 | every node's `name` is its key |
| ChargeGateFidelityGraph.Settings | calibrations/LCH_graph_charge_gate_fidelity.py:26-28 | every node uses active reset and 5000 shots |
| ChargeGateFidelityGraph.ChargeAt | calibrations/LCH_graph_charge_gate_fidelity.py:29 | node i measures at voltage `charge_gate[i]` |
| ChargeGateRamseyGraph.ChargeGate | calibrations/offline_graph/LCH_graph_charge_gate_ramsey.py:20 | 21 voltages from -0.5 to 0.5 in steps of 0.05 |
| ChargeGateRamseyGraph.KindsInjective | calibrations/offline_graph/LCH_graph_charge_gate_ramsey.py:24 | the names are distinct |
| ChargeGateRamseyGraph.Build | calibrations/offline_graph/LCH_graph_charge_gate_ramsey.py:20-40 | one Ramsey copy per voltage, chained in order |
| ChargeGateRamseyGraph.IsPath | calibrations/offline_graph/LCH_graph_charge_gate_ramsey.py:23-40 | a simple path through every node in creation order |
| ChargeGateRamseyGraph.PathEnds | calibrations/offline_graph/LCH_graph_charge_gate_ramsey.py:23-40 | from round 0 to round n-1 |
| ChargeGateRamseyGraph.Endpoints | calibrations/offline_graph/LCH_graph_charge_gate_ramsey.py:38-40 | every edge joins defined nodes |
| ChargeGateRamseyGraph.NodeCount | calibrations/offline_graph/LCH_graph_charge_gate_ramsey.py:23-36 | n nodes |
| ChargeGateRamseyGraph.EdgeCount | calibrations/offline_graph/LCH_graph_charge_gate_ramsey.py:38-40 | n - 1 edges |
| ChargeGateRamseyGraph.Named | calibrations/offline_graph/LCH_graph_charge_gate_ramsey.py:24-25 | every node's `name` is its key |
| ChargeGateRamseyGraph.SharedT2 | calibrations/offline_graph/LCH_graph_charge_gate_ramsey.py:18-28 | every node uses `t2_detuning` and `t2_max` |
| ChargeGateRamseyGraph.ChargeAt | calibrations/offline_graph/LCH_graph_charge_gate_ramsey.py:35 | node i measures at voltage `charge_gate[i]` |
| ChargeGateRamseyPowerFidelityGraph.ChargeGate | calibrations/offline_graph/LCH_graph_charge_gate_ramsey_power_fidelity.py:19 | 41 voltages from -0.5 to 0.5 in steps of 0.025 |
| ChargeGateRamseyPowerFidelityGraph.KindsInjective | calibrations/offline_graph/LCH_graph_charge_gate_ramsey_power_fidelity.py:23-37 | the two name patterns never collide |
| ChargeGateRamseyPowerFidelityGraph.Build | calibrations/offline_graph/LCH_graph_charge_gate_ramsey_power_fidelity.py:19-50 | a Ramsey and a readout-power copy per voltage, chained with the guard |
| ChargeGateRamseyPowerFidelityGraph.IsPath | calibrations/offline_graph/LCH_graph_charge_gate_ramsey_power_fidelity.py:22-50 | a simple path through every node in creation order |
| ChargeGateRamseyPowerFidelityGraph.PathEnds | calibrations/offline_graph/LCH_graph_charge_gate_ramsey_power_fidelity.py:22-50 | from the first Ramsey to the last readout-power node |
| ChargeGateRamseyPowerFidelityGraph.Endpoints | calibrations/offline_graph/LCH_graph_charge_gate_ramsey_power_fidelity.py:46-50 | every edge joins defined nodes |
| ChargeGateRamseyPowerFidelityGraph.NodeCount | calibrations/offline_graph/LCH_graph_charge_gate_ramsey_power_fidelity.py:22-45 | 2n nodes |
| ChargeGateRamseyPowerFidelityGraph.EdgeCount | calibrations/offline_graph/LCH_graph_charge_gate_ramsey_power_fidelity.py:46-50 | 2n - 1 edges |
| ChargeGateRamseyPowerFidelityGraph.Named | calibrations/offline_graph/LCH_graph_charge_gate_ramsey_power_fidelity.py:23-37 | every node's `name` is its key |
| ChargeGateRamseyPowerFidelityGraph.ChargeAt | calibrations/offline_graph/LCH_graph_charge_gate_ramsey_power_fidelity.py:34-44 | both nodes of round i measure at voltage `charge_gate[i]` |
| ChargeGateRRpGraph.KindsInjective | calibrations/offline_graph/LCH_graph_charge_gate_r_rp.py:21-36 | the two name patterns never collide |
| ChargeGateRRpGraph.AddTerminal | calibrations/offline_graph/LCH_graph_charge_gate_r_rp.py:47-60 | the extra Ramsey node is added under round `repeat_times` |
| ChargeGateRRpGraph.Build | calibrations/offline_graph/LCH_graph_charge_gate_r_rp.py:18-65 | 21 rounds of Ramsey and readout power, the terminal Ramsey, and an unguarded chain into it |
| ChargeGateRRpGraph.TerminalIsCopy | calibrations/offline_graph/LCH_graph_charge_gate_r_rp.py:21-60 | the terminal node has the settings of the loop's Ramsey for that round |
| ChargeGateRRpGraph.IsPath | calibrations/offline_graph/LCH_graph_charge_gate_r_rp.py:20-65 | a simple path through every node, ending in the terminal Ramsey |
| ChargeGateRRpGraph.PathEnds | calibrations/offline_graph/LCH_graph_charge_gate_r_rp.py:20-65 | the path starts at the first Ramsey |
| ChargeGateRRpGraph.Endpoints | calibrations/offline_graph/LCH_graph_charge_gate_r_rp.py:61-65 | the last edge, left unguarded, ends at the terminal node, so every endpoint is defined |
| ChargeGateRRpGraph.NodeCount | calibrations/offline_graph/LCH_graph_charge_gate_r_rp.py:20-60 | 2n + 1 nodes |
| ChargeGateRRpGraph.EdgeCount | calibrations/offline_graph/LCH_graph_charge_gate_r_rp.py:61-65 | 2n edges |
| ChargeGateRRpGraph.Named | calibrations/offline_graph/LCH_graph_charge_gate_r_rp.py:21-48 | every node's `name` is its key |
| PdFreqTimeGraph.AmpRatios | calibrations/offline_graph/LCH_graph_pd_freq_time.py:19 | 17 ratios from 0.2 to 1 in steps of 0.05 |
| PdFreqTimeGraph.KindsInjective | calibrations/offline_graph/LCH_graph_pd_freq_time.py:23 | the names are distinct |
| PdFreqTimeGraph.Build | calibrations/offline_graph/LCH_graph_pd_freq_time.py:19-40 | one drive-time copy per ratio, chained in order |
| PdFreqTimeGraph.IsPath | calibrations/offline_graph/LCH_graph_pd_freq_time.py:22-40 | a simple path through every node in creation order |
| PdFreqTimeGraph.PathEnds | calibrations/offline_graph/LCH_graph_pd_freq_time.py:22-40 | from round 0 to round n-1 |
| PdFreqTimeGraph.Endpoints | calibrations/offline_graph/LCH_graph_pd_freq_time.py:38-40 | every edge joins defined nodes |
| PdFreqTimeGraph.NodeCount | calibrations/offline_graph/LCH_graph_pd_freq_time.py:22-36 | n nodes |
| PdFreqTimeGraph.EdgeCount | calibrations/offline_graph/LCH_graph_pd_freq_time.py:38-40 | n - 1 edges |
| PdFreqTimeGraph.Named | calibrations/offline_graph/LCH_graph_pd_freq_time.py:23-24 | every node's `name` is its key |
| PdFreqTimeGraph.SameWindow | calibrations/offline_graph/LCH_graph_pd_freq_time.py:28-29 | every node sweeps the same frequency window, 231 to 238 MHz |
| PdFreqTimeGraph.AmpAt | calibrations/offline_graph/LCH_graph_pd_freq_time.py:31 | node i drives at ratio `amp_ratio[i]` |
| PdFreqTimeTomoGraph.KindsInjective | calibrations/offline_graph/LCH_graph_pd_freq_time_tomo.py:26 | the names are distinct |
| PdFreqTimeTomoGraph.Build | calibrations/offline_graph/LCH_graph_pd_freq_time_tomo.py:19-44 | one tomography copy per driving-list entry, chained in order |
| PdFreqTimeTomoGraph.IsPath | calibrations/offline_graph/LCH_graph_pd_freq_time_tomo.py:24-44 | a simple path through every node in creation order |
| PdFreqTimeTomoGraph.PathEnds | calibrations/offline_graph/LCH_graph_pd_freq_time_tomo.py:24-44 | from round 0 to round n-1 |
| PdFreqTimeTomoGraph.Endpoints | calibrations/offline_graph/LCH_graph_pd_freq_time_tomo.py:42-44 | every edge joins defined nodes |
| PdFreqTimeTomoGraph.NodeCount | calibrations/offline_graph/LCH_graph_pd_freq_time_tomo.py:24-40 | n nodes |
| PdFreqTimeTomoGraph.EdgeCount | calibrations/offline_graph/LCH_graph_pd_freq_time_tomo.py:42-44 | n - 1 edges |
| PdFreqTimeTomoGraph.Named | calibrations/offline_graph/LCH_graph_pd_freq_time_tomo.py:26-27 | every node's `name` is its key |
| PdFreqTimeTomoGraph.CopyWindow | calibrations/offline_graph/LCH_graph_pd_freq_time_tomo.py:25-34 | copy i sweeps the span around entry i's centre in MHz, at entry i's amplitude ratio |
| PdFreqTimeTomoGraph.WindowAt | calibrations/offline_graph/LCH_graph_pd_freq_time_tomo.py:19-34 | in the built graph, node i has that window and ratio |
| RamseyParityGraph.KindsInjective | calibrations/exclude/LCH_graph_ramsey_parity.py:21-33 | the two name patterns never collide |
| RamseyParityGraph.Build | calibrations/exclude/LCH_graph_ramsey_parity.py:18-43 | fifty rounds of Ramsey then parity switch, chained with the guard |
| RamseyParityGraph.IsPath | calibrations/exclude/LCH_graph_ramsey_parity.py:20-43 | a simple path through every node in creation order |
| RamseyParityGraph.PathEnds | calibrations/exclude/LCH_graph_ramsey_parity.py:20-43 | from the first Ramsey to the last parity-switch node |
| RamseyParityGraph.Endpoints | calibrations/exclude/LCH_graph_ramsey_parity.py:39-43 | every edge joins defined nodes |
| RamseyParityGraph.NodeCount | calibrations/exclude/LCH_graph_ramsey_parity.py:20-38 | 2n nodes |
| RamseyParityGraph.EdgeCount | calibrations/exclude/LCH_graph_ramsey_parity.py:39-43 | 2n - 1 edges |
| RamseyParityGraph.Named | calibrations/exclude/LCH_graph_ramsey_parity.py:21-33 | every node's `name` is its key |
| RamseyParityGraph.ResetModes | calibrations/exclude/LCH_graph_ramsey_parity.py:23-35 | Ramsey nodes use active reset with discrimination; parity nodes use thermal reset without it |
| RamseyRepeatExcludedGraph.KindsInjective | calibrations/exclude/LCH_graph_ramsey_repeat.py:22 | the names are distinct |
| RamseyRepeatExcludedGraph.Build | calibrations/exclude/LCH_graph_ramsey_repeat.py:20-37 | ten Ramsey copies, chained in order |
| RamseyRepeatExcludedGraph.IsPath | calibrations/exclude/LCH_graph_ramsey_repeat.py:21-37 | a simple path through every node in creation order |
| RamseyRepeatExcludedGraph.PathEnds | calibrations/exclude/LCH_graph_ramsey_repeat.py:21-37 | from round 0 to round n-1 |
| RamseyRepeatExcludedGraph.Endpoints | calibrations/exclude/LCH_graph_ramsey_repeat.py:35-37 | every edge joins defined nodes |
| RamseyRepeatExcludedGraph.NodeCount | calibrations/exclude/LCH_graph_ramsey_repeat.py:21-33 | n nodes |
| RamseyRepeatExcludedGraph.EdgeCount | calibrations/exclude/LCH_graph_ramsey_repeat.py:35-37 | n - 1 edges |
| RamseyRepeatExcludedGraph.Named | calibrations/exclude/LCH_graph_ramsey_repeat.py:22-23 | every node's `name` is its key |
| RamseyRepeatExcludedGraph.T2Unused | calibrations/exclude/LCH_graph_ramsey_repeat.py:18-28 | the copies use the literals 0.4 MHz and 40000 ns, not `t2_detuning` and `t2_max` |
| RamseyRepeatGraph.KindsInjective | calibrations/LCH_graph_ramsey_repeat.py:22 | the names are distinct |
| RamseyRepeatGraph.Build | calibrations/LCH_graph_ramsey_repeat.py:20-35 | one hundred Ramsey copies, chained in order |
| RamseyRepeatGraph.IsPath | calibrations/LCH_graph_ramsey_repeat.py:21-35 | a simple path through every node in creation order |
| RamseyRepeatGraph.PathEnds | calibrations/LCH_graph_ramsey_repeat.py:21-35 | from `ramsey_0` to `ramsey_{n-1}` |
| RamseyRepeatGraph.Endpoints | calibrations/LCH_graph_ramsey_repeat.py:33-35 | every edge joins defined nodes |
| RamseyRepeatGraph.NodeCount | calibrations/LCH_graph_ramsey_repeat.py:21-31 | n nodes |
| RamseyRepeatGraph.EdgeCount | calibrations/LCH_graph_ramsey_repeat.py:33-35 | n - 1 edges |
| RamseyRepeatGraph.Named | calibrations/LCH_graph_ramsey_repeat.py:22-23 | every node's `name` is its key |
| RamseyRepeatGraph.SharedT2 | calibrations/LCH_graph_ramsey_repeat.py:18-26 | every copy uses `t2_detuning` and `t2_max` |
| TemporalSteeringGraph.KindsInjective | calibrations/LCH_graph_TS.py:20-22 | the six labels give six distinct names |
| TemporalSteeringGraph.Build | calibrations/LCH_graph_TS.py:19-38 | one steering copy per prepare gate, chained in order |
| TemporalSteeringGraph.IsPath | calibrations/LCH_graph_TS.py:21-38 | a simple path through every node in creation order |
| TemporalSteeringGraph.PathEnds | calibrations/LCH_graph_TS.py:21-38 | from the `xp` node to the node of the last label |
| TemporalSteeringGraph.Endpoints | calibrations/LCH_graph_TS.py:36-38 | every edge joins defined nodes |
| TemporalSteeringGraph.NodeCount | calibrations/LCH_graph_TS.py:21-34 | n nodes |
| TemporalSteeringGraph.EdgeCount | calibrations/LCH_graph_TS.py:36-38 | n - 1 edges |
| TemporalSteeringGraph.Named | calibrations/LCH_graph_TS.py:22-23 | every node's `name` is its key |
| TemporalSteeringGraph.PrepareAt | calibrations/LCH_graph_TS.py:19-29 | the node of label i prepares with gate `prepare[i]` |
| TemporalSteeringGraph.SingleQubit | calibrations/LCH_graph_TS.py:25 | every node measures qubit q0 alone |
| RetuningGraph.KindsInjective | calibrations/exclude/retuning_graph_t2_repeat.py:28-35 | the T1 and `ramsey_long` names never collide |
| RetuningGraph.HeadFresh | calibrations/exclude/retuning_graph_t2_repeat.py:22-35 | `close_other_qms` is not among the loop's names |
| RetuningGraph.HeadEdge | calibrations/exclude/retuning_graph_t2_repeat.py:44 | the first edge runs from `close_other_qms` to `T1_1` |
| RetuningGraph.BuildAsWritten | calibrations/exclude/retuning_graph_t2_repeat.py:22-48 | the script as written: 320 pairs, and a chain whose guard `i < 321` never fails |
| RetuningGraph.DanglingEdge | calibrations/exclude/retuning_graph_t2_repeat.py:45-48 | the last edge as written runs to `T1_{m}`, which was never created |
| RetuningGraph.AsWrittenUndefined | calibrations/exclude/retuning_graph_t2_repeat.py:44-48 | the connectivity as written has an undefined endpoint |
| RetuningGraph.Build | calibrations/exclude/retuning_graph_t2_repeat.py:22-48 | the intended graph: the same nodes, with the guard stopping before the last pair |
| RetuningGraph.IsPath | calibrations/exclude/retuning_graph_t2_repeat.py:42-48 | the intended edges form one simple path from `close_other_qms` through every pair |
| RetuningGraph.PathEnds | calibrations/exclude/retuning_graph_t2_repeat.py:43 | the intended path ends at `ramsey_long{m-1}` |
| RetuningGraph.Endpoints | calibrations/exclude/retuning_graph_t2_repeat.py:44-48 | every intended edge joins defined nodes |
| RetuningGraph.NodeCount | calibrations/exclude/retuning_graph_t2_repeat.py:22-40 | 2(m-1) + 1 nodes |
| RetuningGraph.EdgeCount | calibrations/exclude/retuning_graph_t2_repeat.py:44-48 | 2(m-1) intended edges |
| RetuningGraph.Named | calibrations/exclude/retuning_graph_t2_repeat.py:22-35 | every node's `name` is its key |
| RetuningGraph.SingleQubit | calibrations/exclude/retuning_graph_t2_repeat.py:14-33 | every loop node measures qubit q0 |

## Left out

- Floating point is exact real arithmetic. Rounding, and the fact that `np.linspace` and the list literals give doubles only close to the stated decimals, are not modelled. NaN and the infinities are modelled where they arise.
- `scipy.optimize.curve_fit` is a solver parameter whose only assumed property is that it respects its bounds. Its optimisation, convergence and the exception kinds it raises are not modelled. `np.cos` and the flat-top Gaussian generator of the pulse library are function parameters too.
- Plotting (matplotlib figures, axes, text layout), printing, and reading the TOML file are not modelled. The Windows `is_admin` check only prints, so it is left out as well.
- The filesystem is an abstract value keyed by parsed paths. Which paths exist, which removals and creations raise, and the folder listings are its fields. A path that exists without a listing is a regular file, and listing it raises. Symlink resolution, permissions and concurrent changes are not modelled. `Path(__file__).parent.resolve()` is the `scriptDir` parameter.
- The xarray datasets are records. A CZ grid is its dimensions, coordinates and a state function per index. Labelled selection is modelled only for the `basis` and `ctrl_switch` axes the code uses.
- Within the calibration graphs, the following are left out:
    - `QualibrationGraph` and `g.run`;
    - the library's node classes, where a node copy is modelled as a record of its name and overridden parameters;
    - the dictionary's insertion order;
    - the print-only index counters of the link loops.
- ChargeGateFidelityGraph, ChargeGateRamseyGraph, ChargeGateRamseyPowerFidelityGraph, PdFreqTimeGraph, PdFreqTimeTomoGraph and TemporalSteeringGraph: the per-round value functions fall back to a default for a round index outside the list. No built round uses that fallback.
- Pulses.CascadeWaveform: the multiplication by `exp(1j*axis_angle)` is kept as the axis angle tag on the waveform, because complex numbers are not modelled.
- Pulses.RampWaveform: the same applies; the samples are the real ramp and the axis angle is a tag.
- RetuningGraph: the comment "Dynamically build 100 (T1, Ramsey) measurement pairs" and "1 → 100" disagree with `range(1, 321)`. The model follows the code and builds 320 pairs.
- CalibrationLinks.JoinPath: paths follow POSIX pathlib (`PurePosixPath`): doubled and trailing slashes and "." parts are dropped, ".." is kept. Windows paths are not modelled: drive letters, `\` as a separator and case-insensitive comparison. The special root `//` that POSIX pathlib keeps for exactly two leading slashes is not modelled either.
- CreateLinks: the existence checks and listings of both loops read the filesystem as `main` found it. A link the run creates or removes at a later source path is not seen by that source's `exists()`, and a link created inside a later source folder is not listed. When a listing raises, the model returns the path and the filesystem; the traceback and the exit status 1 are not modelled.
- GetPyFiles: the sorted order is proved for POSIX Paths (GetPyFilesPathOrder). On Windows `sorted()` compares case-folded paths, and the model does not capture that order.
- GetSubfolders: the same applies. The order is proved for POSIX Paths (GetSubfoldersPathOrder), not for the case-folded Windows order.
- ParitySwitchRamsey.IdleTicks: the qubit objects and the pulse sequence around the wait are not modelled. Only the computed wait is.
- The QUA programs of the node scripts are not modelled, only the sweep arrays they compute. Their hardware execution, data fetching and the node machinery are left out as well.

## Findings

| source | as written | input that shows it | evidently intended | confidence | as-written member | corrected member |
|---|---|---|---|---|---|---|
| calibrations/exclude/retuning_graph_t2_repeat.py:47 | the guard `if i < 321` inside `for i in range(1, 321)` is always true, so the last iteration adds the edge `ramsey_long320 → T1_321` | i = 320: `T1_321` is never created | guard `i < 320`, so the chain ends at `ramsey_long320` | not executed | RetuningGraph.DanglingEdge | RetuningGraph.Endpoints |
| create_calibration_links.py:178 | `source_base = Path(config.get("source_base", ""))` is tested with `not source_base`, but every `Path` is truthy, so the abort never happens | a config without `source_base`: the script links from the current folder instead of stopping | abort when the setting is missing or empty | not executed | CalibrationLinks.BaseGuardAsWrittenMissesMissing | CalibrationLinks.CreateLinks |
