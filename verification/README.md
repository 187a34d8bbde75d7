# Volume bars: `find_volume_groups`

This project models `find_volume_groups` from FancyBar. The function splits a series of trade volumes into "volume bars". It makes one forward pass and keeps two pieces of state: the volume accumulated since the last bar boundary, and the label of the bar that is currently open. For each volume it adds the volume to the running sum, emits the open bar's label, and then, if the sum has reached the threshold, resets the sum to zero and opens the next bar. The volume that crosses the threshold therefore carries the label of the bar it closes.

Files:

- `bars.dfy` (module `Bars`): the accumulator state, one step of the pass, and the state after a prefix of volumes (`RunFrom`, `Run`). It also holds the recursive labelling `LabelsFrom` and its entry point `FindVolumeGroups`, plus `FindVolumeGroupsLoop`, the imperative loop as written, proved equal to the recursive labelling.
- `bars_properties.dfy` (module `BarsProperties`): an independent description of a correct labelling (`ValidLabelling`). It states, for every pair of neighbouring labels, when the label rises and when it stays, in terms of the volumes of the current bar. It also holds the proof that the pass produces exactly that labelling, and the structural facts derived from it.
- `bars_examples.dfy` (module `BarsExamples`): four worked scenarios.

Volumes and labels are unbounded mathematical integers. The threshold parameter is called `volume` in the source and `threshold` here, except in the loop method, which keeps the source's names.

## Model

| member | source | states |
|---|---|---|
| Bars.Step | src/bars.cpp:10-15 | no contract; its definition is one iteration of the loop: add the volume to the running sum, and if the sum is at least the threshold, reset it to 0 and increment the label, otherwise keep the sum and the label |
| Bars.RunFrom | src/bars.cpp:9-16 | no contract; its definition is the accumulator state after applying `Step` to each volume in order, from a given start state |
| Bars.Run | src/bars.cpp:7-16 | no contract; its definition is `RunFrom` started from sum 0 and label 1, the loop's initial state |
| BarsProperties.ValidLabelling | src/bars.cpp:9-15 | no contract; it is the reference definition of a correct labelling: one label per volume, the first label is 1, and from `i` to `i+1` the label rises by exactly 1 when the sum of `i`'s bar up to and including `i` is at least the threshold, and stays the same otherwise |
| Bars.FindVolumeGroups | src/bars.cpp:7-17 | one label per volume, so empty input gives empty output; the first label is 1; the label of volume `i` lies in `1..i+1`, so the last label is at most N; neighbouring labels differ by 0 or 1, and labels never decrease |
| Bars.LabelsFrom | src/bars.cpp:9-16 | started from any accumulator state, the pass emits one label per volume; the first is the open bar's label; labels step by 0 or 1 and never decrease |
| Bars.FindVolumeGroupsLoop | src/bars.cpp:5-17 | the accumulator loop, with its add / emit / close order, returns exactly the recursive labelling |
| Bars.RunFromSnoc | src/bars.cpp:9-16 | processing one more volume after a prefix is one more step of the accumulator |
| Bars.LabelsFromIsPrefixState | src/bars.cpp:10-15 | from any start state, the label of volume `i` is the bar open after the first `i` volumes, i.e. the label before any boundary check that volume `i` triggers |
| Bars.LabelIsPrefixState | src/bars.cpp:10-15 | the label of volume `i` is the bar open after the first `i` volumes; a crossing volume keeps the pre-increment label |
| BarsProperties.CumulativeIsGroupSum | src/bars.cpp:7-13 | before volume `i` is added, the running sum equals the sum of the earlier volumes of `i`'s bar |
| BarsProperties.Soundness | src/bars.cpp:9-15 | the output is a correct labelling: the label rises by exactly 1 from `i` to `i+1` when the running sum of `i`'s bar, including `i`, is at least the threshold, and stays the same otherwise |
| BarsProperties.ValidTracksRun | src/bars.cpp:9-15 | any correct labelling agrees, index by index, with the accumulator's open bar, and the accumulator holds the sum of the current bar so far |
| BarsProperties.Uniqueness | src/bars.cpp:9-15 | a correct labelling is unique: it equals the pass's output |
| BarsProperties.Characterisation | src/bars.cpp:7-16 | a sequence is the pass's output if and only if it is a correct labelling |
| BarsProperties.GroupSums | src/bars.cpp:10-14 | for a bar starting at `s` and a member `e`, the volumes `s..e` sum below the threshold when `e+1` is in the same bar, and reach it when `e+1` opens the next bar; so every closed bar reaches the threshold and every non-empty proper prefix of any bar stays below it |
| BarsProperties.RunBelowThreshold | src/bars.cpp:7-15 | while every non-empty prefix sum stays below the threshold, the pass stays in bar 1 and the running sum is the prefix sum |
| BarsProperties.SingleGroup | src/bars.cpp:8-15 | all labels are 1 if and only if every non-empty prefix shorter than the input sums below the threshold |
| BarsProperties.RunAllClose | src/bars.cpp:10-15 | while every volume alone reaches the threshold, each one closes its own bar and the sum is reset each time |
| BarsProperties.EveryVolumeClosesIff | src/bars.cpp:10-15 | the labels are 1, 2, ..., N if and only if every volume except possibly the last reaches the threshold on its own |
| BarsProperties.NonPositiveThreshold | src/bars.cpp:10-15 | with a threshold of at most 0 and no negative volume, the labels are 1, 2, ..., N |
| BarsExamples.ThirdVolumeClosesFirstBar | src/bars.cpp:9-16 | volumes 10, 10, 10, 10 with threshold 25 give labels 1, 1, 1, 2 |
| BarsExamples.EveryVolumeAtThreshold | src/bars.cpp:9-16 | volumes 5, 5, 5, 5, 5 with threshold 5 give labels 1, 2, 3, 4, 5 |
| BarsExamples.SingleVolumeOverThreshold | src/bars.cpp:9-16 | a single volume of 100 with threshold 50 gives label 1 |
| BarsExamples.ThresholdNeverReached | src/bars.cpp:9-16 | volumes 1, 1, 1 with threshold 100 give labels 1, 1, 1 |

## Left out

- The R binding: the `Rcpp.h` include, the export attribute, the `NumericVector`/`IntegerVector` argument and result types, and `Rcpp::wrap` (src/bars.cpp:1, 3-4, 17). These are glue to the host runtime.
- Floating-point volumes. In the source, `cumulative_volume += x[i]` adds a `double` to an `int` and truncates the result back to `int`, so fractional parts are dropped at every step. The conversion is undefined for out-of-range results and for R's `NA`/`NaN` volumes. The model takes integer volumes only, for which this addition is exact.
- Bars.FindVolumeGroups: does not model overflow of the 32-bit `int` accumulator or label (src/bars.cpp:7-8, 10, 14), because volumes and labels are unbounded integers here.
- `reserve` on the output vector (src/bars.cpp:6): it affects capacity only, not the result.
- Input validation. The source accepts any threshold and any volumes. The model accepts any threshold and any integer volumes: a threshold of at most 0, and negative volumes, follow the same mechanical rule as any other input.
