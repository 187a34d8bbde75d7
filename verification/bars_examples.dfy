/**
 Worked scenarios of the labelling, each stated as a lemma about
 `FindVolumeGroups`.
 */
module BarsExamples {
  import opened Bars

  /** Running sums 10, 20, 30 (bar 1 closes on the third volume), then 10. */
  lemma ThirdVolumeClosesFirstBar()
    ensures FindVolumeGroups([10, 10, 10, 10], 25) == [1, 1, 1, 2]
  {
  }

  /** Each volume alone reaches the threshold, so each opens a bar of its own. */
  lemma EveryVolumeAtThreshold()
    ensures FindVolumeGroups([5, 5, 5, 5, 5], 5) == [1, 2, 3, 4, 5]
  {
  }

  /** A single volume beyond the threshold keeps the label of the bar it closes. */
  lemma SingleVolumeOverThreshold()
    ensures FindVolumeGroups([100], 50) == [1]
  {
  }

  /** The threshold is never reached, so every volume stays in bar 1. */
  lemma ThresholdNeverReached()
    ensures FindVolumeGroups([1, 1, 1], 100) == [1, 1, 1]
  {
  }
}
