/**
 An independent description of a correct labelling, stated over the labels
 alone rather than over the accumulator, and the proof that the pass
 computes exactly that labelling. The structural facts about bars (closed
 bars reach the threshold, open prefixes stay below it, the two degenerate
 thresholds) are derived from it.
 */
module BarsProperties {
  import opened Bars

  /** Sum of a sequence of volumes. */
  function Sum(s: seq<int>): int
    decreases |s|
  {
    if |s| == 0 then 0 else Sum(s[..|s| - 1]) + s[|s| - 1]
  }

  /** Extending a run of volumes by the next one adds that volume to its sum. */
  lemma SumExtend(vols: seq<int>, s: nat, e: nat)
    requires s <= e < |vols|
    ensures Sum(vols[s..e + 1]) == Sum(vols[s..e]) + vols[e]
  {
    assert vols[s..e + 1][..e - s] == vols[s..e];
  }

  /** The first index of the run of equal labels that ends at `i`: the start
      of the bar that volume `i` belongs to. */
  function GroupStart(labels: seq<int>, i: nat): (s: nat)
    requires i < |labels|
    ensures s <= i
    ensures forall j :: s <= j <= i ==> labels[j] == labels[i]
    ensures s == 0 || labels[s - 1] != labels[i]
    decreases i
  {
    if i == 0 || labels[i - 1] != labels[i] then i else GroupStart(labels, i - 1)
  }

  /** How the label moves from volume `i` to volume `i + 1`: it rises by
      exactly one when the volumes of the bar that `i` belongs to, up to and
      including `i`, sum to at least the threshold, and stays otherwise. */
  ghost predicate BarStep(vols: seq<int>, threshold: int, labels: seq<int>, i: nat)
    requires i + 1 < |vols| == |labels|
  {
    if Sum(vols[GroupStart(labels, i)..i + 1]) >= threshold
    then labels[i + 1] == labels[i] + 1
    else labels[i + 1] == labels[i]
  }

  /** A correct labelling of `vols`: one label per volume, the first is 1, and
      every pair of neighbours is related by `BarStep`. */
  ghost predicate ValidLabelling(vols: seq<int>, threshold: int, labels: seq<int>)
  {
    && |labels| == |vols|
    && (|vols| > 0 ==> labels[0] == 1)
    && forall i: nat :: i + 1 < |vols| ==> BarStep(vols, threshold, labels, i)
  }

  /** Before volume `i` is processed, the accumulator holds the sum of the
      volumes of `i`'s bar that precede `i`. */
  lemma {:induction false} CumulativeIsGroupSum(vols: seq<int>, threshold: int, i: nat)
    requires i < |vols|
    ensures Run(vols[..i], threshold).cumulative
            == Sum(vols[GroupStart(FindVolumeGroups(vols, threshold), i)..i])
    decreases i
  {
    if i > 0 {
      var labels := FindVolumeGroups(vols, threshold);
      var pre := Run(vols[..i - 1], threshold);
      var s := GroupStart(labels, i - 1);
      CumulativeIsGroupSum(vols, threshold, i - 1);
      LabelIsPrefixState(vols, threshold, i - 1);
      LabelIsPrefixState(vols, threshold, i);
      assert vols[..i] == vols[..i - 1] + [vols[i - 1]];
      RunFromSnoc(Initial, vols[..i - 1], vols[i - 1], threshold);
      SumExtend(vols, s, i - 1);
      if pre.cumulative + vols[i - 1] >= threshold {
        assert GroupStart(labels, i) == i;
      } else {
        assert GroupStart(labels, i) == s;
      }
    }
  }

  /** The pass produces a correct labelling. */
  lemma Soundness(vols: seq<int>, threshold: int)
    ensures ValidLabelling(vols, threshold, FindVolumeGroups(vols, threshold))
  {
    var labels := FindVolumeGroups(vols, threshold);
    forall i: nat | i + 1 < |vols|
      ensures BarStep(vols, threshold, labels, i)
    {
      var s := GroupStart(labels, i);
      CumulativeIsGroupSum(vols, threshold, i);
      LabelIsPrefixState(vols, threshold, i);
      LabelIsPrefixState(vols, threshold, i + 1);
      assert vols[..i + 1] == vols[..i] + [vols[i]];
      RunFromSnoc(Initial, vols[..i], vols[i], threshold);
      SumExtend(vols, s, i);
    }
  }

  /** Any correct labelling follows the accumulator: its label at `i` is the
      bar open after `i` volumes, and the accumulator holds the sum of the
      preceding volumes of that bar. */
  lemma {:induction false} ValidTracksRun(vols: seq<int>, threshold: int, labels: seq<int>, i: nat)
    requires ValidLabelling(vols, threshold, labels)
    requires i < |vols|
    ensures labels[i] == Run(vols[..i], threshold).group
    ensures Run(vols[..i], threshold).cumulative == Sum(vols[GroupStart(labels, i)..i])
    decreases i
  {
    if i > 0 {
      var pre := Run(vols[..i - 1], threshold);
      var s := GroupStart(labels, i - 1);
      ValidTracksRun(vols, threshold, labels, i - 1);
      assert BarStep(vols, threshold, labels, i - 1);
      assert vols[..i] == vols[..i - 1] + [vols[i - 1]];
      RunFromSnoc(Initial, vols[..i - 1], vols[i - 1], threshold);
      SumExtend(vols, s, i - 1);
      if pre.cumulative + vols[i - 1] >= threshold {
        assert GroupStart(labels, i) == i;
      } else {
        assert GroupStart(labels, i) == s;
      }
    }
  }

  /** A correct labelling is unique: it is the one the pass produces. */
  lemma Uniqueness(vols: seq<int>, threshold: int, labels: seq<int>)
    requires ValidLabelling(vols, threshold, labels)
    ensures labels == FindVolumeGroups(vols, threshold)
  {
    var r := FindVolumeGroups(vols, threshold);
    forall i | 0 <= i < |vols|
      ensures labels[i] == r[i]
    {
      ValidTracksRun(vols, threshold, labels, i);
      LabelIsPrefixState(vols, threshold, i);
    }
  }

  /** The output of the pass is characterised exactly by `ValidLabelling`. */
  lemma Characterisation(vols: seq<int>, threshold: int, labels: seq<int>)
    ensures labels == FindVolumeGroups(vols, threshold) <==> ValidLabelling(vols, threshold, labels)
  {
    Soundness(vols, threshold);
    if ValidLabelling(vols, threshold, labels) {
      Uniqueness(vols, threshold, labels);
    }
  }

  /** Bars in terms of their first and last members: for a bar starting at
      `s` and a member `e` of it, the volumes `s..e` stay below the threshold
      when `e + 1` is in the same bar, and reach it when `e + 1` opens the next
      bar. The element that crosses the threshold is the last of its bar. */
  lemma GroupSums(vols: seq<int>, threshold: int, s: nat, e: nat)
    requires s <= e < |vols|
    requires var labels := FindVolumeGroups(vols, threshold);
             s == 0 || labels[s - 1] < labels[s]
    requires var labels := FindVolumeGroups(vols, threshold);
             labels[e] == labels[s]
    ensures var labels := FindVolumeGroups(vols, threshold);
            e + 1 < |vols| && labels[e + 1] == labels[e] ==> Sum(vols[s..e + 1]) < threshold
    ensures var labels := FindVolumeGroups(vols, threshold);
            e + 1 < |vols| && labels[e + 1] != labels[e] ==> Sum(vols[s..e + 1]) >= threshold
  {
    var labels := FindVolumeGroups(vols, threshold);
    assert GroupStart(labels, e) == s;
    if e + 1 < |vols| {
      Soundness(vols, threshold);
      assert BarStep(vols, threshold, labels, e);
    }
  }

  /** Processing volumes whose every nonempty prefix stays below the threshold
      never leaves bar 1, and accumulates their sum. */
  lemma {:induction false} RunBelowThreshold(vols: seq<int>, threshold: int, i: nat)
    requires i <= |vols|
    requires forall k :: 1 <= k <= i ==> Sum(vols[..k]) < threshold
    ensures Run(vols[..i], threshold) == Accumulator(Sum(vols[..i]), 1)
    decreases i
  {
    if i > 0 {
      RunBelowThreshold(vols, threshold, i - 1);
      assert vols[..i] == vols[..i - 1] + [vols[i - 1]];
      RunFromSnoc(Initial, vols[..i - 1], vols[i - 1], threshold);
      SumExtend(vols, 0, i - 1);
      assert vols[0..i] == vols[..i] && vols[0..i - 1] == vols[..i - 1];
    }
  }

  /** All volumes share bar 1 exactly when every non-empty prefix that leaves
      at least one volume after it sums to less than the threshold. */
  lemma SingleGroup(vols: seq<int>, threshold: int)
    ensures (forall i :: 0 <= i < |vols| ==> FindVolumeGroups(vols, threshold)[i] == 1)
        <==> (forall k :: 1 <= k < |vols| ==> Sum(vols[..k]) < threshold)
  {
    var labels := FindVolumeGroups(vols, threshold);
    if forall k :: 1 <= k < |vols| ==> Sum(vols[..k]) < threshold {
      forall i | 0 <= i < |vols|
        ensures labels[i] == 1
      {
        RunBelowThreshold(vols, threshold, i);
        LabelIsPrefixState(vols, threshold, i);
      }
    }
    if forall i :: 0 <= i < |vols| ==> labels[i] == 1 {
      Soundness(vols, threshold);
      forall k | 1 <= k < |vols|
        ensures Sum(vols[..k]) < threshold
      {
        assert BarStep(vols, threshold, labels, k - 1);
        assert GroupStart(labels, k - 1) == 0;
        assert vols[0..k] == vols[..k];
      }
    }
  }

  /** When every volume processed so far reaches the threshold on its own,
      each one closed its own bar. */
  lemma {:induction false} RunAllClose(vols: seq<int>, threshold: int, i: nat)
    requires i <= |vols|
    requires forall j :: 0 <= j < i ==> vols[j] >= threshold
    ensures Run(vols[..i], threshold) == Accumulator(0, i + 1)
    decreases i
  {
    if i > 0 {
      RunAllClose(vols, threshold, i - 1);
      assert vols[..i] == vols[..i - 1] + [vols[i - 1]];
      RunFromSnoc(Initial, vols[..i - 1], vols[i - 1], threshold);
    }
  }

  /** The labels are 1, 2, ..., N exactly when every volume except possibly
      the last reaches the threshold on its own. */
  lemma EveryVolumeClosesIff(vols: seq<int>, threshold: int)
    ensures (forall i :: 0 <= i < |vols| ==> FindVolumeGroups(vols, threshold)[i] == i + 1)
        <==> (forall i :: 0 <= i < |vols| - 1 ==> vols[i] >= threshold)
  {
    var labels := FindVolumeGroups(vols, threshold);
    if forall i :: 0 <= i < |vols| - 1 ==> vols[i] >= threshold {
      forall i | 0 <= i < |vols|
        ensures labels[i] == i + 1
      {
        RunAllClose(vols, threshold, i);
        LabelIsPrefixState(vols, threshold, i);
      }
    }
    if forall i :: 0 <= i < |vols| ==> labels[i] == i + 1 {
      Soundness(vols, threshold);
      forall i | 0 <= i < |vols| - 1
        ensures vols[i] >= threshold
      {
        assert BarStep(vols, threshold, labels, i);
        assert GroupStart(labels, i) == i;
        SumExtend(vols, i, i);
      }
    }
  }

  /** With a threshold of at most zero and no negative volume, every volume
      closes its own bar: the labels are 1, 2, ..., N. */
  lemma NonPositiveThreshold(vols: seq<int>, threshold: int)
    requires threshold <= 0
    requires forall i :: 0 <= i < |vols| ==> vols[i] >= 0
    ensures forall i :: 0 <= i < |vols| ==> FindVolumeGroups(vols, threshold)[i] == i + 1
  {
    EveryVolumeClosesIff(vols, threshold);
  }
}
