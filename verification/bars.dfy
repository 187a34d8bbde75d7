/**
 Volume bars: a single forward pass over trade volumes that assigns each
 volume the label of the bar (group) it belongs to. A bar is closed as soon
 as the volume accumulated since the previous bar boundary reaches the
 threshold; the closing volume still belongs to the bar it closes.

 Volumes are unbounded integers: the accumulator never overflows and no
 fractional part is ever dropped.
 */
module Bars {

  /** The two pieces of state the pass carries from one volume to the next:
      the volume accumulated since the last boundary, and the label of the
      bar that is currently open. */
  datatype Accumulator = Accumulator(cumulative: int, group: int)

  /** State before any volume has been seen: nothing accumulated, bar 1 open. */
  const Initial: Accumulator := Accumulator(0, 1)

  /** Processes one volume: add it to the running sum, and when the sum has
      reached the threshold, reset it and open the next bar. */
  function Step(a: Accumulator, volume: int, threshold: int): Accumulator
  {
    var sum := a.cumulative + volume;
    if sum >= threshold then Accumulator(0, a.group + 1) else Accumulator(sum, a.group)
  }

  /** The state after processing all of `vols`, in order, starting from `a`. */
  function RunFrom(a: Accumulator, vols: seq<int>, threshold: int): Accumulator
    decreases |vols|
  {
    if |vols| == 0 then a else RunFrom(Step(a, vols[0], threshold), vols[1..], threshold)
  }

  /** The state after processing all of `vols` from the initial state. */
  function Run(vols: seq<int>, threshold: int): Accumulator
  {
    RunFrom(Initial, vols, threshold)
  }

  /** Processing one more volume at the end is one more `Step`. */
  lemma {:induction false} RunFromSnoc(a: Accumulator, vols: seq<int>, v: int, threshold: int)
    ensures RunFrom(a, vols + [v], threshold) == Step(RunFrom(a, vols, threshold), v, threshold)
    decreases |vols|
  {
    if |vols| == 0 {
      assert (vols + [v])[1..] == [];
    } else {
      assert (vols + [v])[1..] == vols[1..] + [v];
      RunFromSnoc(Step(a, vols[0], threshold), vols[1..], v, threshold);
    }
  }

  /** The labels emitted for `vols` by a pass that starts in state `a`: each
      volume is labelled with the bar that is open when it arrives, before
      the boundary check that the volume itself may trigger. */
  function LabelsFrom(vols: seq<int>, threshold: int, a: Accumulator): (r: seq<int>)
    ensures |r| == |vols|
    ensures |vols| > 0 ==> r[0] == a.group
    ensures forall i :: 0 <= i < |r| ==> a.group <= r[i] <= a.group + i
    ensures forall i :: 0 <= i < |r| - 1 ==> r[i + 1] == r[i] || r[i + 1] == r[i] + 1
    ensures forall i, j :: 0 <= i <= j < |r| ==> r[i] <= r[j]
    decreases |vols|
  {
    if |vols| == 0 then []
    else [a.group] + LabelsFrom(vols[1..], threshold, Step(a, vols[0], threshold))
  }

  /** The labels of `vols` under `threshold`: labels start at 1, never
      decrease, rise by at most one between neighbours, and the label of
      volume `i` is at most `i + 1`. */
  function FindVolumeGroups(vols: seq<int>, threshold: int): (r: seq<int>)
    ensures |r| == |vols|
    ensures |vols| > 0 ==> r[0] == 1
    ensures forall i :: 0 <= i < |r| ==> 1 <= r[i] <= i + 1
    ensures forall i :: 0 <= i < |r| - 1 ==> r[i + 1] == r[i] || r[i + 1] == r[i] + 1
    ensures forall i, j :: 0 <= i <= j < |r| ==> r[i] <= r[j]
  {
    LabelsFrom(vols, threshold, Initial)
  }

  /** The label of volume `i` is the bar that is open after the first `i`
      volumes have been processed. */
  lemma {:induction false} LabelsFromIsPrefixState(vols: seq<int>, threshold: int, a: Accumulator, i: nat)
    requires i < |vols|
    ensures LabelsFrom(vols, threshold, a)[i] == RunFrom(a, vols[..i], threshold).group
    decreases i
  {
    if i > 0 {
      LabelsFromIsPrefixState(vols[1..], threshold, Step(a, vols[0], threshold), i - 1);
      assert vols[..i][1..] == vols[1..][..i - 1];
    }
  }

  /** `FindVolumeGroups` labels each volume with the bar open when it arrives. */
  lemma LabelIsPrefixState(vols: seq<int>, threshold: int, i: nat)
    requires i < |vols|
    ensures FindVolumeGroups(vols, threshold)[i] == Run(vols[..i], threshold).group
  {
    LabelsFromIsPrefixState(vols, threshold, Initial, i);
  }

  /** The accumulator loop as written: add the volume, emit the open bar's
      label, then close the bar if the running sum reached the threshold. */
  method FindVolumeGroupsLoop(x: seq<int>, volume: int) returns (groups: seq<int>)
    ensures groups == FindVolumeGroups(x, volume)
  {
    groups := [];
    var cumulativeVolume := 0;
    var group := 1;
    var i := 0;
    while i < |x|
      invariant 0 <= i <= |x|
      invariant groups + LabelsFrom(x[i..], volume, Accumulator(cumulativeVolume, group)) == FindVolumeGroups(x, volume)
    {
      assert x[i..][1..] == x[i + 1..];
      cumulativeVolume := cumulativeVolume + x[i];
      groups := groups + [group];
      if cumulativeVolume >= volume {
        cumulativeVolume := 0;
        group := group + 1;
      }
      i := i + 1;
    }
    assert x[i..] == [];
  }
}
