/**
 * The frequency-bin snapshot: on each analyzer callback the first channel
 * `bar.value[0]` of every bar is copied, position by position, into one
 * long-lived array that is allocated on the first call only.  A JavaScript
 * array grows when written one past its end, so a longer frame extends the
 * snapshot and a shorter one leaves the later entries of the previous frame.
 */
module BinSnapshot {
  import opened Wrappers

  /** Every bar carries at least one channel value (the analyzer's bars always do). */
  predicate WellFormedBars(bars: seq<seq<real>>) {
    forall i :: 0 <= i < |bars| ==> |bars[i]| > 0
  }

  function Max(a: nat, b: nat): nat {
    if a < b then b else a
  }

  /**
   * `after` is `before` with position i overwritten by the first channel of
   * bar i for every bar, extended when there are more bars than entries.
   */
  ghost predicate IsSnapshot(before: seq<real>, bars: seq<seq<real>>, after: seq<real>)
    requires WellFormedBars(bars)
  {
    && |after| == Max(|before|, |bars|)
    && (forall i :: 0 <= i < |bars| ==> after[i] == bars[i][0])
    && (forall i :: |bars| <= i < |before| ==> after[i] == before[i])
  }

  /** The snapshot is determined by the old array and the bars. */
  lemma SnapshotIsUnique(before: seq<real>, bars: seq<seq<real>>, a1: seq<real>, a2: seq<real>)
    requires WellFormedBars(bars)
    requires IsSnapshot(before, bars, a1) && IsSnapshot(before, bars, a2)
    ensures a1 == a2
  {
  }

  /**
   * `new Array(instance.getBars().length)` on the first call.  Its holes are
   * modelled as zeros; the copy that follows overwrites every one of them.
   */
  function Allocate(current: Option<seq<real>>, n: nat): (r: seq<real>)
    ensures current.Some? ==> r == current.value
    ensures current.None? ==> |r| == n
  {
    if current.Some? then current.value else seq(n, _ => 0.0)
  }

  /** On the first call nothing of the fresh array survives: the snapshot is the bars' first channels. */
  lemma FirstSnapshotIsBars(bars: seq<seq<real>>, after: seq<real>)
    requires WellFormedBars(bars)
    requires IsSnapshot(Allocate(None, |bars|), bars, after)
    ensures |after| == |bars|
    ensures forall i :: 0 <= i < |bars| ==> after[i] == bars[i][0]
  {
  }

  /**
   * The loop `for (const bar of bars) { values[barIdx] = bar.value[0]; barIdx++; }`,
   * writing into `values` one position at a time.
   */
  method CopyFirstChannels(values: seq<real>, bars: seq<seq<real>>) returns (updated: seq<real>)
    requires WellFormedBars(bars)
    ensures IsSnapshot(values, bars, updated)
  {
    updated := values;
    var barIdx := 0;
    while barIdx < |bars|
      invariant 0 <= barIdx <= |bars|
      invariant |updated| == Max(|values|, barIdx)
      invariant forall i :: 0 <= i < barIdx ==> updated[i] == bars[i][0]
      invariant forall i :: barIdx <= i < |values| ==> updated[i] == values[i]
    {
      if barIdx < |updated| {
        updated := updated[barIdx := bars[barIdx][0]];
      } else {
        updated := updated + [bars[barIdx][0]];
      }
      barIdx := barIdx + 1;
    }
  }
}
