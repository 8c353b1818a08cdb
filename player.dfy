/**
 * The clip player (`VideoEditor` component): the clip list sorted by `order`, the index of the
 * clip playing, the drag start, and the cumulative start/end map of the clips.
 */
module Player {
  import opened Wrappers
  import opened Sorting
  import opened Clips

  /** A clip with its start and end on the player's timeline. */
  datatype TimedClip = TimedClip(clip: Clip, start: real, end: real)

  /** `clip.duration ?? 0`. */
  function DurationOf(c: Clip): real { c.duration.GetOr(0.0) }

  /** The sum of the durations of the first `i` clips, a missing duration counting as 0. */
  function StartOf(clips: seq<Clip>, i: nat): real
    requires i <= |clips|
  {
    if i == 0 then 0.0 else StartOf(clips, i - 1) + DurationOf(clips[i - 1])
  }

  /** With no negative duration, a later clip never starts earlier (and, with `j == |clips|`, none starts after the total). */
  lemma {:induction false} StartsOrdered(clips: seq<Clip>, i: nat, j: nat)
    requires i <= j <= |clips|
    requires forall k :: 0 <= k < |clips| ==> DurationOf(clips[k]) >= 0.0
    ensures StartOf(clips, i) <= StartOf(clips, j)
    decreases j
  {
    if i < j {
      StartsOrdered(clips, i, j - 1);
    }
  }

  /**
   * The `timelineMap` reduce: the clips back to back from 0, each ending its duration after it
   * starts, each starting where the previous one ends, and the total the sum of the durations.
   */
  method TimelineMap(clips: seq<Clip>) returns (total: real, entries: seq<TimedClip>)
    ensures |entries| == |clips|
    ensures forall i :: 0 <= i < |clips| ==> entries[i].clip == clips[i]
    ensures |clips| > 0 ==> entries[0].start == 0.0
    ensures forall i :: 0 <= i < |clips| ==> entries[i].end == entries[i].start + DurationOf(clips[i])
    ensures forall i :: 0 < i < |clips| ==> entries[i].start == entries[i - 1].end
    ensures forall i :: 0 <= i < |clips| ==> entries[i].start == StartOf(clips, i)
    ensures total == StartOf(clips, |clips|)
    ensures |clips| > 0 ==> total == entries[|clips| - 1].end
  {
    total := 0.0;
    entries := [];
    var i := 0;
    while i < |clips|
      invariant 0 <= i <= |clips|
      invariant |entries| == i
      invariant total == StartOf(clips, i)
      invariant forall j :: 0 <= j < i ==> entries[j].clip == clips[j]
      invariant forall j :: 0 <= j < i ==> entries[j].start == StartOf(clips, j)
      invariant forall j :: 0 <= j < i ==> entries[j].end == entries[j].start + DurationOf(clips[j])
      invariant forall j :: 0 < j < i ==> entries[j].start == entries[j - 1].end
      invariant i > 0 ==> total == entries[i - 1].end
    {
      var clip := clips[i];
      var duration := clip.duration.GetOr(0.0);
      var start := total;
      var end := start + duration;
      entries := entries + [TimedClip(clip, start, end)];
      total := end;
      i := i + 1;
    }
  }

  /** The player's state. */
  class VideoEditor {
    var clipList: seq<Clip>
    var currIdx: int
    var dragStartIndex: Option<int>

    /** The initial list is a copy of `clips` sorted by `order` (stably). */
    constructor (clips: seq<Clip>)
      ensures clipList == SortBy(clips, Order)
      ensures currIdx == 0 && dragStartIndex == None
    {
      clipList := SortBy(clips, Order);
      currIdx := 0;
      dragStartIndex := None;
    }

    /** `handleMetadataLoaded`: record the duration on the current clip only. */
    method HandleMetadataLoaded(duration: real)
      modifies this
      ensures |clipList| == |old(clipList)|
      ensures forall i :: 0 <= i < |clipList| ==>
        clipList[i] == if i == old(currIdx) then old(clipList)[i].(duration := Some(duration)) else old(clipList)[i]
      ensures currIdx == old(currIdx) && dragStartIndex == old(dragStartIndex)
    {
      var prev := clipList;
      var idx := currIdx;
      clipList := seq(|prev|, i requires 0 <= i < |prev| => if i == idx then prev[i].(duration := Some(duration)) else prev[i]);
    }

    /** `handleEnded`: advance to the next clip unless the current one is the last. */
    method HandleEnded()
      modifies this
      ensures currIdx == if old(currIdx) < |old(clipList)| - 1 then old(currIdx) + 1 else old(currIdx)
      ensures 0 <= old(currIdx) < |old(clipList)| ==> 0 <= currIdx < |clipList|
      ensures clipList == old(clipList) && dragStartIndex == old(dragStartIndex)
    {
      if currIdx < |clipList| - 1 {
        currIdx := currIdx + 1;
      }
    }

    method HandleDragStart(index: int)
      modifies this
      ensures dragStartIndex == Some(index)
      ensures clipList == old(clipList) && currIdx == old(currIdx)
    {
      dragStartIndex := Some(index);
    }

    /**
     * `handleDrop`: nothing happens without a drag start or when dropping on it; otherwise the
     * dragged clip moves to `index`, the list is renumbered and the drag start reset.
     */
    method HandleDrop(index: int)
      requires dragStartIndex.Some? && dragStartIndex.value != index ==>
        0 <= dragStartIndex.value < |clipList| && 0 <= index < |clipList|
      modifies this
      ensures old(dragStartIndex).None? || old(dragStartIndex).value == index ==> unchanged(this)
      ensures old(dragStartIndex).Some? && old(dragStartIndex).value != index ==>
        && clipList == Renumber(Move(old(clipList), old(dragStartIndex).value, index))
        && dragStartIndex == None && currIdx == old(currIdx)
    {
      if dragStartIndex.None? || dragStartIndex.value == index {
        return;
      }
      var startIdx := dragStartIndex.value;
      var list := clipList;
      var updated := new Clip[|list|](i requires 0 <= i < |list| => list[i]);
      assert updated[..] == list;
      Reorder(updated, startIdx, index);
      clipList := Renumber(updated[..]);
      dragStartIndex := None;
    }
  }
}
