/** The clip strip (`VideoLayer` component): clips sorted by `order`, reordered by drag and drop. */
module VideoLayer {
  import opened Sorting
  import opened Clips

  class ClipStrip {
    var clipList: seq<Clip>

    /** The initial list is a copy of `clips` sorted by `order` (stably). */
    constructor (clips: seq<Clip>)
      ensures clipList == SortBy(clips, Order)
    {
      clipList := SortBy(clips, Order);
    }

    /**
     * `handleDrop`: move the clip at `dragIndex` to `dropIndex` and renumber, even when the two
     * are equal.
     */
    method HandleDrop(dragIndex: int, dropIndex: int)
      requires 0 <= dragIndex < |clipList| && 0 <= dropIndex < |clipList|
      modifies this
      ensures clipList == Renumber(Move(old(clipList), dragIndex, dropIndex))
    {
      var list := clipList;
      var updated := new Clip[|list|](i requires 0 <= i < |list| => list[i]);
      assert updated[..] == list;
      Reorder(updated, dragIndex, dropIndex);
      clipList := Renumber(updated[..]);
    }
  }

  /**
   * What a drop does to the strip: the dragged clip is at `dropIndex`, the others keep their
   * relative order, no clip is lost or gained, and the orders are 1..n by position.
   */
  lemma DropSpec(s: seq<Clip>, dragIndex: nat, dropIndex: nat)
    requires dragIndex < |s| && dropIndex < |s|
    ensures var r := Renumber(Move(s, dragIndex, dropIndex));
      && |r| == |s|
      && r[dropIndex] == s[dragIndex].(order := (dropIndex + 1) as real)
      && RemoveAt(Move(s, dragIndex, dropIndex), dropIndex) == RemoveAt(s, dragIndex)
      && multiset(Move(s, dragIndex, dropIndex)) == multiset(s)
      && forall i :: 0 <= i < |r| ==> r[i].order == (i + 1) as real
  {
    MoveAt(s, dragIndex, dropIndex, dropIndex);
    MoveKeepsOthers(s, dragIndex, dropIndex);
    MovePermutation(s, dragIndex, dropIndex);
  }

  /** Dropping a clip on itself only renumbers. */
  lemma DropOnItself(s: seq<Clip>, i: nat)
    requires i < |s|
    ensures Renumber(Move(s, i, i)) == Renumber(s)
  {
    MoveSame(s, i);
  }
}
