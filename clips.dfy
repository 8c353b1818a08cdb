/**
 * The clip list shared by the player and the clip strip: drag-and-drop reordering (`splice` out,
 * `splice` in) on a copy of the list, then renumbering `order` by position.
 */
module Clips {
  import opened Wrappers
  import opened Sorting

  /** A clip of the player: its URL, its position number, and its duration once known. */
  datatype Clip = Clip(url: string, order: real, duration: Option<real>)

  function Order(c: Clip): real { c.order }

  /** `s.splice(i, 1)`: the list without its i-th element. */
  function RemoveAt<T>(s: seq<T>, i: nat): (r: seq<T>)
    requires i < |s|
    ensures |r| == |s| - 1
    ensures forall k :: 0 <= k < |r| ==> r[k] == if k < i then s[k] else s[k + 1]
  {
    s[..i] + s[i + 1..]
  }

  /** `s.splice(i, 0, x)`: `x` inserted before the i-th element. */
  function InsertAt<T>(s: seq<T>, i: nat, x: T): (r: seq<T>)
    requires i <= |s|
    ensures |r| == |s| + 1
    ensures forall k :: 0 <= k < |r| ==> r[k] == if k < i then s[k] else if k == i then x else s[k - 1]
  {
    s[..i] + [x] + s[i..]
  }

  /** The drop: the element at `from` taken out and put back in at `to`. */
  function Move<T>(s: seq<T>, from: nat, to: nat): (r: seq<T>)
    requires from < |s| && to < |s|
    ensures |r| == |s|
  {
    InsertAt(RemoveAt(s, from), to, s[from])
  }

  /** Element by element: the moved element lands at `to`, the ones between shift by one towards `from`. */
  lemma MoveAt<T>(s: seq<T>, from: nat, to: nat, k: nat)
    requires from < |s| && to < |s| && k < |s|
    ensures Move(s, from, to)[k] ==
      if k == to then s[from]
      else if from < to && from <= k < to then s[k + 1]
      else if to < from && to < k <= from then s[k - 1]
      else s[k]
  {}

  /** A move is a permutation. */
  lemma MovePermutation<T>(s: seq<T>, from: nat, to: nat)
    requires from < |s| && to < |s|
    ensures multiset(Move(s, from, to)) == multiset(s)
  {
    var r := RemoveAt(s, from);
    RemoveAtMultiset(s, from);
    InsertAtMultiset(r, to, s[from]);
  }

  lemma RemoveAtMultiset<T>(s: seq<T>, i: nat)
    requires i < |s|
    ensures multiset(RemoveAt(s, i)) + multiset{s[i]} == multiset(s)
  {
    assert s == s[..i] + [s[i]] + s[i + 1..];
  }

  lemma InsertAtMultiset<T>(s: seq<T>, i: nat, x: T)
    requires i <= |s|
    ensures multiset(InsertAt(s, i, x)) == multiset(s) + multiset{x}
  {
    assert s == s[..i] + s[i..];
  }

  /** The other elements keep their relative order: taking the moved element out again gives the same list. */
  lemma MoveKeepsOthers<T>(s: seq<T>, from: nat, to: nat)
    requires from < |s| && to < |s|
    ensures RemoveAt(Move(s, from, to), to) == RemoveAt(s, from)
  {
    var r := RemoveAt(s, from);
    var m := Move(s, from, to);
    assert RemoveAt(m, to) == r;
  }

  /** Dropping an element where it already is changes nothing. */
  lemma MoveSame<T>(s: seq<T>, i: nat)
    requires i < |s|
    ensures Move(s, i, i) == s
  {
    forall k | 0 <= k < |s| ensures Move(s, i, i)[k] == s[k] {
      MoveAt(s, i, i, k);
    }
  }

  /** Moving back undoes a move. */
  lemma MoveInverse<T>(s: seq<T>, from: nat, to: nat)
    requires from < |s| && to < |s|
    ensures Move(Move(s, from, to), to, from) == s
  {
    var m := Move(s, from, to);
    MoveAt(s, from, to, to);
    forall k | 0 <= k < |s| ensures Move(m, to, from)[k] == s[k] {
      MoveAt(m, to, from, k);
      if k == from {
      } else if to < from && to <= k < from {
        MoveAt(s, from, to, k + 1);
      } else if from < to && from < k <= to {
        MoveAt(s, from, to, k - 1);
      } else {
        MoveAt(s, from, to, k);
      }
    }
  }

  /** The two `splice` calls on the copied list, done in place by shifting the elements in between. */
  method Reorder<T>(a: array<T>, from: nat, to: nat)
    requires from < a.Length && to < a.Length
    modifies a
    ensures a[..] == Move(old(a[..]), from, to)
  {
    ghost var s := a[..];
    var moved := a[from];
    var i := from;
    if from < to {
      while i < to
        invariant from <= i <= to
        invariant forall k :: 0 <= k < from ==> a[k] == s[k]
        invariant forall k :: from <= k < i ==> a[k] == s[k + 1]
        invariant forall k :: i <= k < a.Length ==> a[k] == s[k]
      {
        a[i] := a[i + 1];
        i := i + 1;
      }
    } else {
      while i > to
        invariant to <= i <= from
        invariant forall k :: 0 <= k < i ==> a[k] == s[k]
        invariant forall k :: i < k <= from ==> a[k] == s[k - 1]
        invariant forall k :: from < k < a.Length ==> a[k] == s[k]
      {
        a[i] := a[i - 1];
        i := i - 1;
      }
    }
    a[to] := moved;
    forall k | 0 <= k < a.Length ensures a[k] == Move(s, from, to)[k] {
      MoveAt(s, from, to, k);
    }
  }

  /** `map((clip, i) => ({ ...clip, order: i + 1 }))`. */
  function Renumber(s: seq<Clip>): (r: seq<Clip>)
    ensures |r| == |s|
    ensures forall i :: 0 <= i < |s| ==> r[i] == s[i].(order := (i + 1) as real)
  {
    seq(|s|, i requires 0 <= i < |s| => s[i].(order := (i + 1) as real))
  }

  /** After renumbering the orders are exactly 1..n by position, so sorting by order changes nothing. */
  lemma RenumberSorted(s: seq<Clip>)
    ensures forall i :: 0 <= i < |s| ==> Renumber(s)[i].order == (i + 1) as real
    ensures forall i :: 0 <= i < |s| ==> Renumber(s)[i].(order := s[i].order) == s[i]
    ensures SortedBy(Renumber(s), Order)
    ensures SortBy(Renumber(s), Order) == Renumber(s)
  {
    SortOfSorted(Renumber(s), Order);
  }
}
