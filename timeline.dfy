/**
 * The timeline's edit handlers: split, duplicate and delete the selected element, and seek by
 * clicking the ruler. The project store is a class whose collections the handlers replace
 * wholesale; the new collection is computed by the pure functions below. Fresh ids
 * (`crypto.randomUUID`) are supplied by the caller.
 */
module Timeline {
  import opened Wrappers
  import opened TimelineData

  /** The store's `activeElement`: nothing, a media item, a text item, or any other value. */
  datatype Selection = NoSelection | MediaSelected | TextSelected | OtherSelected

  /** What the handler shows the user. */
  datatype Toast = NoToast | ErrorToast(message: string) | SuccessToast(message: string)

  const NoElementSelected: string := "No element selected."
  const MediaMarkerOutside: string := "Marker is outside the selected element bounds."
  const TextMarkerOutside: string := "Marker is outside the selected element."
  const SplitDone: string := "Element split successfully."
  const DuplicateDone: string := "Element duplicated successfully."
  const DeleteDone: string := "Element deleted successfully."

  /** `elements.splice(i, 1, a, b)`. */
  function ReplaceWithTwo<T>(s: seq<T>, i: nat, a: T, b: T): (r: seq<T>)
    requires i < |s|
    ensures |r| == |s| + 1
    ensures r[..i] == s[..i] && r[i] == a && r[i + 1] == b && r[i + 2..] == s[i + 1..]
  {
    s[..i] + [a, b] + s[i + 1..]
  }

  /** `elements.splice(i, 0, x)`. */
  function InsertAt<T>(s: seq<T>, i: nat, x: T): (r: seq<T>)
    requires i <= |s|
    ensures |r| == |s| + 1
    ensures r[..i] == s[..i] && r[i] == x && r[i + 1..] == s[i..]
  {
    s[..i] + [x] + s[i..]
  }

  // ---------------------------------------------------------------------------------------
  // Split

  /** Where in the source file the marker falls: the same fraction of the source window. */
  function SplitOffset(m: MediaFile, t: real): real
    requires m.positionStart < t < m.positionEnd
  {
    m.startTime + (t - m.positionStart) / (m.positionEnd - m.positionStart) * (m.endTime - m.startTime)
  }

  /** The two parts of a media item split at `t`. */
  function SplitMediaParts(m: MediaFile, t: real, firstId: string, secondId: string): (MediaFile, MediaFile)
    requires m.positionStart < t < m.positionEnd
  {
    var offset := SplitOffset(m, t);
    (m.(id := firstId, positionEnd := t, endTime := offset),
     m.(id := secondId, positionStart := t, startTime := offset))
  }

  /** The two parts of a text item split at `t`. */
  function SplitTextParts(e: TextElement, t: real, firstId: string, secondId: string): (TextElement, TextElement)
    requires e.positionStart < t < e.positionEnd
  {
    (e.(id := firstId, positionEnd := t), e.(id := secondId, positionStart := t))
  }

  /** The media list after splitting the item at `index` at time `t`, or the error shown. */
  function SplitMediaAt(files: seq<MediaFile>, index: int, t: real, firstId: string, secondId: string): (r: Result<seq<MediaFile>>)
    ensures r.Err? <==> !(0 <= index < |files|) || t <= files[index].positionStart || t >= files[index].positionEnd
    ensures r.Err? ==> r.message == if 0 <= index < |files| then MediaMarkerOutside else NoElementSelected
    ensures r.Ok? ==>
      && |r.value| == |files| + 1
      && r.value[..index] == files[..index]
      && r.value[index + 2..] == files[index + 1..]
      && (r.value[index], r.value[index + 1]) == SplitMediaParts(files[index], t, firstId, secondId)
  {
    if !(0 <= index < |files|) then Err(NoElementSelected)
    else
      var m := files[index];
      if t <= m.positionStart || t >= m.positionEnd then Err(MediaMarkerOutside)
      else
        var (first, second) := SplitMediaParts(m, t, firstId, secondId);
        Ok(ReplaceWithTwo(files, index, first, second))
  }

  /** The text list after splitting the item at `index` at time `t`, or the error shown. */
  function SplitTextAt(texts: seq<TextElement>, index: int, t: real, firstId: string, secondId: string): (r: Result<seq<TextElement>>)
    ensures r.Err? <==> !(0 <= index < |texts|) || t <= texts[index].positionStart || t >= texts[index].positionEnd
    ensures r.Err? ==> r.message == if 0 <= index < |texts| then TextMarkerOutside else NoElementSelected
    ensures r.Ok? ==>
      && |r.value| == |texts| + 1
      && r.value[..index] == texts[..index]
      && r.value[index + 2..] == texts[index + 1..]
      && (r.value[index], r.value[index + 1]) == SplitTextParts(texts[index], t, firstId, secondId)
  {
    if !(0 <= index < |texts|) then Err(NoElementSelected)
    else
      var e := texts[index];
      if t <= e.positionStart || t >= e.positionEnd then Err(TextMarkerOutside)
      else
        var (first, second) := SplitTextParts(e, t, firstId, secondId);
        Ok(ReplaceWithTwo(texts, index, first, second))
  }

  /**
   * The media parts: positions `[positionStart, t]` and `[t, positionEnd]`, source windows
   * `[startTime, offset]` and `[offset, endTime]`, and every other field copied except the id.
   */
  lemma SplitMediaWindows(m: MediaFile, t: real, firstId: string, secondId: string)
    requires m.positionStart < t < m.positionEnd
    ensures var (a, b) := SplitMediaParts(m, t, firstId, secondId);
      && a.id == firstId && b.id == secondId
      && a.positionStart == m.positionStart && a.positionEnd == t
      && b.positionStart == t && b.positionEnd == m.positionEnd
      && a.startTime == m.startTime && a.endTime == b.startTime && b.endTime == m.endTime
      && a.(id := m.id, positionEnd := m.positionEnd, endTime := m.endTime) == m
      && b.(id := m.id, positionStart := m.positionStart, startTime := m.startTime) == m
  {}

  /** The offset lies in the source window, strictly inside it when the window is not empty. */
  lemma SplitOffsetInside(m: MediaFile, t: real)
    requires m.positionStart < t < m.positionEnd
    ensures m.startTime < m.endTime ==> m.startTime < SplitOffset(m, t) < m.endTime
    ensures m.startTime == m.endTime ==> SplitOffset(m, t) == m.startTime
  {
    var d := m.positionEnd - m.positionStart;
    var ratio := (t - m.positionStart) / d;
    assert ratio * d == t - m.positionStart;
    var rest := 1.0 - ratio;
    assert rest * d == m.positionEnd - t;
    PositiveFactor(ratio, d);
    PositiveFactor(rest, d);
    var w := m.endTime - m.startTime;
    if w > 0.0 {
      PositiveProduct(ratio, w);
      PositiveProduct(1.0 - ratio, w);
      assert SplitOffset(m, t) == m.startTime + ratio * w;
      assert m.endTime - SplitOffset(m, t) == (1.0 - ratio) * w;
    }
  }

  lemma PositiveFactor(a: real, b: real)
    requires b > 0.0 && a * b > 0.0
    ensures a > 0.0
  {}

  lemma PositiveProduct(a: real, b: real)
    requires a > 0.0 && b > 0.0
    ensures a * b > 0.0
  {}

  /** A split keeps the duration invariant: each part plays its source window at the same speed. */
  lemma SplitKeepsDuration(m: MediaFile, t: real, firstId: string, secondId: string)
    requires m.positionStart < t < m.positionEnd
    requires DurationConsistent(m)
    ensures DurationConsistent(SplitMediaParts(m, t, firstId, secondId).0)
    ensures DurationConsistent(SplitMediaParts(m, t, firstId, secondId).1)
  {
    var s := m.playbackSpeed.value;
    var d := m.positionEnd - m.positionStart;
    var ratio := (t - m.positionStart) / d;
    var offset := SplitOffset(m, t);
    assert ratio * d == t - m.positionStart;
    assert offset - m.startTime == ratio * (d * s);
    assert offset - m.startTime == (t - m.positionStart) * s;
    assert m.endTime - offset == d * s - (t - m.positionStart) * s;
    assert m.endTime - offset == (m.positionEnd - t) * s;
  }

  /** The text parts differ from the original only in id and in one end of the window. */
  lemma SplitTextWindows(e: TextElement, t: real, firstId: string, secondId: string)
    requires e.positionStart < t < e.positionEnd
    ensures var (a, b) := SplitTextParts(e, t, firstId, secondId);
      && a.id == firstId && b.id == secondId
      && a.positionStart == e.positionStart && a.positionEnd == t
      && b.positionStart == t && b.positionEnd == e.positionEnd
      && a.(id := e.id, positionEnd := e.positionEnd) == e
      && b.(id := e.id, positionStart := e.positionStart) == e
  {}

  /** Splitting a clip from 0 to 10 s (source 0 to 10 s) at 4 s gives 0–4 and 4–10 in both windows. */
  lemma SplitExample(m: MediaFile)
    requires m.positionStart == 0.0 && m.positionEnd == 10.0 && m.startTime == 0.0 && m.endTime == 10.0
    ensures var (a, b) := SplitMediaParts(m, 4.0, "a", "b");
      a.positionEnd == 4.0 && a.endTime == 4.0 && b.positionStart == 4.0 && b.startTime == 4.0
  {}

  // ---------------------------------------------------------------------------------------
  // Duplicate and delete

  /** The list with a copy of the element at `index`, given `copy`, inserted right after it. */
  function DuplicateAt<T>(s: seq<T>, index: int, copy: T -> T): (r: Option<seq<T>>)
    ensures r.Some? <==> 0 <= index < |s|
    ensures r.Some? ==>
      && |r.value| == |s| + 1
      && r.value[..index + 1] == s[..index + 1]
      && r.value[index + 1] == copy(s[index])
      && r.value[index + 2..] == s[index + 1..]
  {
    if 0 <= index < |s| then
      var r := InsertAt(s, index + 1, copy(s[index]));
      assert r[index + 2..] == r[index + 1..][1..];
      Some(r)
    else None
  }

  /** `elements.filter(ele => ele.id !== id)`. */
  function RemoveId<T>(s: seq<T>, idOf: T -> string, id: string): (r: seq<T>)
    ensures |r| <= |s|
    ensures forall j :: 0 <= j < |r| ==> idOf(r[j]) != id
  {
    if |s| == 0 then []
    else (if idOf(s[0]) != id then [s[0]] else []) + RemoveId(s[1..], idOf, id)
  }

  /** The filter keeps exactly the elements whose id differs. */
  lemma {:induction false} RemoveIdMembers<T>(s: seq<T>, idOf: T -> string, id: string, x: T)
    ensures x in RemoveId(s, idOf, id) <==> x in s && idOf(x) != id
  {
    if |s| > 0 {
      RemoveIdMembers(s[1..], idOf, id, x);
      assert s == [s[0]] + s[1..];
    }
  }

  /** The filter keeps the order: it distributes over concatenation, one element at a time. */
  lemma {:induction false} RemoveIdConcat<T>(a: seq<T>, b: seq<T>, idOf: T -> string, id: string)
    ensures RemoveId(a + b, idOf, id) == RemoveId(a, idOf, id) + RemoveId(b, idOf, id)
  {
    if |a| == 0 {
      assert a + b == b;
    } else {
      assert (a + b)[1..] == a[1..] + b;
      RemoveIdConcat(a[1..], b, idOf, id);
    }
  }

  /** When ids are distinct, deleting the element at `i` by its id removes exactly that position. */
  lemma {:induction false} RemoveIdAt<T>(s: seq<T>, i: nat, idOf: T -> string)
    requires i < |s|
    requires forall j, k :: 0 <= j < k < |s| ==> idOf(s[j]) != idOf(s[k])
    ensures RemoveId(s, idOf, idOf(s[i])) == s[..i] + s[i + 1..]
  {
    var id := idOf(s[i]);
    var tail := s[1..];
    if i == 0 {
      forall j | 0 <= j < |tail| ensures idOf(tail[j]) != id {
        assert tail[j] == s[j + 1];
      }
      KeepAll(tail, idOf, id);
    } else {
      assert tail[i - 1] == s[i];
      RemoveIdAt(tail, i - 1, idOf);
      assert tail[..i - 1] + tail[i..] == s[1..i] + s[i + 1..];
      assert s[..i] == [s[0]] + s[1..i];
    }
  }

  lemma {:induction false} KeepAll<T>(s: seq<T>, idOf: T -> string, id: string)
    requires forall j :: 0 <= j < |s| ==> idOf(s[j]) != id
    ensures RemoveId(s, idOf, id) == s
  {
    if |s| > 0 {
      KeepAll(s[1..], idOf, id);
      assert s == [s[0]] + s[1..];
    }
  }

  function MediaId(m: MediaFile): string { m.id }

  function TextId(e: TextElement): string { e.id }

  // ---------------------------------------------------------------------------------------
  // Seek

  /** `Math.max(lo, Math.min(hi, x))`. */
  function Clamp(x: real, lo: real, hi: real): (r: real)
    ensures lo <= hi ==> lo <= r <= hi
    ensures lo <= x <= hi ==> r == x
  {
    if hi < x then (if lo < hi then hi else lo) else (if lo < x then x else lo)
  }

  /** The clamped time is the point of `[lo, hi]` nearest to `x`. */
  lemma ClampNearest(x: real, lo: real, hi: real, y: real)
    requires lo <= y <= hi
    ensures (Clamp(x, lo, hi) - x) * (Clamp(x, lo, hi) - x) <= (y - x) * (y - x)
  {
    var r := Clamp(x, lo, hi);
    if x < lo {
      assert r == lo;
      SquareMonotone(lo - x, y - x);
    } else if x > hi {
      assert r == hi;
      SquareMonotone(x - hi, x - y);
      assert (r - x) * (r - x) == (x - hi) * (x - hi) && (y - x) * (y - x) == (x - y) * (x - y);
    } else {
      assert r == x;
      SquareMonotone(0.0, if y < x then x - y else y - x);
    }
  }

  lemma SquareMonotone(a: real, b: real)
    requires 0.0 <= a <= b
    ensures a * a <= b * b
  {
    assert a * a <= a * b;
    assert a * b <= b * b;
  }

  /** The project store's timeline state. */
  class ProjectStore {
    var mediaFiles: seq<MediaFile>
    var textElements: seq<TextElement>
    var activeElement: Selection
    var activeElementIndex: int
    var currentTime: real
    var isPlaying: bool
    var duration: real
    var timelineZoom: real

    constructor (mediaFiles: seq<MediaFile>, textElements: seq<TextElement>, duration: real, timelineZoom: real)
      ensures this.mediaFiles == mediaFiles && this.textElements == textElements
      ensures activeElement == NoSelection && activeElementIndex == 0
      ensures currentTime == 0.0 && !isPlaying
      ensures this.duration == duration && this.timelineZoom == timelineZoom
    {
      this.mediaFiles := mediaFiles;
      this.textElements := textElements;
      activeElement := NoSelection;
      activeElementIndex := 0;
      currentTime := 0.0;
      isPlaying := false;
      this.duration := duration;
      this.timelineZoom := timelineZoom;
    }

    /**
     * `handleSplit`: split the selected element at the marker. On success the collection is
     * replaced and the selection cleared; on an error nothing changes. Another selection
     * value does nothing, silently.
     */
    method HandleSplit(firstId: string, secondId: string) returns (toast: Toast)
      modifies this
      ensures old(activeElement) == NoSelection ==> toast == ErrorToast(NoElementSelected) && unchanged(this)
      ensures old(activeElement) == OtherSelected ==> toast == NoToast && unchanged(this)
      ensures old(activeElement) == MediaSelected ==>
        match SplitMediaAt(old(mediaFiles), old(activeElementIndex), old(currentTime), firstId, secondId)
        case Err(e) => toast == ErrorToast(e) && unchanged(this)
        case Ok(files) =>
          && toast == SuccessToast(SplitDone) && mediaFiles == files && activeElement == NoSelection
          && textElements == old(textElements) && activeElementIndex == old(activeElementIndex)
          && currentTime == old(currentTime) && isPlaying == old(isPlaying)
          && duration == old(duration) && timelineZoom == old(timelineZoom)
      ensures old(activeElement) == TextSelected ==>
        match SplitTextAt(old(textElements), old(activeElementIndex), old(currentTime), firstId, secondId)
        case Err(e) => toast == ErrorToast(e) && unchanged(this)
        case Ok(texts) =>
          && toast == SuccessToast(SplitDone) && textElements == texts && activeElement == NoSelection
          && mediaFiles == old(mediaFiles) && activeElementIndex == old(activeElementIndex)
          && currentTime == old(currentTime) && isPlaying == old(isPlaying)
          && duration == old(duration) && timelineZoom == old(timelineZoom)
    {
      match activeElement
      case NoSelection =>
        return ErrorToast(NoElementSelected);
      case OtherSelected =>
        return NoToast;
      case MediaSelected =>
        var split := SplitMediaAt(mediaFiles, activeElementIndex, currentTime, firstId, secondId);
        if split.Err? {
          return ErrorToast(split.message);
        }
        mediaFiles := split.value;
        activeElement := NoSelection;
        return SuccessToast(SplitDone);
      case TextSelected =>
        var split := SplitTextAt(textElements, activeElementIndex, currentTime, firstId, secondId);
        if split.Err? {
          return ErrorToast(split.message);
        }
        textElements := split.value;
        activeElement := NoSelection;
        return SuccessToast(SplitDone);
    }

    /** `handleDuplicate`: insert a copy with a fresh id right after the selected element. */
    method HandleDuplicate(newId: string) returns (toast: Toast)
      modifies this
      ensures var copyMedia := (m: MediaFile) => m.(id := newId);
        var copyText := (e: TextElement) => e.(id := newId);
        var media := if old(activeElement) == MediaSelected then DuplicateAt(old(mediaFiles), old(activeElementIndex), copyMedia) else None;
        var text := if old(activeElement) == TextSelected then DuplicateAt(old(textElements), old(activeElementIndex), copyText) else None;
        && (media.None? && text.None? ==> toast == ErrorToast(NoElementSelected) && unchanged(this))
        && (media.Some? || text.Some? ==>
              && toast == SuccessToast(DuplicateDone) && activeElement == NoSelection
              && mediaFiles == (if media.Some? then media.value else old(mediaFiles))
              && textElements == (if text.Some? then text.value else old(textElements))
              && activeElementIndex == old(activeElementIndex) && currentTime == old(currentTime)
              && isPlaying == old(isPlaying) && duration == old(duration) && timelineZoom == old(timelineZoom))
    {
      var copyMedia := (m: MediaFile) => m.(id := newId);
      var copyText := (e: TextElement) => e.(id := newId);
      if activeElement == MediaSelected {
        var media := DuplicateAt(mediaFiles, activeElementIndex, copyMedia);
        if media.Some? {
          mediaFiles := media.value;
          activeElement := NoSelection;
          return SuccessToast(DuplicateDone);
        }
      } else if activeElement == TextSelected {
        var text := DuplicateAt(textElements, activeElementIndex, copyText);
        if text.Some? {
          textElements := text.value;
          activeElement := NoSelection;
          return SuccessToast(DuplicateDone);
        }
      }
      return ErrorToast(NoElementSelected);
    }

    /** `handleDelete`: remove every element sharing the selected element's id. */
    method HandleDelete() returns (toast: Toast)
      modifies this
      ensures var i := old(activeElementIndex);
        var media := old(activeElement) == MediaSelected && 0 <= i < |old(mediaFiles)|;
        var text := old(activeElement) == TextSelected && 0 <= i < |old(textElements)|;
        && (!media && !text ==> toast == ErrorToast(NoElementSelected) && unchanged(this))
        && (media ==> mediaFiles == RemoveId(old(mediaFiles), MediaId, old(mediaFiles)[i].id))
        && (text ==> textElements == RemoveId(old(textElements), TextId, old(textElements)[i].id))
        && (media || text ==>
              && toast == SuccessToast(DeleteDone) && activeElement == NoSelection
              && (!media ==> mediaFiles == old(mediaFiles)) && (!text ==> textElements == old(textElements))
              && activeElementIndex == old(activeElementIndex) && currentTime == old(currentTime)
              && isPlaying == old(isPlaying) && duration == old(duration) && timelineZoom == old(timelineZoom))
    {
      var i := activeElementIndex;
      if activeElement == MediaSelected && 0 <= i < |mediaFiles| {
        mediaFiles := RemoveId(mediaFiles, MediaId, mediaFiles[i].id);
      } else if activeElement == TextSelected && 0 <= i < |textElements| {
        textElements := RemoveId(textElements, TextId, textElements[i].id);
      } else {
        return ErrorToast(NoElementSelected);
      }
      activeElement := NoSelection;
      return SuccessToast(DeleteDone);
    }

    /** `handleClick`: stop playback and seek to the clicked time, clamped to `[0, duration]`. */
    method HandleClick(offsetX: real)
      requires timelineZoom != 0.0
      modifies this
      ensures !isPlaying
      ensures currentTime == Clamp(offsetX / old(timelineZoom), 0.0, old(duration))
      ensures mediaFiles == old(mediaFiles) && textElements == old(textElements)
      ensures activeElement == old(activeElement) && activeElementIndex == old(activeElementIndex)
      ensures duration == old(duration) && timelineZoom == old(timelineZoom)
    {
      isPlaying := false;
      var seconds := offsetX / timelineZoom;
      currentTime := Clamp(seconds, 0.0, duration);
    }
  }
}
