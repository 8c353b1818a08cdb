/**
 * The Remotion composition: it reports the playhead time to the store only when it has moved
 * more than a threshold since the last report, and renders every media item that has a renderer
 * for its type and every text item.
 */
module Composition {
  import opened Wrappers
  import opened TimelineData

  const Fps: real := 30.0
  const Threshold: real := 0.1

  function Abs(x: real): real { if x < 0.0 then -x else x }

  /** The playhead time in seconds of a frame number. */
  function Seconds(frame: int): (r: real)
    ensures r * Fps == frame as real
  {
    frame as real / Fps
  }

  /** The last reported time (`previousTime`) and the time held by the store. */
  class TimeSync {
    var previousTime: real
    var storeTime: real

    constructor (storeTime: real)
      ensures previousTime == 0.0 && this.storeTime == storeTime
    {
      previousTime := 0.0;
      this.storeTime := storeTime;
    }

    /**
     * The effect run on each frame: a time more than the threshold away from the last report is
     * reported and remembered; otherwise nothing changes. Either way the remembered time is then
     * within the threshold of the playhead.
     */
    method OnFrame(frame: int)
      modifies this
      ensures Abs(Seconds(frame) - old(previousTime)) > Threshold ==>
        storeTime == Seconds(frame) && previousTime == Seconds(frame)
      ensures Abs(Seconds(frame) - old(previousTime)) <= Threshold ==> unchanged(this)
      ensures Abs(Seconds(frame) - previousTime) <= Threshold
    {
      var currentTimeInSeconds := frame as real / Fps;
      if Abs(currentTimeInSeconds - previousTime) > Threshold {
        storeTime := currentTimeInSeconds;
        previousTime := currentTimeInSeconds;
      }
    }
  }

  /** The media types that have a renderer. */
  predicate HasRenderer(kind: string) {
    kind == "video" || kind == "text" || kind == "image" || kind == "audio"
  }

  /** What each list entry renders to: nothing, a media sequence of a given type, or a text sequence. */
  datatype Rendered = Nothing | MediaSequence(kind: string, media: MediaFile) | TextSequence(text: TextElement)

  /** The media entries (a missing entry is `None`) rendered one for one, skipping those without a renderer. */
  function RenderMedia(items: seq<Option<MediaFile>>): (r: seq<Rendered>)
    ensures |r| == |items|
    ensures forall i :: 0 <= i < |items| ==>
      r[i] == if items[i].Some? && HasRenderer(items[i].value.kind) then MediaSequence(items[i].value.kind, items[i].value) else Nothing
  {
    seq(|items|, i requires 0 <= i < |items| =>
      if items[i].Some? && HasRenderer(items[i].value.kind) then MediaSequence(items[i].value.kind, items[i].value) else Nothing)
  }

  /** The text entries rendered one for one with the text renderer, skipping missing ones. */
  function RenderTexts(items: seq<Option<TextElement>>): (r: seq<Rendered>)
    ensures |r| == |items|
    ensures forall i :: 0 <= i < |items| ==> r[i] == if items[i].Some? then TextSequence(items[i].value) else Nothing
  {
    seq(|items|, i requires 0 <= i < |items| => if items[i].Some? then TextSequence(items[i].value) else Nothing)
  }

  /** The number of sequences a list of rendered entries holds. */
  function SequenceCount(r: seq<Rendered>): nat {
    if |r| == 0 then 0 else SequenceCount(r[..|r| - 1]) + if r[|r| - 1].Nothing? then 0 else 1
  }

  /** The number of media entries that are present and have a renderer. */
  function RenderableCount(items: seq<Option<MediaFile>>): nat {
    if |items| == 0 then 0
    else RenderableCount(items[..|items| - 1]) + if items[|items| - 1].Some? && HasRenderer(items[|items| - 1].value.kind) then 1 else 0
  }

  /** The number of text entries that are present. */
  function PresentCount(items: seq<Option<TextElement>>): nat {
    if |items| == 0 then 0 else PresentCount(items[..|items| - 1]) + if items[|items| - 1].Some? then 1 else 0
  }

  /** Every present text entry, and only those, produces a sequence. */
  lemma {:induction false} RenderTextsCount(items: seq<Option<TextElement>>)
    ensures SequenceCount(RenderTexts(items)) == PresentCount(items)
    decreases |items|
  {
    if |items| > 0 {
      var n := |items| - 1;
      RenderTextsCount(items[..n]);
      assert RenderTexts(items)[..n] == RenderTexts(items[..n]);
    }
  }

  /** Exactly the renderable media entries produce a sequence, each of its own type, in list order. */
  lemma {:induction false} RenderMediaCount(items: seq<Option<MediaFile>>)
    ensures SequenceCount(RenderMedia(items)) == RenderableCount(items)
    decreases |items|
  {
    if |items| > 0 {
      var n := |items| - 1;
      var front := items[..n];
      RenderMediaCount(front);
      assert RenderMedia(items)[..n] == RenderMedia(front);
    }
  }
}
