/**
 * The numbers the Remotion renderers derive from a media item: sequence placement in frames,
 * the source trim in frames, playback rate, volume, opacity, the image crop box, and the CSS
 * length strings. JavaScript's number-to-string conversion is the parameter `show`.
 */
module SequenceItem {
  import opened Wrappers
  import opened Text
  import opened TimelineData

  /** Added to every duration and trim end; zero. */
  const SafeFrame: real := 0.0

  /** A style value as the renderers receive it: a number, a string, or `undefined`. */
  datatype CssValue = CssNumber(n: real) | CssString(s: string) | CssUndefined

  function OptionalNumber(v: Option<real>): CssValue {
    match v
    case Some(n) => CssNumber(n)
    case None => CssUndefined
  }

  /**
   * `toCssUnit`: a number and an all-digit string get `px`; any other non-empty string is kept;
   * the empty string and `undefined` give the fallback.
   */
  function ToCssUnit(value: CssValue, fallback: string, show: real -> string): (r: string)
    ensures value.CssNumber? ==> r == show(value.n) + "px"
    ensures value.CssString? && |value.s| > 0 && AllDigits(value.s) ==> r == value.s + "px"
    ensures value.CssString? && |value.s| > 0 && !AllDigits(value.s) ==> r == value.s
    ensures value == CssString("") || value == CssUndefined ==> r == fallback
  {
    match value
    case CssNumber(n) => show(n) + "px"
    case CssString(s) => if |s| > 0 && AllDigits(s) then s + "px" else if |s| > 0 then s else fallback
    case CssUndefined => fallback
  }

  /** Formatting a formatted value again changes nothing, for the fallbacks the renderers use. */
  lemma ToCssUnitIdempotent(value: CssValue, fallback: string, show: real -> string)
    requires |fallback| > 0 && !AllDigits(fallback)
    ensures ToCssUnit(CssString(ToCssUnit(value, fallback, show)), fallback, show) == ToCssUnit(value, fallback, show)
  {
    var r := ToCssUnit(value, fallback, show);
    if value.CssNumber? || (value.CssString? && |value.s| > 0 && AllDigits(value.s)) {
      assert r[|r| - 2] == 'p';
    }
  }

  datatype Frames = Frames(from: real, durationInFrames: real)

  /** `calculateFrames`: the start frame, and a duration of at least one frame. */
  function CalculateFrames(from: real, to: real, fps: real): (r: Frames)
    ensures r.from == from * fps
    ensures r.durationInFrames >= 1.0
    ensures to * fps - from * fps >= 1.0 ==> r.durationInFrames == to * fps - from * fps
    ensures to * fps - from * fps < 1.0 ==> r.durationInFrames == 1.0
  {
    var start := from * fps;
    var end := to * fps;
    Frames(start, if 1.0 < end - start then end - start else 1.0)
  }

  /** `item.playbackSpeed || 1`: a missing or zero speed plays at 1. */
  function PlaybackRate(speed: Option<real>): (r: real)
    ensures r != 0.0
    ensures speed.Some? && speed.value != 0.0 ==> r == speed.value
    ensures speed.None? || speed.value == 0.0 ==> r == 1.0
  {
    if speed.Some? && speed.value != 0.0 then speed.value else 1.0
  }

  /**
   * A percentage as a fraction, with a missing value meaning 100%: the renderers' volume
   * (`item.volume / 100`, default 1) and opacity (`item.opacity / 100`, default 1).
   */
  function Fraction(percent: Option<real>): (r: real)
    ensures percent.Some? ==> r * 100.0 == percent.value
    ensures percent.None? ==> r == 1.0
  {
    if percent.Some? then percent.value / 100.0 else 1.0
  }

  /** What the `video` renderer passes to `Sequence` and `OffthreadVideo`. */
  datatype VideoProps = VideoProps(
    sequence: Frames,
    startFrom: real,
    endAt: real,
    playbackRate: real,
    volume: real,
    opacity: real)

  function VideoPropsOf(m: MediaFile, fps: real): VideoProps {
    var rate := PlaybackRate(m.playbackSpeed);
    var frames := CalculateFrames(m.positionStart, m.positionEnd, fps);
    VideoProps(
      Frames(frames.from, frames.durationInFrames + SafeFrame),
      m.startTime / rate * fps,
      m.endTime / rate * fps + SafeFrame,
      rate,
      Fraction(m.volume),
      Fraction(m.opacity))
  }

  /** What the `audio` renderer passes to `Sequence` and `Audio`: the placement is divided by the rate. */
  datatype AudioProps = AudioProps(
    sequence: Frames,
    startFrom: real,
    endAt: real,
    playbackRate: real,
    volume: real)

  function AudioPropsOf(m: MediaFile, fps: real): AudioProps {
    var rate := PlaybackRate(m.playbackSpeed);
    var frames := CalculateFrames(m.positionStart / rate, m.positionEnd / rate, fps);
    AudioProps(
      Frames(frames.from, frames.durationInFrames + SafeFrame),
      m.startTime / rate * fps,
      m.endTime / rate * fps + SafeFrame,
      rate,
      Fraction(m.volume))
  }

  /**
   * The video trim is the source window scaled by the rate while the placement is not: for an
   * item that keeps the duration invariant, the trimmed source, in frames at the playback
   * rate, is exactly as long as the sequence (when that is at least one frame).
   */
  lemma VideoTrimFillsSequence(m: MediaFile, fps: real)
    requires DurationConsistent(m)
    requires (m.positionEnd - m.positionStart) * fps >= 1.0
    ensures var p := VideoPropsOf(m, fps);
      && p.startFrom == m.startTime / m.playbackSpeed.value * fps
      && p.sequence.from == m.positionStart * fps
      && p.endAt - p.startFrom == p.sequence.durationInFrames
  {
    var s := m.playbackSpeed.value;
    var p := VideoPropsOf(m, fps);
    assert p.endAt - p.startFrom == (m.endTime - m.startTime) / s * fps;
    assert (m.endTime - m.startTime) / s == m.positionEnd - m.positionStart;
    assert m.positionEnd * fps - m.positionStart * fps == (m.positionEnd - m.positionStart) * fps;
  }

  /** The audio placement is the video placement with positions divided by the rate; at rate 1 they agree. */
  lemma AudioPlacement(m: MediaFile, fps: real)
    ensures AudioPropsOf(m, fps).sequence.from * PlaybackRate(m.playbackSpeed) == VideoPropsOf(m, fps).sequence.from
    ensures PlaybackRate(m.playbackSpeed) == 1.0 ==>
      && AudioPropsOf(m, fps).sequence == VideoPropsOf(m, fps).sequence
      && AudioPropsOf(m, fps).startFrom == VideoPropsOf(m, fps).startFrom
      && AudioPropsOf(m, fps).endAt == VideoPropsOf(m, fps).endAt
  {
    var rate := PlaybackRate(m.playbackSpeed);
    assert m.positionStart / rate * fps * rate == m.positionStart * fps;
  }

  /** The region of the image shown: `item.crop`, or the whole item placed at the origin. */
  datatype CropBox = CropBox(x: real, y: real, width: CssValue, height: CssValue)

  function ImageCrop(m: MediaFile): (r: CropBox)
    ensures m.crop.Some? ==> r == CropBox(m.crop.value.x, m.crop.value.y, CssNumber(m.crop.value.width), CssNumber(m.crop.value.height))
    ensures m.crop.None? ==> r == CropBox(0.0, 0.0, OptionalNumber(m.width), OptionalNumber(m.height))
  {
    match m.crop
    case Some(c) => CropBox(c.x, c.y, CssNumber(c.width), CssNumber(c.height))
    case None => CropBox(0.0, 0.0, OptionalNumber(m.width), OptionalNumber(m.height))
  }

  /** What the `image` renderer puts in its styles. */
  datatype ImageProps = ImageProps(
    sequence: Frames,
    boxWidth: string,
    boxHeight: string,
    innerWidth: string,
    innerHeight: string,
    imageTop: string,
    imageLeft: string,
    opacity: real)

  function ImagePropsOf(m: MediaFile, fps: real, show: real -> string): ImageProps {
    var frames := CalculateFrames(m.positionStart, m.positionEnd, fps);
    var crop := ImageCrop(m);
    ImageProps(
      Frames(frames.from, frames.durationInFrames + SafeFrame),
      ToCssUnit(crop.width, "100%", show),
      ToCssUnit(crop.height, "auto", show),
      ToCssUnit(OptionalNumber(m.width), "100%", show),
      ToCssUnit(OptionalNumber(m.height), "auto", show),
      ToCssUnit(CssNumber(-crop.y), "0px", show),
      ToCssUnit(CssNumber(-crop.x), "0px", show),
      Fraction(m.opacity))
  }

  /** Without a crop the visible box is the whole image and the image is not shifted. */
  lemma UncroppedImage(m: MediaFile, fps: real, show: real -> string)
    requires m.crop.None?
    ensures var p := ImagePropsOf(m, fps, show);
      && p.boxWidth == p.innerWidth && p.boxHeight == p.innerHeight
      && p.imageTop == show(0.0) + "px" && p.imageLeft == show(0.0) + "px"
  {}

  /**
   * With a crop, the visible box has the crop's size and the image is shifted up and left by the
   * crop's offset, so the box shows exactly the cropped region; the image keeps the item's size.
   */
  lemma CroppedImage(m: MediaFile, fps: real, show: real -> string)
    requires m.crop.Some?
    ensures var p := ImagePropsOf(m, fps, show); var c := m.crop.value;
      && p.boxWidth == show(c.width) + "px" && p.boxHeight == show(c.height) + "px"
      && p.imageTop == show(-c.y) + "px" && p.imageLeft == show(-c.x) + "px"
      && p.innerWidth == ToCssUnit(OptionalNumber(m.width), "100%", show)
      && p.innerHeight == ToCssUnit(OptionalNumber(m.height), "auto", show)
  {}
}
