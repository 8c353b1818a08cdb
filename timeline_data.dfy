/**
 * The timeline document shared by the editor and the export compositor: media clips placed on
 * the timeline with a source trim window, and timed text items. Times are seconds, as reals.
 * Optional fields are `Option`s because the code reads them with `||`, `??` or `!== undefined`.
 */
module TimelineData {
  import opened Wrappers

  datatype Crop = Crop(x: real, y: real, width: real, height: real)

  /**
   * A media item. `kind` is the source's `type` field (`"video"`, `"image"`, `"audio"`, ...).
   * `[startTime, endTime]` is the window within the source file; `[positionStart, positionEnd]`
   * is where it sits on the output timeline.
   */
  datatype MediaFile = MediaFile(
    id: string,
    fileName: string,
    fileId: string,
    kind: string,
    src: string,
    startTime: real,
    endTime: real,
    positionStart: real,
    positionEnd: real,
    includeInMerge: bool,
    playbackSpeed: Option<real>,
    volume: Option<real>,
    zIndex: Option<real>,
    x: Option<real>,
    y: Option<real>,
    width: Option<real>,
    height: Option<real>,
    rotation: Option<real>,
    opacity: Option<real>,
    crop: Option<Crop>)

  /** A timed text item. `fontSize` and `color` may be missing in an exported document. */
  datatype TextElement = TextElement(
    id: string,
    text: string,
    positionStart: real,
    positionEnd: real,
    x: real,
    y: real,
    width: real,
    height: real,
    font: string,
    fontSize: Option<real>,
    color: Option<string>,
    backgroundColor: string,
    align: string,
    zIndex: real,
    opacity: real,
    rotation: real,
    fadeInDuration: real,
    fadeOutDuration: real,
    animation: string)

  /**
   * The document's duration invariant: the position window is the source window played at the
   * item's speed, `(positionEnd - positionStart) * playbackSpeed == endTime - startTime`.
   */
  predicate DurationConsistent(m: MediaFile) {
    m.playbackSpeed.Some? && m.playbackSpeed.value > 0.0
    && (m.positionEnd - m.positionStart) * m.playbackSpeed.value == m.endTime - m.startTime
  }
}
