/**
 * The audio upload panel: picking a file (only `audio/*` MIME types are taken), and adding the
 * picked file as an audio item at the start of the timeline, appended to the media list.
 */
module AddMedia {
  import opened Wrappers
  import opened Text
  import opened TimelineData

  /** The picked file: its name and its MIME type. */
  datatype AudioFile = AudioFile(name: string, mimeType: string)

  const InvalidAudioMessage := "Please select a valid audio file."

  /** What picking a file does: nothing without a file, an alert for a non-audio type, else the file is taken. */
  datatype FileChange = NoFile | Rejected(alert: string) | Accepted(file: AudioFile)

  /** The MIME-type guard of `handleFileChange`. */
  function HandleFileChange(picked: Option<AudioFile>): (r: FileChange)
    ensures r == NoFile <==> picked.None?
    ensures r.Accepted? <==> picked.Some? && StartsWith(picked.value.mimeType, "audio/")
    ensures r.Accepted? ==> r.file == picked.value
    ensures r.Rejected? ==> r.alert == InvalidAudioMessage
  {
    match picked
    case None => NoFile
    case Some(f) => if StartsWith(f.mimeType, "audio/") then Accepted(f) else Rejected(InvalidAudioMessage)
  }

  /** The audio item for the picked file: at 0 on the timeline, as long as the file, plain speed and full volume. */
  function NewAudioItem(file: AudioFile, base64: string, duration: Option<real>, id: string): MediaFile {
    var length := 0.0 + duration.GetOr(0.0);
    MediaFile(
      id, file.name, id, "audio", base64,
      0.0, length, 0.0, length,
      true, Some(1.0), Some(100.0), Some(1.0),
      None, None, None, None, None, None, None)
  }

  /**
   * `addMediaHandler`: `None` (no change) unless a non-empty base64 source and a file are
   * both present; otherwise the media list with the new audio item appended.
   */
  function AddMediaHandler(mediaFiles: seq<MediaFile>, base64: Option<string>, file: Option<AudioFile>,
                           duration: Option<real>, id: string): (r: Option<seq<MediaFile>>)
    ensures r.None? <==> base64.None? || base64.value == "" || file.None?
    ensures r.Some? ==> |r.value| == |mediaFiles| + 1 && r.value[..|mediaFiles|] == mediaFiles
    ensures r.Some? ==> r.value[|mediaFiles|] == NewAudioItem(file.value, base64.value, duration, id)
  {
    if base64.None? || base64.value == "" || file.None? then None
    else Some(mediaFiles + [NewAudioItem(file.value, base64.value, duration, id)])
  }

  /**
   * The new item is an audio item named after the file, whose id is also its file id, placed at 0,
   * as long on the timeline as in the source (the duration, or 0 when unknown), included in
   * the export at speed 1, volume 100 and layer 1, so it keeps the document's duration invariant.
   */
  lemma NewAudioItemFields(file: AudioFile, base64: string, duration: Option<real>, id: string)
    ensures var m := NewAudioItem(file, base64, duration, id);
      && m.kind == "audio" && m.id == id && m.fileId == id && m.fileName == file.name && m.src == base64
      && m.startTime == 0.0 && m.positionStart == 0.0
      && m.endTime == m.positionEnd == (if duration.Some? then duration.value else 0.0)
      && m.endTime - m.startTime == m.positionEnd - m.positionStart
      && m.includeInMerge && m.playbackSpeed == Some(1.0) && m.volume == Some(100.0) && m.zIndex == Some(1.0)
      && DurationConsistent(m)
  {}

  /** A file only reaches the media list through the guard: a non-audio pick never sets the file. */
  lemma OnlyAudioIsAdded(mediaFiles: seq<MediaFile>, picked: Option<AudioFile>, base64: string,
                         duration: Option<real>, id: string)
    requires base64 != ""
    ensures var change := HandleFileChange(picked);
      var file := if change.Accepted? then Some(change.file) else None;
      var r := AddMediaHandler(mediaFiles, Some(base64), file, duration, id);
      r.Some? <==> picked.Some? && StartsWith(picked.value.mimeType, "audio/")
  {}
}
