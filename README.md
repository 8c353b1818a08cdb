# visuoAI timeline and export core, modelled in Dafny

visuoAI is a browser video editor with a server that renders the edit. Its document is a
timeline: media clips, each with a trim window in its source file and a position on the output
timeline, plus timed text items. This project models the code that works on that timeline, in
three families.

- **Export compositor** (`FfmpegEngine`, server class `VideoProcessor`):
  - chooses the items to merge and downloads and trims each one, skipping the ones that fail;
  - stitches the clips: one clip is copied, several go through the concat demuxer with the
    filter-graph path as fallback;
  - builds the concat file list, the concat filter graph and the chained `drawtext` filter
    graph, with its text escaping;
  - maps the audio stream when ffprobe reports one;
  - runs the pipeline (prepare, stitch, overlay, cleanup) and empties the temporary directory.
- **Editor operations on the client**:
  - split, duplicate, delete and seek on the timeline store (`Timeline`);
  - drag-and-drop reordering with renumbering, and the cumulative start/end map of the
    clip player (`Clips`, `Player`, `VideoLayer`);
  - the frame, trim, volume, opacity, crop and CSS-unit arithmetic of the Remotion renderers
    (`SequenceItem`);
  - the threshold-gated playhead update and the render filtering of the composition
    (`Composition`);
  - "add text" and "add audio" with their defaults (`TextProperties`, `AddMedia`).
- **Code-generation text transforms**:
  - the Manim overlap fixer, which rewrites the code line by line and keeps an object stack
    (`FixCode`);
  - the render service: scene-class extraction, script path and arguments, and the mapping
    from exit code to result (`ManimEngine`);
  - the scene-creation endpoint: the prompt guard and the stripping of code fences from the
    model's reply (`AnimationController`).

Shared modules: `Wrappers` (Option and Result), `Text` (the JavaScript string operations and
regular-expression classes used), `Sorting` (stable `Array.prototype.sort` by a numeric key)
and `TimelineData` (the document's records).

Every external effect becomes a parameter that reports an outcome:
- ffmpeg runs, ffprobe, downloads, file copies and writes, `unlink`, `mkdir`, `spawn`'s exit
  code, and the language model's completion;
- JavaScript's number-to-string conversion (`show`);
- fresh ids (`crypto.randomUUID`, `uuid`, `Math.random`).

Regular expressions are written as explicit character-level predicates. `\s` is JavaScript's
white-space set, `\w` is `[A-Za-z0-9_]`, and `.` is any character except a line terminator.
Times and sizes are `real`.

Where the code differs from the behaviour its design describes, the model follows the code, with
one exception: the text overlay, whose defect is described under "## Findings". The rest of
the model uses the corrected overlay, and the code as written is modelled beside it.
The differences:
- The temporary files are deleted only after a successful run, and deletion stops at the first
  `unlink` that fails (`FfmpegEngine.ProcessVideo`, `FfmpegEngine.TempDirectory.Cleanup`).
- The slow stitch path names an audio stream for every input, whether or not the input has one
  (`FfmpegEngine.StitchFilter`).
- The final re-sort of the prepared clips changes nothing, because the clips were visited in
  sorted order (`FfmpegEngine.PreparedSpec`).
- The group lines of the overlap fixer go before every `self.wait(` line that meets the
  condition, not only the last one in `construct()` (`FixCode.OutputLineAt`).
- The render service's class pattern allows any `\s+` after `class`. The overlap fixer's
  pattern requires exactly one space.

## Model

| member | source | states |
|---|---|---|
| FfmpegEngine.MergeCandidates | apps/server/src/services/ffmpegEngine.ts:192-193 | an item is kept exactly when it is in the list and marked `includeInMerge`, and the list never grows |
| FfmpegEngine.MergeCandidatesConcat | apps/server/src/services/ffmpegEngine.ts:192-193 | the filter distributes over concatenation, so it keeps the input order and every copy of a marked item |
| FfmpegEngine.MergeCandidatesWithKey | apps/server/src/services/ffmpegEngine.ts:192-193 | the marked items that start at a given time are, in input order, the marked items among the input items that start then |
| FfmpegEngine.ToProcessSpec | apps/server/src/services/ffmpegEngine.ts:192-194 | the visited items are the marked ones, each as often as in the filter, sorted non-decreasing by `positionStart`; items with equal starts appear in their input order |
| FfmpegEngine.SurvivorsStep | apps/server/src/services/ffmpegEngine.ts:196-218 | one loop turn appends the item's record exactly when its download and its trim both succeed |
| FfmpegEngine.PrepareVideosForStitching | apps/server/src/services/ffmpegEngine.ts:188-226 | the loop returns what `Prepared` specifies: the re-sorted records of the surviving items, or the "No videos were successfully processed" error when none survive |
| FfmpegEngine.SurvivorsSpec | apps/server/src/services/ffmpegEngine.ts:199-212 | every record comes from a surviving item, and every surviving item gives its record (path `./temp/trimmed_<fileName>`, with start, name, speed and volume copied) |
| FfmpegEngine.SurvivorsSorted | apps/server/src/services/ffmpegEngine.ts:196-218 | visiting the items in sorted order yields records sorted by `positionStart` |
| FfmpegEngine.PreparedSpec | apps/server/src/services/ffmpegEngine.ts:220-225 | the preparation fails with the no-videos message exactly when no marked item survives; otherwise it returns exactly the records of the surviving marked items, sorted, and the final re-sort changes nothing |
| FfmpegEngine.StitchVideos | apps/server/src/services/ffmpegEngine.ts:232-258 | no clips gives "No videos to stitch"; one clip succeeds exactly when its copy does; several clips succeed exactly when the concat demuxer or, after it, the filter graph succeeds; the route taken and the output path are reported |
| FfmpegEngine.ConcatListLines | apps/server/src/services/ffmpegEngine.ts:266-267 | the concat list splits back into exactly one `file '<resolved path>'` line per clip, in clip order |
| FfmpegEngine.InputNumbers | apps/server/src/services/ffmpegEngine.ts:307 | there is one input label per clip, and label i is a decimal numeral whose value is i |
| FfmpegEngine.FilterCommandOrder | apps/server/src/services/ffmpegEngine.ts:302-308 | the slow-path command takes the clips as inputs in clip order, and its graph feeds input k's video and audio to the concat as the k-th pair |
| FfmpegEngine.PairLabelsOf | apps/server/src/services/ffmpegEngine.ts:307 | each input contributes two labels |
| FfmpegEngine.PairLabelsAt | apps/server/src/services/ffmpegEngine.ts:307 | the labels at positions 2k and 2k+1 are input k's video and audio labels |
| FfmpegEngine.PairsLabels | apps/server/src/services/ffmpegEngine.ts:307 | the labels of the `[d:v][d:a]` run are the pair labels of the inputs in order, followed by the tail's labels |
| FfmpegEngine.ConcatNodeLabels | apps/server/src/services/ffmpegEngine.ts:308 | the concat node writes `[outv]` and then `[outa]` |
| FfmpegEngine.StitchFilterLabels | apps/server/src/services/ffmpegEngine.ts:307-308 | the slow-path graph reads the video and then the audio of inputs 0, 1, ..., n-1 in that order, then writes `outv` and `outa`, so input order is kept |
| FfmpegEngine.ReplaceAllCharConcat | apps/server/src/services/ffmpegEngine.ts:386 | a global one-character replacement distributes over concatenation |
| FfmpegEngine.EscapeTextIsEscape | apps/server/src/services/ffmpegEngine.ts:386 | the two chained replacements equal escaping in one pass: a backslash before every `'` and `:` |
| FfmpegEngine.EscapeRoundTrip | apps/server/src/services/ffmpegEngine.ts:386 | unescaping the escaped text gives the text back |
| FfmpegEngine.UnescapeEscape | apps/server/src/services/ffmpegEngine.ts:386 | the one-pass escaping is undone by unescaping |
| FfmpegEngine.EscapedArePreceded | apps/server/src/services/ffmpegEngine.ts:386 | every `'` and `:` of the escaped text directly follows a backslash |
| FfmpegEngine.EscapePreceded | apps/server/src/services/ffmpegEngine.ts:386 | the one-pass escaping leaves no `'` or `:` without a backslash before it |
| FfmpegEngine.TerminatedStep | apps/server/src/services/ffmpegEngine.ts:389-393 | a loop turn appends one segment and a `;` |
| FfmpegEngine.TerminatedIsJoin | apps/server/src/services/ffmpegEngine.ts:389-399 | the segments each followed by `;` are the segments joined by `;`, plus one `;` |
| FfmpegEngine.DropLastSeparator | apps/server/src/services/ffmpegEngine.ts:399 | dropping the last character leaves the segments joined by `;`, with no trailing `;` |
| FfmpegEngine.BuildOverlayFilter | apps/server/src/services/ffmpegEngine.ts:368-399 | the loop and the final `slice` build the overlay graph: the segments joined by `;` |
| FfmpegEngine.AddSegment | apps/server/src/services/ffmpegEngine.ts:383-395 | one turn adds the segment of the current element, read from the current input label |
| FfmpegEngine.OverlayChain | apps/server/src/services/ffmpegEngine.ts:369-395 | the first drawtext reads `[0:v]`, each later one reads the label the previous one wrote, and only the last writes `[outv]` |
| FfmpegEngine.SegmentEnable | apps/server/src/services/ffmpegEngine.ts:393 | a segment ends with its enable clause and then its output label |
| FfmpegEngine.OverlaySegments | apps/server/src/services/ffmpegEngine.ts:389-393 | each segment starts with its input label, ends with its output label, and carries its element's `between(t,start,end)` window |
| FfmpegEngine.AudioStreams | apps/server/src/services/ffmpegEngine.ts:341-342 | the audio-stream count is positive exactly when some stream's codec type is `audio` |
| FfmpegEngine.HasAudioStream | apps/server/src/services/ffmpegEngine.ts:332-345 | true exactly when the probe succeeds and reports an audio stream; a probe error counts as no audio |
| FfmpegEngine.OverlayAudioMapping | apps/server/src/services/ffmpegEngine.ts:405-411 | the options always map `[outv]` first, and they map `0:a` exactly when the probe reports audio |
| FfmpegEngine.AddTextOverlay | apps/server/src/services/ffmpegEngine.ts:351-425 | returns what `OverlayResult` specifies: a plain copy when there are no texts, otherwise one ffmpeg run with the drawtext chain and the audio mapping |
| FfmpegEngine.OverlayOutcome | apps/server/src/services/ffmpegEngine.ts:353-423 | the corrected overlay always settles: with no texts it succeeds exactly when the copy does, otherwise exactly when the ffmpeg run does; each failure carries its error |
| FfmpegEngine.OverlayCopyFailureHangs | apps/server/src/services/ffmpegEngine.ts:352-358 | the code as written never settles exactly when there are no texts and the copy fails, where the corrected overlay rejects; in every other case the two agree |
| FfmpegEngine.OverlayCopyFailureExample | apps/server/src/services/ffmpegEngine.ts:352-358 | the concrete case: an empty text list and a failing copy of the stitched file |
| FfmpegEngine.UnlinkedCount | apps/server/src/services/ffmpegEngine.ts:531-534 | counts the entries unlinked, in listing order, before the first `unlink` that fails |
| FfmpegEngine.TempDirectory.constructor | apps/server/src/services/ffmpegEngine.ts:531 | the directory holds the entries it is given |
| FfmpegEngine.TempDirectory.Cleanup | apps/server/src/services/ffmpegEngine.ts:529-539 | the entries are unlinked in order until one fails, and that entry and the ones after it stay; a listing failure changes nothing |
| FfmpegEngine.CleanupEmpties | apps/server/src/services/ffmpegEngine.ts:531-534 | when every unlink succeeds, the directory ends up empty |
| FfmpegEngine.ProcessSteps | apps/server/src/services/ffmpegEngine.ts:431-466 | the steps taken are a prefix of prepare, stitch, overlay, cleanup; cleanup is reached exactly when the run succeeds; success returns `./output/final_<name>.mp4` and happens exactly when all three stages succeed; a preparation failure is re-thrown unchanged |
| FfmpegEngine.RenderSteps | apps/server/src/services/ffmpegEngine.ts:439-452 | the prepare, stitch and overlay stages give the result and the steps that `ProcessOutcome` specifies |
| FfmpegEngine.StitchAndOverlay | apps/server/src/services/ffmpegEngine.ts:444-452 | after preparation, stitching into `./temp/stitched_<name>.mp4` and the overlay behave as `AfterPrepare` specifies |
| FfmpegEngine.OverlayStage | apps/server/src/services/ffmpegEngine.ts:449-460 | the overlay into the final path behaves as `AfterStitch` specifies |
| FfmpegEngine.ProcessVideo | apps/server/src/services/ffmpegEngine.ts:431-466 | the run's outcome is `ProcessOutcome`; the temporary directory is cleaned only after a success and is untouched after a failure |
| FfmpegEngine.ProcessAsWrittenPending | apps/server/src/services/ffmpegEngine.ts:352-466 | with the overlay as written, the run never settles exactly when preparing and stitching succeed, there are no texts and the final copy fails; otherwise it ends as the corrected run does |
| Sorting.Insert | apps/server/src/services/ffmpegEngine.ts:194 | insertion adds exactly one element, and the multiset of elements grows by that element |
| Sorting.InsertBound | apps/server/src/services/ffmpegEngine.ts:194 | a lower bound on the key of the inserted element and of every element bounds the keys of the result |
| Sorting.InsertSorted | apps/server/src/services/ffmpegEngine.ts:194 | inserting into a sorted list keeps it sorted |
| Sorting.SortBy | apps/server/src/services/ffmpegEngine.ts:194 | the comparator sort's result is sorted by the key and is a permutation of its input |
| Sorting.InsertWithKey | apps/server/src/services/ffmpegEngine.ts:194 | insertion keeps the order of the elements sharing any one key, placing the new element first among them |
| Sorting.SortStable | apps/server/src/services/ffmpegEngine.ts:194 | the sort is stable: elements sharing a key keep their relative order |
| Sorting.SortOfSorted | apps/server/src/services/ffmpegEngine.ts:225 | sorting an already sorted list leaves it unchanged |
| Text.NatToString | apps/server/src/services/ffmpegEngine.ts:307 | a non-negative integer is written as a non-empty string of digits whose decimal value is the integer |
| Text.IndexOfFrom | apps/server/src/services/fixCode.ts:25-27 | finds the leftmost occurrence of the pattern at or after k, or reports that there is none |
| Text.IndexOf | apps/server/src/services/fixCode.ts:25-27 | an index is found exactly when the text includes the pattern, and it is the leftmost occurrence, the one `replace` rewrites |
| Text.SpaceRunEnd | apps/server/src/services/manimEngine.ts:22 | the longest run of `\s` starting at k: it is all white space, followed by a non-space or the end |
| Text.WordRunEnd | apps/server/src/services/manimEngine.ts:22 | the longest run of `\w` starting at k: it is all word characters, followed by a non-word character or the end |
| Text.SpaceRunEndAt | apps/server/src/services/manimEngine.ts:22 | a white-space run ending before a non-space ends where `SpaceRunEnd` says |
| Text.WordRunEndAt | apps/server/src/services/manimEngine.ts:22 | a word run ending before a non-word character ends where `WordRunEnd` says |
| Text.TrimStart | apps/server/src/controller/animation.controller.ts:32 | removes exactly the leading white space: the result is a suffix, and what was removed is all white space |
| Text.TrimEnd | apps/server/src/controller/animation.controller.ts:32 | removes exactly the trailing white space: the result is a prefix, and what was removed is all white space |
| Text.Trim | apps/server/src/controller/animation.controller.ts:32 | the result is a slice of the string with only white space outside it, has no white space at either end, and an already trimmed string is kept as it is |
| Text.Split | apps/server/src/services/fixCode.ts:2 | splitting always gives at least one piece, even for the empty string |
| Text.JoinSplit | apps/server/src/services/fixCode.ts:2-39 | joining the pieces of a split with the separator gives back the string |
| Text.SplitPiece | apps/server/src/services/ffmpegEngine.ts:267 | a separator-free piece followed by the separator splits off as one piece |
| Text.SplitJoin | apps/server/src/services/ffmpegEngine.ts:267 | splitting a join of separator-free lines gives back the lines |
| Clips.RemoveAt | apps/client/app/components/VideoEditor/Player.tsx:47 | `splice(i, 1)` removes exactly element i and shifts the later elements down |
| Clips.InsertAt | apps/client/app/components/VideoEditor/Player.tsx:48 | `splice(i, 0, x)` puts x at i and shifts the later elements up |
| Clips.Move | apps/client/app/components/VideoEditor/Player.tsx:46-48 | the two splices keep the length |
| Clips.MoveAt | apps/client/app/components/VideoEditor/Player.tsx:46-48 | after a move, the moved element is at its target and the elements between the two positions shift by one towards the source; all others stay |
| Clips.MovePermutation | apps/client/app/components/VideoEditor/Player.tsx:46-48 | a move is a permutation |
| Clips.RemoveAtMultiset | apps/client/app/components/VideoEditor/Player.tsx:47 | removal takes exactly one copy of the removed element out of the multiset |
| Clips.InsertAtMultiset | apps/client/app/components/VideoEditor/Player.tsx:48 | insertion adds exactly one copy of the inserted element to the multiset |
| Clips.MoveKeepsOthers | apps/client/app/components/VideoEditor/Player.tsx:46-48 | the other clips keep their relative order |
| Clips.MoveSame | apps/client/app/components/VideoEditor/VideoLayer.tsx:16-18 | moving an element onto its own position changes nothing |
| Clips.MoveInverse | apps/client/app/components/VideoEditor/Player.tsx:46-48 | moving back undoes a move |
| Clips.Reorder | apps/client/app/components/VideoEditor/Player.tsx:46-48 | the in-place shift on the copied array gives exactly the moved list |
| Clips.RenumberSorted | apps/client/app/components/VideoEditor/Player.tsx:51 | after renumbering, clip i has order i+1 and every other field unchanged, so the orders are exactly 1..n by position and sorting by order changes nothing |
| Player.StartsOrdered | apps/client/app/components/VideoEditor/Player.tsx:56-66 | when no duration is negative, a later clip never starts earlier than an earlier one, and none starts after the total |
| Player.TimelineMap | apps/client/app/components/VideoEditor/Player.tsx:56-66 | the clips are laid back to back from 0: each ends its duration (0 when unknown) after it starts, each starts where the previous one ends, and the total is the sum of the durations |
| Player.VideoEditor.constructor | apps/client/app/components/VideoEditor/Player.tsx:17-22 | the initial list is the clips sorted stably by order, the first clip is current, and there is no drag start |
| Player.VideoEditor.HandleMetadataLoaded | apps/client/app/components/VideoEditor/Player.tsx:26-30 | only the current clip gets the loaded duration; every other clip and the indices are unchanged |
| Player.VideoEditor.HandleEnded | apps/client/app/components/VideoEditor/Player.tsx:32-36 | advances to the next clip unless the current one is the last, so a valid index stays valid |
| Player.VideoEditor.HandleDragStart | apps/client/app/components/VideoEditor/Player.tsx:38-40 | remembers the drag start and changes nothing else |
| Player.VideoEditor.HandleDrop | apps/client/app/components/VideoEditor/Player.tsx:42-54 | without a drag start, or when dropped on it, nothing changes; otherwise the list becomes the renumbered move and the drag start is cleared |
| VideoLayer.ClipStrip.constructor | apps/client/app/components/VideoEditor/VideoLayer.tsx:6-8 | the initial strip is the clips sorted stably by order |
| VideoLayer.ClipStrip.HandleDrop | apps/client/app/components/VideoEditor/VideoLayer.tsx:14-20 | the strip becomes the renumbered move of the dragged clip to the drop position, even when the two positions are the same |
| VideoLayer.DropSpec | apps/client/app/components/VideoEditor/VideoLayer.tsx:14-20 | the dragged clip lands at the drop index; no clip is lost or gained; the others keep their order; the orders become 1..n |
| VideoLayer.DropOnItself | apps/client/app/components/VideoEditor/VideoLayer.tsx:14-20 | dropping a clip on itself only renumbers |
| Timeline.ReplaceWithTwo | apps/client/app/components/VideoEditor/timeline/Timeline.tsx:98 | `splice(i, 1, a, b)` replaces element i with a and b and keeps everything before and after it |
| Timeline.InsertAt | apps/client/app/components/VideoEditor/timeline/Timeline.tsx:166 | `splice(i, 0, x)` puts x at i and keeps the elements around it |
| Timeline.SplitMediaAt | apps/client/app/components/VideoEditor/timeline/Timeline.tsx:55-98 | fails exactly when no media item is selected ("No element selected.") or when the marker is not strictly inside the item ("...bounds."); otherwise the item is replaced by its two parts and the rest of the list is unchanged |
| Timeline.SplitTextAt | apps/client/app/components/VideoEditor/timeline/Timeline.tsx:99-130 | the same for a text item, with its own message |
| Timeline.SplitMediaWindows | apps/client/app/components/VideoEditor/timeline/Timeline.tsx:72-96 | the parts cover `[start, t]` and `[t, end]` on the timeline and split the source window at one offset; each part has a fresh id and otherwise differs from the item only in those fields |
| Timeline.SplitOffsetInside | apps/client/app/components/VideoEditor/timeline/Timeline.tsx:76-78 | the split offset lies strictly inside a non-empty source window, and equals the start of an empty one |
| Timeline.SplitKeepsDuration | apps/client/app/components/VideoEditor/timeline/Timeline.tsx:72-96 | when the item plays its source window at its speed, each part does too |
| Timeline.SplitTextWindows | apps/client/app/components/VideoEditor/timeline/Timeline.tsx:116-128 | the text parts cover `[start, t]` and `[t, end]` and differ from the item only in id and in one end of the window |
| Timeline.SplitExample | apps/client/app/components/VideoEditor/timeline/Timeline.tsx:72-96 | splitting a clip spanning 0–10 s of timeline and source at 4 s gives 0–4 and 4–10 in both windows |
| Timeline.DuplicateAt | apps/client/app/components/VideoEditor/timeline/Timeline.tsx:145-167 | exists exactly for a valid index; when it does, the copy goes right after the original and nothing else moves |
| Timeline.RemoveId | apps/client/app/components/VideoEditor/timeline/Timeline.tsx:199 | no element of the result has the deleted id, and the list does not grow |
| Timeline.RemoveIdMembers | apps/client/app/components/VideoEditor/timeline/Timeline.tsx:199 | the filter keeps exactly the elements whose id differs |
| Timeline.RemoveIdConcat | apps/client/app/components/VideoEditor/timeline/Timeline.tsx:199 | the filter distributes over concatenation, so it keeps the order |
| Timeline.RemoveIdAt | apps/client/app/components/VideoEditor/timeline/Timeline.tsx:197-200 | when ids are distinct, deleting by the selected element's id removes exactly that position |
| Timeline.KeepAll | apps/client/app/components/VideoEditor/timeline/Timeline.tsx:199 | a list without the id passes the filter unchanged |
| Timeline.Clamp | apps/client/app/components/VideoEditor/timeline/Timeline.tsx:219 | the clamped time lies in `[0, duration]` and equals the given time when that is already inside |
| Timeline.ClampNearest | apps/client/app/components/VideoEditor/timeline/Timeline.tsx:219 | the clamped time is the point of the interval nearest to the clicked time |
| Timeline.ProjectStore.constructor | apps/client/app/components/VideoEditor/timeline/Timeline.tsx:23-33 | the store starts with the given lists, no selection, the marker at 0 and playback stopped |
| Timeline.ProjectStore.HandleSplit | apps/client/app/components/VideoEditor/timeline/Timeline.tsx:45-138 | no selection shows the error and changes nothing; another selection value does nothing silently; for media or text, an error changes nothing, and a success replaces only that list, clears the selection and reports success |
| Timeline.ProjectStore.HandleDuplicate | apps/client/app/components/VideoEditor/timeline/Timeline.tsx:140-174 | with a valid selection, a copy with the fresh id goes right after it, the selection is cleared and success is reported; otherwise the error is shown and nothing changes |
| Timeline.ProjectStore.HandleDelete | apps/client/app/components/VideoEditor/timeline/Timeline.tsx:176-207 | with a valid selection, every element sharing its id is removed from that list only and the selection is cleared; otherwise the error is shown and nothing changes |
| Timeline.ProjectStore.HandleClick | apps/client/app/components/VideoEditor/timeline/Timeline.tsx:209-222 | clicking stops playback and seeks to click offset / zoom clamped to `[0, duration]`; nothing else changes |
| SequenceItem.ToCssUnitIdempotent | apps/client/app/components/VideoEditor/remotion/sequence-item.tsx:19-26 | formatting an already formatted value again changes nothing, for the fallbacks the renderers use |
| SequenceItem.CalculateFrames | apps/client/app/components/VideoEditor/remotion/sequence-item.tsx:28-36 | the sequence starts at `from * fps` and lasts `(to - from) * fps` frames, but never less than one frame |
| SequenceItem.PlaybackRate | apps/client/app/components/VideoEditor/remotion/sequence-item.tsx:45 | the rate is never 0: a missing or zero speed plays at 1, and any other speed is kept |
| SequenceItem.Fraction | apps/client/app/components/VideoEditor/remotion/sequence-item.tsx:77-97 | a volume or opacity percentage becomes that fraction of full scale, and a missing one gives full volume or full opacity |
| SequenceItem.VideoTrimFillsSequence | apps/client/app/components/VideoEditor/remotion/sequence-item.tsx:45-94 | the trim is scaled by the rate but the placement is not, so for an item that plays its source window at its speed, the trimmed source is as many frames long as the sequence |
| SequenceItem.AudioPlacement | apps/client/app/components/VideoEditor/remotion/sequence-item.tsx:229-244 | the audio placement is the video placement divided by the rate, and the two coincide at rate 1 |
| SequenceItem.UncroppedImage | apps/client/app/components/VideoEditor/remotion/sequence-item.tsx:173-216 | without a crop, the visible box is the whole image and the image is not shifted |
| SequenceItem.CroppedImage | apps/client/app/components/VideoEditor/remotion/sequence-item.tsx:173-216 | with a crop, the visible box has the crop's size and the image is shifted up and left by the crop's offset, keeping the item's size |
| TextProperties.ResetConfig | apps/client/app/components/VideoEditor/TextProperties.tsx:59-75 | the reset form places the next item at last end + 10 to last end + 20 and differs from the initial form only in window and position |
| TextProperties.LastEnd | apps/client/app/components/VideoEditor/TextProperties.tsx:31-32 | the last end is the largest `positionEnd` of the items: no item ends later, one ends exactly then, and it is 0 for an empty list |
| TextProperties.LastEndAppend | apps/client/app/components/VideoEditor/TextProperties.tsx:31-32 | appending an item raises the last end to that item's end when it ends later |
| TextProperties.HandleAddText | apps/client/app/components/VideoEditor/TextProperties.tsx:30-76 | the existing items are kept in order and one item with the fresh id, built from the form, is appended; the form is reset from the last end taken before the add |
| TextProperties.AddTextDefaults | apps/client/app/components/VideoEditor/TextProperties.tsx:34-54 | a field the form sets is copied; an unset one takes its default (start at the last end, end 10 s later, size 24, width 300, height 100, opacity 100, empty text) |
| TextProperties.AddTextAfterLast | apps/client/app/components/VideoEditor/TextProperties.tsx:31-38 | with the default window, the new item starts no earlier than any item ends, lasts 10 s, and moves the last end 10 s later |
| TextProperties.NextAddUsesReset | apps/client/app/components/VideoEditor/TextProperties.tsx:60-63 | a second add with the reset form starts 10 s after the last end the first add saw |
| TextProperties.AddTextKeepsIdsDistinct | apps/client/app/components/VideoEditor/TextProperties.tsx:35-56 | a fresh id keeps the ids of the list distinct |
| AddMedia.HandleFileChange | apps/client/app/components/VideoEditor/AssetsPanel/AddButtons/AddMedia.tsx:49-58 | no file does nothing; a file is taken exactly when its MIME type starts with `audio/`; any other file gets the alert |
| AddMedia.AddMediaHandler | apps/client/app/components/VideoEditor/AssetsPanel/AddButtons/AddMedia.tsx:14-37 | nothing happens unless both a non-empty base64 source and a file are present; otherwise the list is kept and the new audio item is appended |
| AddMedia.NewAudioItemFields | apps/client/app/components/VideoEditor/AssetsPanel/AddButtons/AddMedia.tsx:19-34 | the new item is audio, named after the file, with its id as its file id, placed at 0, as long as the file (0 when unknown), included in the merge with speed 1, volume 100 and layer 1, so it keeps the duration invariant |
| AddMedia.OnlyAudioIsAdded | apps/client/app/components/VideoEditor/AssetsPanel/AddButtons/AddMedia.tsx:14-58 | a pick reaches the media list exactly when it is an audio file |
| Composition.Seconds | apps/client/app/components/VideoEditor/remotion/compostion.tsx:62 | the time of a frame is the frame number divided by 30 fps |
| Composition.TimeSync.constructor | apps/client/app/components/VideoEditor/remotion/compostion.tsx:15 | nothing has been reported yet: the last reported time is 0 |
| Composition.TimeSync.OnFrame | apps/client/app/components/VideoEditor/remotion/compostion.tsx:61-69 | a time more than 0.1 s from the last report is reported and remembered; otherwise nothing changes; either way the remembered time ends within 0.1 s of the playhead |
| Composition.RenderTextsCount | apps/client/app/components/VideoEditor/remotion/compostion.tsx:79-83 | the number of text sequences rendered equals the number of present text entries |
| Composition.RenderMediaCount | apps/client/app/components/VideoEditor/remotion/compostion.tsx:73-77 | the number of sequences rendered equals the number of present entries with a renderer |
| FixCode.SceneHeaderFromSpec | apps/server/src/services/fixCode.ts:12 | the scan finds a scene header exactly when `class (\w+)\(Scene\):` matches at some position |
| FixCode.CloseParenFromSpec | apps/server/src/services/fixCode.ts:19 | the pattern `.*\)` matches from k exactly when a `)` follows before any line terminator |
| FixCode.FirstObjectMatchFrom | apps/server/src/services/fixCode.ts:19 | a match is reported only at or after the start position |
| FixCode.FirstObjectMatchSpec | apps/server/src/services/fixCode.ts:19-22 | the scan finds the leftmost match of the object-assignment pattern, and finds none only when there is none |
| FixCode.FirstObjectMatchFound | apps/server/src/services/fixCode.ts:19 | a reported position is a match |
| FixCode.FirstObjectMatchLeftmost | apps/server/src/services/fixCode.ts:19 | no match lies before the reported position |
| FixCode.FirstObjectMatchNone | apps/server/src/services/fixCode.ts:19 | when nothing is reported, nothing matches |
| FixCode.ObjectNameSpec | apps/server/src/services/fixCode.ts:19-22 | a name is captured exactly when the pattern matches; it is the non-empty word at the leftmost match |
| FixCode.Analyses | apps/server/src/services/fixCode.ts:8-9 | one analysis per line |
| FixCode.SpliceBeforeLast | apps/server/src/services/fixCode.ts:35 | `splice(length - 1, 0, a, b)` puts the two lines just before the last one |
| FixCode.RewriteLine | apps/server/src/services/fixCode.ts:9-27 | a header resets the stack; an assignment pushes its name; with more than one name, the first `.move_to(ORIGIN)` is redirected; the group lines are due exactly when the edited line, trimmed, starts with `self.wait(` and the stack has more than one name |
| FixCode.PushLine | apps/server/src/services/fixCode.ts:29-36 | the edited line is appended, with the group line and the play line just before it when they are due |
| FixCode.FixLines | apps/server/src/services/fixCode.ts:8-37 | the loop produces exactly the specified output for all lines |
| FixCode.FixOverlapsInManimCode | apps/server/src/services/fixCode.ts:1-40 | the result is the rewritten lines of the code joined with newlines |
| FixCode.OutputLength | apps/server/src/services/fixCode.ts:29-36 | the output has the input's lines plus two per insertion |
| FixCode.OutputPrefix | apps/server/src/services/fixCode.ts:29-36 | the output only grows: the output for fewer lines is a prefix of the output for more lines |
| FixCode.OutputLineAt | apps/server/src/services/fixCode.ts:29-36 | every input line appears once and in order, possibly edited, at its index plus two per insertion so far; when an insertion fires for it, the group and play lines are right before it |
| FixCode.OutputLineEmitted | apps/server/src/services/fixCode.ts:29-36 | the last line emitted sits at that position, after its group lines when they fire |
| FixCode.EmptyStack | apps/server/src/services/fixCode.ts:19-27 | without object assignments the stack stays empty and every line is copied as it is |
| FixCode.PassThrough | apps/server/src/services/fixCode.ts:1-40 | code without object assignments passes through unchanged |
| FixCode.PlainLine | apps/server/src/services/fixCode.ts:12-36 | a line that matches no pattern is copied as it is and leaves the stack unchanged |
| FixCode.StackSinceHeader | apps/server/src/services/fixCode.ts:12-22 | after the last scene header, the stack holds exactly the names assigned since it, in order |
| FixCode.StackWithoutHeader | apps/server/src/services/fixCode.ts:5-22 | before any header, the stack holds the names assigned so far, in order |
| FixCode.EditLineSpec | apps/server/src/services/fixCode.ts:25-27 | the move is redirected only when the stack has more than one name, and then only its first occurrence is replaced |
| ManimEngine.ScriptName | apps/server/src/services/manimEngine.ts:8 | the script file is named `scene_<id>.py` |
| ManimEngine.ScriptPathInjective | apps/server/src/services/manimEngine.ts:7-10 | different ids give different script paths |
| ManimEngine.MatchHere | apps/server/src/services/manimEngine.ts:22 | a match found at the start is `class`, white space, a non-empty word and `(Scene):`, and the captured name is that word |
| ManimEngine.MatchHereComplete | apps/server/src/services/manimEngine.ts:22 | any match of the pattern at the start is the one found, so there is no other |
| ManimEngine.SceneClassNamesSound | apps/server/src/services/manimEngine.ts:21-23 | every extracted name is a non-empty `\w` run that the code declares as `<name>(Scene):` |
| ManimEngine.MatchClassLine | apps/server/src/services/manimEngine.ts:22 | a declaration line is matched whole and gives back its name |
| ManimEngine.SceneClassNamesMatch | apps/server/src/services/manimEngine.ts:21-23 | after a match, the global scan resumes at the end of that match |
| ManimEngine.SceneClassNamesNewline | apps/server/src/services/manimEngine.ts:21-23 | a line break before the text adds no name |
| ManimEngine.SceneClassNamesOfLines | apps/server/src/services/manimEngine.ts:21-23 | for a script of declaration lines, the extraction gives back the declared names, in order |
| ManimEngine.RenderArgs | apps/server/src/services/manimEngine.ts:27 | the arguments are the render script, the scene file, then every scene name in order |
| ManimEngine.RunManimCode | apps/server/src/services/manimEngine.ts:6-50 | resolves exactly when `mkdir`, `writeFile` and a `python3` exit code of 0 all happen, with the message naming the scene file and the scenes; once both file steps succeed, it rejects with "Manim render failed" |
| ManimEngine.RenderedScenes | apps/server/src/services/manimEngine.ts:38-44 | a successful render of a declaration script lists exactly the declared scenes |
| AnimationController.UserMessageQuotesPrompt | apps/server/src/controller/animation.controller.ts:21-22 | the user message quotes the prompt verbatim |
| AnimationController.LeadingFenceEnd | apps/server/src/controller/animation.controller.ts:30 | the leading-fence match, when there is one, covers at least the fence and stops before a non-space |
| AnimationController.StripLeadingFence | apps/server/src/controller/animation.controller.ts:30 | the first replacement removes only a prefix |
| AnimationController.TrailingFenceFrom | apps/server/src/controller/animation.controller.ts:31 | finds the leftmost position where the trailing-fence pattern matches |
| AnimationController.TrailingFenceFromAt | apps/server/src/controller/animation.controller.ts:31 | a position that matches, with no match before it, is the one found |
| AnimationController.StripTrailingFence | apps/server/src/controller/animation.controller.ts:31 | the second replacement removes only a suffix |
| AnimationController.StripFences | apps/server/src/controller/animation.controller.ts:29-32 | the extracted script has no white space at either end |
| AnimationController.FenceFreeOnlyTrimmed | apps/server/src/controller/animation.controller.ts:29-32 | a reply without any fence is only trimmed |
| AnimationController.LeadingFenceOfBlock | apps/server/src/controller/animation.controller.ts:30 | for a fenced block, the first replacement removes the white space, the fence, the optional `python` tag and the line break |
| AnimationController.LeadingFenceEndAt | apps/server/src/controller/animation.controller.ts:30 | the leading match ends after the white-space run that follows the fence and the optional tag |
| AnimationController.FenceAfterSpaces | apps/server/src/controller/animation.controller.ts:30 | for white space followed by a fence, the leading `\s*` takes exactly that white space |
| AnimationController.TagThenBreak | apps/server/src/controller/animation.controller.ts:30 | `python` is taken exactly when it is the tag, and the trailing `\s*` takes just the line break before the code |
| AnimationController.NoTrailingFenceInCode | apps/server/src/controller/animation.controller.ts:31 | no trailing-fence match starts inside fence-free code that does not end in white space |
| AnimationController.TrailingFenceOfBlock | apps/server/src/controller/animation.controller.ts:31 | the second replacement removes exactly the line break, the closing fence and the white space after it |
| AnimationController.StripFencedBlock | apps/server/src/controller/animation.controller.ts:29-32 | a trimmed fence-free script, fenced with or without `python` and surrounded by white space, comes back exactly |
| AnimationController.CreateScenes | apps/server/src/controller/animation.controller.ts:7-43 | 400 with "Prompt is required" exactly when the prompt is missing or empty; 200 with the render message exactly when the model call and the render both succeed; otherwise 500 with "Internal server error" |
| AnimationController.FencedScenesRendered | apps/server/src/controller/animation.controller.ts:28-38 | when the model answers with a fenced script of scene declarations and the render succeeds, the reply is 200 and lists exactly those scenes, in order |

## Findings

| source | as written | input that shows it | evidently intended | confidence | as-written member | corrected member |
|---|---|---|---|---|---|---|
| apps/server/src/services/ffmpegEngine.ts:352-358 | the promise executor of `addTextOverlay` is `async`, so an exception from `copyFileSync` in the no-text branch rejects only the executor's own promise: the returned promise never settles, and on Node 15 and later that unhandled rejection ends the process by default | `textElements` empty and the copy to `./output/final_<name>.mp4` throwing, for example because the output directory is missing | the returned promise rejects with the copy's error, `processVideo` re-throws it, and the caller gets an error | high, from reading the code; not executed | FfmpegEngine.OverlayCopyFailureHangs | FfmpegEngine.OverlayOutcome |

The whole model uses the corrected overlay (`OverlayResult`, used by `AddTextOverlay` and the
pipeline). `OverlayAsWritten` is the code as written, in which that run never settles, and
`ProcessAsWritten` is the pipeline built on it (`ProcessAsWrittenPending`). Neither models the
possible end of the process through the unhandled rejection.

## Left out

- Network downloads, ffmpeg, ffprobe, file writes and `spawn` are parameters that report
  success or failure. Their progress, logging and concurrency are not modelled.
- JavaScript's number-to-string conversion is the parameter `show`; only non-negative integers
  (`NatToString`) are written out.
- Fresh ids (`crypto.randomUUID`, `uuid`, `Math.random().toString()`) are parameters.
- Floating point: times, sizes, ratios and percentages are exact reals, so rounding,
  `Infinity` and `NaN` are not modelled.
- The other `VideoProcessor` operations are not part of this model: `downloadVideo` (its HTTP
  status handling), `getVideoInfo`, `resizeVideo`, `extractAudio` and `ensureDirectories`. The
  callers see the download only as an outcome.
- The concat path writes and then unlinks `./temp/filelist.txt`. The unlink is not modelled;
  an unlink failure after an ffmpeg success would leave that promise unsettled.
- `path.resolve` in the concat list is the parameter `resolve`. `path.join` in `cleanup` is
  written as `temp/<entry>`. The manim scripts directory (`__dirname/../manim_scripts`) is the
  parameter `scriptsDir`, without path normalisation.
- The export payload's fields that the pipeline does not read are left out: resolution, fps,
  export settings and history.
- FfmpegEngine.AddTextOverlay: models the corrected overlay. With no texts and a failing copy,
  the code as written never settles, while this method returns `Err(CopyFailedMessage)`; the
  code as written is `OverlayAsWritten` (see "## Findings").
- FfmpegEngine.ProcessSteps: describes the corrected run. With no texts and a failing final copy
  the code as written never settles, where this lemma reports a failed run after the overlay
  step; `ProcessAsWrittenPending` states the difference.
- FfmpegEngine.RenderSteps: ends in the corrected overlay, so the run that never settles in the
  code as written is a failed run here.
- FfmpegEngine.StitchAndOverlay: ends in the corrected overlay, with the same gap.
- FfmpegEngine.OverlayStage: calls the corrected overlay, with the same gap.
- FfmpegEngine.ProcessVideo: its outcome rests on the corrected overlay. In the code as written
  that run never returns, while this method returns the copy error. Neither cleans up.
- SequenceItem.Fraction: a missing value is `None`, and `null` lies outside the fields' type.
  The opacity test `!== undefined` would turn a stored `null` into 0, where the model gives 1.
- FfmpegEngine.StitchVideos: the error messages of a failing copy or ffmpeg run come from the
  library, so they are the placeholder constants `CopyFailedMessage` and `FfmpegFailedMessage`.
- ManimEngine.RunManimCode: a failing `mkdir` or `writeFile` rejects with the file-system
  error. Its message is the placeholder `FsErrorMessage`. A process ended by a signal (exit
  code `null`) is `None`.
- ManimEngine.RunManimCode: the `error` event of `spawn`, emitted for example when `python3`
  cannot be started, is not modelled. Neither is the output of stdout and stderr.
- AnimationController.CreateScenes: the prompt is either missing or a string. Other truthy
  values, which the template literal would convert to text, are not modelled. The OpenAI
  client is the parameter `complete`, and `Err` stands for any exception it throws.
- Timeline.ProjectStore.HandleClick: requires a non-zero zoom. With a zero zoom, the source
  divides by zero and gets `Infinity` or `NaN`, which reals cannot represent. The
  `timelineRef` null check and the bounding-box arithmetic are left out: the handler receives
  the click offset.
- Timeline.ProjectStore.HandleSplit: the toasts are returned as values. The store's
  `setActiveElement(null)` is the selection `NoSelection`.
- Player.VideoEditor.HandleDrop: requires the drag start and the drop index to be positions in
  the list, as the rendered clips supply them. `splice`'s clamping of other indices is not
  modelled.
- VideoLayer.ClipStrip.HandleDrop: requires both indices to be positions in the list. The
  drag index travels through `dataTransfer` as text and comes back through `parseInt`; that
  round trip is not modelled.
- Player: `requestAnimationFrame`, the playhead percentage and the `<video>` element are not
  modelled. `TimelineMap` gives the start offsets the playhead uses.
- Composition: `fetchVideos`, the project load from IndexedDB, is not modelled. The store
  dispatch is the field `storeTime`. Rendering is modelled as the choice of renderer per
  entry, not as JSX.
- SequenceItem: the JSX styles that are constants or copy a field unchanged (`zIndex ?? 0`,
  `src || ""`, `color || "#000000"`, ...) are not modelled. The `text` renderer is modelled
  only through `CalculateFrames` and `ToCssUnit`.
- AddMedia: `FileReader` and the `Audio` element that measures the duration run
  asynchronously. Their results are the parameters `base64` and `duration`.
- FixCode: the variable `currentScene` is written but never read, so it is not modelled.
- TextProperties: the form's input handlers and the success toast are left out.
- Composition, TextProperties and Player: `console.log` and toasts are not modelled, except
  the toasts the timeline handlers return.
