/**
 * The export compositor (class `VideoProcessor` of the server): choose the media items to merge,
 * download and trim each, stitch the trimmed clips, burn the text overlays in, clean up.
 *
 * Every external effect (HTTP download, an ffmpeg run, ffprobe, a file copy, a file write,
 * `path.resolve`) is a field of `Tools` that reports success or failure; what is modelled is
 * which calls are made, with which arguments, in which order, and what follows from each
 * outcome. The error messages of failed external calls are the constants below, since their
 * text comes from the library.
 */
module FfmpegEngine {
  import opened Wrappers
  import opened Text
  import opened Sorting
  import opened TimelineData

  /** The directories the constructor fixes. */
  const TempDir: string := "./temp"
  const OutputDir: string := "./output"

  /** A downloaded and trimmed clip, ready to be stitched. */
  datatype TrimmedVideo = TrimmedVideo(
    path: string,
    positionStart: real,
    fileName: string,
    playbackSpeed: Option<real>,
    volume: Option<real>)

  /** One fluent-ffmpeg run. */
  datatype Command = Command(
    inputs: seq<string>,
    inputOptions: seq<string>,
    startTime: Option<real>,
    duration: Option<real>,
    filterGraph: Option<string>,
    outputOptions: seq<string>,
    output: string)

  /**
   * The outcomes of the external calls. `download(url, path)`, `run(command)`,
   * `copy(from, to)` and `writeFile(path, content)` report success; `probe(path)` gives the
   * `codec_type` of every stream, or `None` when ffprobe fails; `resolve` is `path.resolve`.
   */
  datatype Tools = Tools(
    download: (string, string) -> bool,
    run: Command -> bool,
    copy: (string, string) -> bool,
    writeFile: (string, string) -> bool,
    probe: string -> Option<seq<string>>,
    resolve: string -> string)

  const NoVideosMessage: string :=
    "No videos were successfully processed. Please check your video URLs and network connection."
  const NoStitchInputMessage: string := "No videos to stitch"
  /** Stand-ins for the messages of errors thrown by the library calls. */
  const CopyFailedMessage: string := "copy failed"
  const FfmpegFailedMessage: string := "ffmpeg failed"

  // ---------------------------------------------------------------------------------------
  // Preparing the clips

  function MediaStart(m: MediaFile): real { m.positionStart }

  function TrimmedStart(t: TrimmedVideo): real { t.positionStart }

  /** `mediaFiles.filter(m => m.includeInMerge)`. */
  function MergeCandidates(media: seq<MediaFile>): (r: seq<MediaFile>)
    ensures |r| <= |media|
    ensures forall m :: m in r <==> m in media && m.includeInMerge
  {
    if |media| == 0 then []
    else (if media[0].includeInMerge then [media[0]] else []) + MergeCandidates(media[1..])
  }

  /** The filter keeps the order and the multiplicity of the items: it distributes over concatenation. */
  lemma {:induction false} MergeCandidatesConcat(a: seq<MediaFile>, b: seq<MediaFile>)
    ensures MergeCandidates(a + b) == MergeCandidates(a) + MergeCandidates(b)
  {
    if |a| == 0 {
      assert a + b == b;
    } else {
      assert (a + b)[1..] == a[1..] + b;
      MergeCandidatesConcat(a[1..], b);
    }
  }

  /**
   * The marked items that start at `k` are, in input order, the marked items among the input's
   * items that start at `k`.
   */
  lemma {:induction false} MergeCandidatesWithKey(media: seq<MediaFile>, k: real)
    ensures WithKey(MergeCandidates(media), MediaStart, k) == MergeCandidates(WithKey(media, MediaStart, k))
  {
    if |media| > 0 {
      var h := media[0];
      var rest := MergeCandidates(media[1..]);
      MergeCandidatesWithKey(media[1..], k);
      if h.includeInMerge {
        assert ([h] + rest)[1..] == rest;
      } else {
        assert MergeCandidates(media) == rest;
      }
      if MediaStart(h) == k {
        assert ([h] + WithKey(media[1..], MediaStart, k))[1..] == WithKey(media[1..], MediaStart, k);
      } else {
        assert WithKey(media, MediaStart, k) == WithKey(media[1..], MediaStart, k);
      }
    }
  }

  /** The items the preparation loop visits, in the order it visits them. */
  function ToProcess(media: seq<MediaFile>): seq<MediaFile> {
    SortBy(MergeCandidates(media), MediaStart)
  }

  function DownloadedPath(fileName: string): string { TempDir + "/downloaded_" + fileName }

  function TrimmedPath(fileName: string): string { TempDir + "/trimmed_" + fileName }

  /** `trimVideo`: seek to `startTime` and keep `endTime - startTime` seconds. */
  function TrimCommand(input: string, output: string, startTime: real, endTime: real): Command {
    Command([input], [], Some(startTime), Some(endTime - startTime), None, [], output)
  }

  /** Both the download and the trim of `m` succeed. */
  predicate Survives(m: MediaFile, tools: Tools) {
    tools.download(m.src, DownloadedPath(m.fileName))
    && tools.run(TrimCommand(DownloadedPath(m.fileName), TrimmedPath(m.fileName), m.startTime, m.endTime))
  }

  /** The record pushed for an item that survives. */
  function Record(m: MediaFile): TrimmedVideo {
    TrimmedVideo(TrimmedPath(m.fileName), m.positionStart, m.fileName, m.playbackSpeed, m.volume)
  }

  /** The records of the items of `ms` that survive, in the order of `ms`. */
  function Survivors(ms: seq<MediaFile>, tools: Tools): seq<TrimmedVideo> {
    if |ms| == 0 then []
    else
      var last := ms[|ms| - 1];
      Survivors(ms[..|ms| - 1], tools) + (if Survives(last, tools) then [Record(last)] else [])
  }

  lemma SurvivorsStep(ms: seq<MediaFile>, i: nat, tools: Tools)
    requires i < |ms|
    ensures Survivors(ms[..i + 1], tools)
      == Survivors(ms[..i], tools) + (if Survives(ms[i], tools) then [Record(ms[i])] else [])
  {
    assert ms[..i + 1][..i] == ms[..i];
  }

  /** What `prepareVideosForStitching` returns or throws. */
  function Prepared(media: seq<MediaFile>, tools: Tools): Result<seq<TrimmedVideo>> {
    var trimmed := Survivors(ToProcess(media), tools);
    if |trimmed| == 0 then Err(NoVideosMessage) else Ok(SortBy(trimmed, TrimmedStart))
  }

  /** Downloads and trims every item marked for merging; an item whose download or trim fails is skipped. */
  method PrepareVideosForStitching(mediaFiles: seq<MediaFile>, tools: Tools) returns (r: Result<seq<TrimmedVideo>>)
    ensures r == Prepared(mediaFiles, tools)
  {
    var toProcess := ToProcess(mediaFiles);
    var trimmedVideos: seq<TrimmedVideo> := [];
    var i := 0;
    while i < |toProcess|
      invariant 0 <= i <= |toProcess|
      invariant trimmedVideos == Survivors(toProcess[..i], tools)
    {
      var mediaFile := toProcess[i];
      SurvivorsStep(toProcess, i, tools);
      var downloadedPath := DownloadedPath(mediaFile.fileName);
      var downloaded := tools.download(mediaFile.src, downloadedPath);
      if downloaded {
        var outputPath := TrimmedPath(mediaFile.fileName);
        var trimmed := tools.run(TrimCommand(downloadedPath, outputPath, mediaFile.startTime, mediaFile.endTime));
        if trimmed {
          trimmedVideos := trimmedVideos + [TrimmedVideo(outputPath, mediaFile.positionStart,
                                                         mediaFile.fileName, mediaFile.playbackSpeed, mediaFile.volume)];
        }
      }
      i := i + 1;
    }
    assert toProcess[..i] == toProcess;
    if |trimmedVideos| == 0 {
      return Err(NoVideosMessage);
    }
    return Ok(SortBy(trimmedVideos, TrimmedStart));
  }

  /** The visited items are exactly the ones marked for merging, in non-decreasing `positionStart` order. */
  lemma ToProcessSpec(media: seq<MediaFile>)
    ensures forall m :: m in ToProcess(media) <==> m in media && m.includeInMerge
    ensures SortedBy(ToProcess(media), MediaStart)
    ensures multiset(ToProcess(media)) == multiset(MergeCandidates(media))
    ensures forall k :: WithKey(ToProcess(media), MediaStart, k) == WithKey(MergeCandidates(media), MediaStart, k)
    ensures forall k :: WithKey(ToProcess(media), MediaStart, k) == MergeCandidates(WithKey(media, MediaStart, k))
  {
    var c := MergeCandidates(media);
    forall k ensures WithKey(c, MediaStart, k) == MergeCandidates(WithKey(media, MediaStart, k)) {
      MergeCandidatesWithKey(media, k);
    }
    assert forall m :: m in ToProcess(media) <==> m in multiset(c);
    forall k ensures WithKey(ToProcess(media), MediaStart, k) == WithKey(c, MediaStart, k) {
      SortStable(c, MediaStart, k);
    }
  }

  /** Every record comes from a surviving item of `ms`, and every surviving item gives a record. */
  lemma {:induction false} SurvivorsSpec(ms: seq<MediaFile>, tools: Tools)
    ensures forall t :: t in Survivors(ms, tools) ==> exists m :: m in ms && Survives(m, tools) && t == Record(m)
    ensures forall m :: m in ms && Survives(m, tools) ==> Record(m) in Survivors(ms, tools)
  {
    if |ms| > 0 {
      var init := ms[..|ms| - 1];
      SurvivorsSpec(init, tools);
      assert ms == init + [ms[|ms| - 1]];
    }
  }

  /** Records of a sorted item list are sorted: the loop keeps the order it visits the items in. */
  lemma {:induction false} SurvivorsSorted(ms: seq<MediaFile>, tools: Tools)
    requires SortedBy(ms, MediaStart)
    ensures SortedBy(Survivors(ms, tools), TrimmedStart)
  {
    if |ms| > 0 {
      var init := ms[..|ms| - 1];
      var last := ms[|ms| - 1];
      assert SortedBy(init, MediaStart);
      SurvivorsSorted(init, tools);
      SurvivorsSpec(init, tools);
      var s := Survivors(init, tools);
      forall i | 0 <= i < |s| ensures TrimmedStart(s[i]) <= MediaStart(last) {
        assert s[i] in s;
        var m :| m in init && Survives(m, tools) && s[i] == Record(m);
        var j :| 0 <= j < |init| && init[j] == m;
        assert ms[j] == m;
      }
    }
  }

  /**
   * The preparation fails exactly when no marked item survives; otherwise it returns the records
   * of the surviving marked items, sorted by `positionStart` — the final re-sort changes nothing.
   */
  lemma PreparedSpec(media: seq<MediaFile>, tools: Tools)
    ensures Prepared(media, tools).Err? <==> forall m :: m in media && m.includeInMerge ==> !Survives(m, tools)
    ensures Prepared(media, tools).Err? ==> Prepared(media, tools).message == NoVideosMessage
    ensures Prepared(media, tools).Ok? ==> Prepared(media, tools).value == Survivors(ToProcess(media), tools)
    ensures Prepared(media, tools).Ok? ==> SortedBy(Prepared(media, tools).value, TrimmedStart)
    ensures Prepared(media, tools).Ok? ==>
      forall t :: t in Prepared(media, tools).value <==>
        exists m :: m in media && m.includeInMerge && Survives(m, tools) && t == Record(m)
  {
    var p := ToProcess(media);
    ToProcessSpec(media);
    SurvivorsSpec(p, tools);
    SurvivorsSorted(p, tools);
    var s := Survivors(p, tools);
    SortOfSorted(s, TrimmedStart);
    if |s| == 0 {
      forall m | m in media && m.includeInMerge ensures !Survives(m, tools) {
        assert m in p;
      }
    } else {
      assert s[0] in s;
    }
  }

  // ---------------------------------------------------------------------------------------
  // Stitching

  datatype StitchRoute = SingleCopy | ConcatDemuxer | FilterComplex

  /** A successful stitch: the output path, and the route that produced it. */
  datatype Stitched = Stitched(output: string, route: StitchRoute)

  const FileListPath: string := TempDir + "/filelist.txt"

  function FileLine(path: string): string { "file '" + path + "'" }

  /** The concat demuxer's list: one `file '<absolute path>'` line per clip, joined by newlines. */
  function ConcatList(videos: seq<TrimmedVideo>, resolve: string -> string): string {
    Join(seq(|videos|, i requires 0 <= i < |videos| => FileLine(resolve(videos[i].path))), "\n")
  }

  function ConcatCommand(output: string): Command {
    Command([FileListPath], ["-f", "concat", "-safe", "0"], None, None, None, ["-c", "copy"], output)
  }

  predicate ConcatSucceeds(videos: seq<TrimmedVideo>, output: string, tools: Tools) {
    tools.writeFile(FileListPath, ConcatList(videos, tools.resolve)) && tools.run(ConcatCommand(output))
  }

  /** A filter-graph label `[l]`. */
  function Bracket(l: string): string { "[" + l + "]" }

  /** `[d:v][d:a]` for each name `d` in turn, followed by `tail`. */
  function PairsOf(names: seq<string>, tail: string): string
    decreases |names|
  {
    if |names| == 0 then tail else Bracket(names[0] + ":v") + Bracket(names[0] + ":a") + PairsOf(names[1..], tail)
  }

  /** The input numbers `0`, ..., `n - 1` as written in a filter graph. */
  function InputNumbers(n: nat): (r: seq<string>)
    ensures |r| == n && forall i :: 0 <= i < n ==> r[i] == NatToString(i)
    ensures forall i :: 0 <= i < n ==> AllDigits(r[i]) && DecimalValue(r[i]) == i
  {
    seq(n, i requires 0 <= i < n => NatToString(i))
  }

  function ConcatNode(n: nat): string { "concat=n=" + NatToString(n) + ":v=1:a=1" + Bracket("outv") + Bracket("outa") }

  /** The slow path's filter graph; it names an audio stream for every input. */
  function StitchFilter(n: nat): string { PairsOf(InputNumbers(n), ConcatNode(n)) }

  function Paths(videos: seq<TrimmedVideo>): (r: seq<string>)
    ensures |r| == |videos| && forall i :: 0 <= i < |videos| ==> r[i] == videos[i].path
  {
    seq(|videos|, i requires 0 <= i < |videos| => videos[i].path)
  }

  function FilterCommand(videos: seq<TrimmedVideo>, output: string): Command {
    Command(Paths(videos), [], None, None, Some(StitchFilter(|videos|)), ["-map", "[outv]", "-map", "[outa]"], output)
  }

  /**
   * The slow path's command takes the clips as its inputs in clip order, and its graph feeds
   * input k's video and audio to the concat as the k-th pair, so clip k plays k-th.
   */
  lemma FilterCommandOrder(videos: seq<TrimmedVideo>, output: string, k: nat)
    requires k < |videos|
    ensures var c := FilterCommand(videos, output);
      && |c.inputs| == |videos| && c.inputs[k] == videos[k].path
      && c.filterGraph.Some? && |Labels(c.filterGraph.value)| == 2 * |videos| + 2
      && Labels(c.filterGraph.value)[2 * k] == NatToString(k) + ":v"
      && Labels(c.filterGraph.value)[2 * k + 1] == NatToString(k) + ":a"
  {
    StitchFilterLabels(|videos|);
  }

  /**
   * `stitchVideos`: no clips is an error, one clip is copied, several clips go through the concat
   * demuxer and, when that fails, through the filter graph.
   */
  function StitchVideos(videos: seq<TrimmedVideo>, output: string, tools: Tools): (r: Result<Stitched>)
    ensures |videos| == 0 ==> r == Err(NoStitchInputMessage)
    ensures |videos| == 1 ==> (r.Ok? <==> tools.copy(videos[0].path, output))
    ensures |videos| >= 2 ==> (r.Ok? <==> ConcatSucceeds(videos, output, tools) || tools.run(FilterCommand(videos, output)))
    ensures r.Ok? ==> r.value.output == output
    ensures r.Ok? ==> (r.value.route == SingleCopy <==> |videos| == 1)
    ensures r.Ok? ==> (r.value.route == ConcatDemuxer <==> |videos| >= 2 && ConcatSucceeds(videos, output, tools))
  {
    if |videos| == 0 then Err(NoStitchInputMessage)
    else if |videos| == 1 then
      (if tools.copy(videos[0].path, output) then Ok(Stitched(output, SingleCopy)) else Err(CopyFailedMessage))
    else if ConcatSucceeds(videos, output, tools) then Ok(Stitched(output, ConcatDemuxer))
    else if tools.run(FilterCommand(videos, output)) then Ok(Stitched(output, FilterComplex))
    else Err(FfmpegFailedMessage)
  }

  /** The concat list has exactly one `file '<path>'` line per clip, in clip order. */
  lemma ConcatListLines(videos: seq<TrimmedVideo>, resolve: string -> string)
    requires |videos| >= 1
    requires forall i :: 0 <= i < |videos| ==> '\n' !in resolve(videos[i].path)
    ensures |Split(ConcatList(videos, resolve), '\n')| == |videos|
    ensures forall i :: 0 <= i < |videos| ==> Split(ConcatList(videos, resolve), '\n')[i] == FileLine(resolve(videos[i].path))
  {
    var lines := seq(|videos|, i requires 0 <= i < |videos| => FileLine(resolve(videos[i].path)));
    SplitJoin(lines, '\n');
  }

  /** The index of the first `]` at or after `k`. */
  function CloseBracket(s: string, k: nat): (r: Option<nat>)
    decreases |s| - k
    ensures r.Some? ==> k <= r.value < |s|
  {
    if k >= |s| then None else if s[k] == ']' then Some(k) else CloseBracket(s, k + 1)
  }

  lemma {:induction false} CloseBracketAt(s: string, k: nat, j: nat)
    requires k <= j < |s| && s[j] == ']'
    requires forall q :: k <= q < j ==> s[q] != ']'
    decreases j - k
    ensures CloseBracket(s, k) == Some(j)
  {
    if k < j {
      CloseBracketAt(s, k + 1, j);
    }
  }

  /** The labels written between square brackets in a filter graph, in order. */
  function Labels(s: string): seq<string>
    decreases |s|
  {
    if |s| == 0 then []
    else if s[0] != '[' then Labels(s[1..])
    else
      match CloseBracket(s, 1)
      case None => []
      case Some(j) => [s[1..j]] + Labels(s[j + 1..])
  }

  lemma {:induction false} LabelsSkip(a: string, b: string)
    requires '[' !in a
    ensures Labels(a + b) == Labels(b)
  {
    if |a| > 0 {
      assert (a + b)[0] == a[0];
      assert (a + b)[1..] == a[1..] + b;
      LabelsSkip(a[1..], b);
    } else {
      assert a + b == b;
    }
  }

  lemma LabelsToken(l: string, b: string)
    requires ']' !in l
    ensures Labels(Bracket(l) + b) == [l] + Labels(b)
  {
    var s := Bracket(l) + b;
    var j := |l| + 1;
    assert s[j] == ']';
    forall q | 1 <= q < j ensures s[q] != ']' {
      assert s[q] == l[q - 1];
    }
    CloseBracketAt(s, 1, j);
    assert s[1..j] == l;
    assert s[j + 1..] == b;
  }

  /** The labels `PairsOf(names, _)` writes: `d:v` and `d:a` for each name `d` in turn. */
  function PairLabelsOf(names: seq<string>): (r: seq<string>)
    decreases |names|
    ensures |r| == 2 * |names|
  {
    if |names| == 0 then [] else [names[0] + ":v", names[0] + ":a"] + PairLabelsOf(names[1..])
  }

  lemma {:induction false} PairLabelsAt(names: seq<string>, k: nat)
    requires k < |names|
    decreases k
    ensures PairLabelsOf(names)[2 * k] == names[k] + ":v" && PairLabelsOf(names)[2 * k + 1] == names[k] + ":a"
  {
    if k > 0 {
      PairLabelsAt(names[1..], k - 1);
      assert names[1..][k - 1] == names[k];
    }
  }

  lemma NoBracketInNumber(n: nat)
    ensures '[' !in NatToString(n) && ']' !in NatToString(n)
  {
    var d := NatToString(n);
    assert forall i :: 0 <= i < |d| ==> d[i] != '[' && d[i] != ']';
  }

  /** The two labels of one input come first, in order. */
  lemma PairLabelsHead(d: string, rest: string)
    requires '[' !in d && ']' !in d
    ensures Labels(Bracket(d + ":v") + Bracket(d + ":a") + rest) == [d + ":v", d + ":a"] + Labels(rest)
  {
    var v := Bracket(d + ":v");
    var a := Bracket(d + ":a");
    assert v + a + rest == v + (a + rest);
    LabelsToken(d + ":v", a + rest);
    LabelsToken(d + ":a", rest);
  }

  lemma AppendAssoc<T>(a: seq<T>, b: seq<T>, c: seq<T>)
    ensures a + (b + c) == (a + b) + c
  {}

  lemma {:induction false} PairsLabels(names: seq<string>, b: string)
    requires forall j :: 0 <= j < |names| ==> '[' !in names[j] && ']' !in names[j]
    decreases |names|
    ensures Labels(PairsOf(names, b)) == PairLabelsOf(names) + Labels(b)
  {
    if |names| > 0 {
      var d := names[0];
      PairLabelsHead(d, PairsOf(names[1..], b));
      assert forall j :: 0 <= j < |names[1..]| ==> names[1..][j] == names[j + 1];
      PairsLabels(names[1..], b);
      AppendAssoc([d + ":v", d + ":a"], PairLabelsOf(names[1..]), Labels(b));
    }
  }

  lemma ConcatNodeLabels(n: nat)
    ensures Labels(ConcatNode(n)) == ["outv", "outa"]
  {
    NoBracketInNumber(n);
    var head := "concat=n=" + NatToString(n) + ":v=1:a=1";
    var tail := Bracket("outv") + (Bracket("outa") + "");
    assert ConcatNode(n) == head + tail;
    LabelsSkip(head, tail);
    LabelsToken("outv", Bracket("outa") + "");
    LabelsToken("outa", "");
    assert Labels("") == [];
  }

  /**
   * The slow-path filter graph reads, in order, the video and the audio stream of input 0, then
   * of input 1, ..., then of input n-1, and writes `[outv]` and `[outa]`: input order is kept.
   */
  lemma StitchFilterLabels(n: nat)
    ensures |Labels(StitchFilter(n))| == 2 * n + 2
    ensures forall k :: 0 <= k < n ==>
      Labels(StitchFilter(n))[2 * k] == NatToString(k) + ":v" && Labels(StitchFilter(n))[2 * k + 1] == NatToString(k) + ":a"
    ensures Labels(StitchFilter(n))[2 * n] == "outv" && Labels(StitchFilter(n))[2 * n + 1] == "outa"
  {
    var names := InputNumbers(n);
    forall j | 0 <= j < n ensures '[' !in names[j] && ']' !in names[j] {
      NoBracketInNumber(j);
    }
    ConcatNodeLabels(n);
    PairsLabels(names, ConcatNode(n));
    var l := Labels(StitchFilter(n));
    var p := PairLabelsOf(names);
    assert l == p + ["outv", "outa"];
    forall k | 0 <= k < n
      ensures l[2 * k] == NatToString(k) + ":v" && l[2 * k + 1] == NatToString(k) + ":a"
    {
      PairLabelsAt(names, k);
      assert l[2 * k] == p[2 * k] && l[2 * k + 1] == p[2 * k + 1];
    }
  }

  // ---------------------------------------------------------------------------------------
  // Text overlay

  /** `s.replace(/c/g, r)` for one character `c`. */
  function ReplaceAllChar(s: string, c: char, r: string): string {
    if |s| == 0 then "" else (if s[0] == c then r else [s[0]]) + ReplaceAllChar(s[1..], c, r)
  }

  /** The escaping of line 386: first every `'`, then every `:`. */
  function EscapeText(s: string): string {
    ReplaceAllChar(ReplaceAllChar(s, '\'', "\\'"), ':', "\\:")
  }

  predicate IsEscaped(c: char) { c == '\'' || c == ':' }

  /** One backslash before every `'` and `:`, every other character kept. */
  function Escape(s: string): string {
    if |s| == 0 then "" else (if IsEscaped(s[0]) then ['\\', s[0]] else [s[0]]) + Escape(s[1..])
  }

  function Unescape(s: string): string {
    if |s| == 0 then ""
    else if |s| >= 2 && s[0] == '\\' && IsEscaped(s[1]) then [s[1]] + Unescape(s[2..])
    else [s[0]] + Unescape(s[1..])
  }

  lemma {:induction false} ReplaceAllCharConcat(a: string, b: string, c: char, r: string)
    ensures ReplaceAllChar(a + b, c, r) == ReplaceAllChar(a, c, r) + ReplaceAllChar(b, c, r)
  {
    if |a| > 0 {
      assert (a + b)[1..] == a[1..] + b;
      ReplaceAllCharConcat(a[1..], b, c, r);
    } else {
      assert a + b == b;
    }
  }

  /** The two chained global replacements are the one-pass escaping. */
  lemma {:induction false} EscapeTextIsEscape(s: string)
    ensures EscapeText(s) == Escape(s)
  {
    if |s| > 0 {
      EscapeTextIsEscape(s[1..]);
      var once := ReplaceAllChar(s[1..], '\'', "\\'");
      var head := if s[0] == '\'' then "\\'" else [s[0]];
      assert ReplaceAllChar(s, '\'', "\\'") == head + once;
      ReplaceAllCharConcat(head, once, ':', "\\:");
      if s[0] == '\'' {
        assert ReplaceAllChar(head, ':', "\\:") == "\\'";
      } else if s[0] == ':' {
        assert ReplaceAllChar(head, ':', "\\:") == "\\:";
      } else {
        assert ReplaceAllChar(head, ':', "\\:") == [s[0]];
      }
    }
  }

  lemma EscapeHead(s: string)
    requires |Escape(s)| > 0
    ensures !IsEscaped(Escape(s)[0])
  {}

  /** Escaping loses nothing: unescaping gives back the text. */
  lemma {:induction false} EscapeRoundTrip(s: string)
    ensures Unescape(EscapeText(s)) == s
  {
    EscapeTextIsEscape(s);
    UnescapeEscape(s);
  }

  lemma {:induction false} UnescapeEscape(s: string)
    ensures Unescape(Escape(s)) == s
  {
    if |s| > 0 {
      var rest := Escape(s[1..]);
      UnescapeEscape(s[1..]);
      if IsEscaped(s[0]) {
        assert Escape(s) == ['\\', s[0]] + rest;
        assert Escape(s)[2..] == rest;
      } else {
        assert Escape(s) == [s[0]] + rest;
        assert Escape(s)[1..] == rest;
        if s[0] == '\\' && |rest| > 0 {
          EscapeHead(s[1..]);
        }
      }
    }
  }

  /** Every `'` and `:` of the escaped text directly follows a backslash. */
  lemma {:induction false} EscapedArePreceded(s: string)
    ensures forall i :: 0 <= i < |EscapeText(s)| && IsEscaped(EscapeText(s)[i]) ==> i > 0 && EscapeText(s)[i - 1] == '\\'
  {
    EscapeTextIsEscape(s);
    EscapePreceded(s);
  }

  lemma {:induction false} EscapePreceded(s: string)
    ensures forall i :: 0 <= i < |Escape(s)| && IsEscaped(Escape(s)[i]) ==> i > 0 && Escape(s)[i - 1] == '\\'
  {
    if |s| > 0 {
      EscapePreceded(s[1..]);
      var rest := Escape(s[1..]);
      var head := if IsEscaped(s[0]) then ['\\', s[0]] else [s[0]];
      assert Escape(s) == head + rest;
      forall i | 0 <= i < |Escape(s)| && IsEscaped(Escape(s)[i]) ensures i > 0 && Escape(s)[i - 1] == '\\' {
        if i >= |head| {
          assert Escape(s)[i] == rest[i - |head|];
          if i - |head| > 0 {
            assert Escape(s)[i - 1] == rest[i - |head| - 1];
          }
        }
      }
    }
  }

  /** The input label of the i-th drawtext: the video of input 0, then the previous output. */
  function InputLabel(i: nat): string { if i == 0 then "[0:v]" else "[v" + NatToString(i) + "]" }

  /** The output label of the i-th of n drawtexts: `[outv]` for the last one. */
  function OutputLabel(i: nat, n: nat): string { if i + 1 == n then "[outv]" else "[v" + NatToString(i + 1) + "]" }

  /** The enable clause: visible while `positionStart <= t <= positionEnd`. */
  function EnableClause(t: TextElement, show: real -> string): string {
    "enable='between(t," + show(t.positionStart) + "," + show(t.positionEnd) + ")'"
  }

  /** The drawtext filter of one text element; `fontSize` defaults to 24 and `color` to white. */
  function DrawText(t: TextElement, show: real -> string): string {
    "drawtext=text='" + EscapeText(t.text) + "':" + "fontsize=" + show(t.fontSize.GetOr(24.0)) + ":"
    + "fontcolor=" + t.color.GetOr("white") + ":" + "x=" + show(t.x) + ":y=" + show(t.y) + ":"
    + EnableClause(t, show)
  }

  function Segment(texts: seq<TextElement>, i: nat, show: real -> string): string
    requires i < |texts|
  {
    InputLabel(i) + DrawText(texts[i], show) + OutputLabel(i, |texts|)
  }

  function Segments(texts: seq<TextElement>, show: real -> string): (r: seq<string>)
    ensures |r| == |texts| && forall i :: 0 <= i < |texts| ==> r[i] == Segment(texts, i, show)
  {
    seq(|texts|, i requires 0 <= i < |texts| => Segment(texts, i, show))
  }

  /** The overlay filter graph: the segments joined by `;`, with no trailing `;`. */
  function OverlayFilter(texts: seq<TextElement>, show: real -> string): string {
    Join(Segments(texts, show), ";")
  }

  /** Each part followed by `sep`: what the `forEach` loop has built after those parts. */
  function Terminated(parts: seq<string>, sep: string): string {
    if |parts| == 0 then "" else Terminated(parts[..|parts| - 1], sep) + parts[|parts| - 1] + sep
  }

  lemma TerminatedStep(parts: seq<string>, i: nat, sep: string)
    requires i < |parts|
    ensures Terminated(parts[..i + 1], sep) == Terminated(parts[..i], sep) + parts[i] + sep
  {
    assert parts[..i + 1][..i] == parts[..i];
  }

  lemma {:induction false} JoinSnoc(parts: seq<string>, x: string, sep: string)
    requires |parts| >= 1
    ensures Join(parts + [x], sep) == Join(parts, sep) + sep + x
  {
    if |parts| == 1 {
      assert (parts + [x])[1..] == [x];
    } else {
      assert (parts + [x])[1..] == parts[1..] + [x];
      JoinSnoc(parts[1..], x, sep);
    }
  }

  lemma {:induction false} TerminatedIsJoin(parts: seq<string>, sep: string)
    requires |parts| >= 1
    ensures Terminated(parts, sep) == Join(parts, sep) + sep
  {
    if |parts| > 1 {
      var init := parts[..|parts| - 1];
      TerminatedIsJoin(init, sep);
      JoinSnoc(init, parts[|parts| - 1], sep);
      assert init + [parts[|parts| - 1]] == parts;
    }
  }

  /**
   * `segs` are the segments of `texts`. The trigger keeps each segment's text out of sight until
   * a step asks for it by its index.
   */
  ghost predicate SegmentsOf(texts: seq<TextElement>, show: real -> string, segs: seq<string>) {
    |segs| == |texts| && forall i {:trigger Segment(texts, i, show)} | 0 <= i < |texts| :: Segment(texts, i, show) == segs[i]
  }

  lemma SegmentsOverlay(texts: seq<TextElement>, show: real -> string) returns (segs: seq<string>)
    ensures SegmentsOf(texts, show, segs) && Join(segs, ";") == OverlayFilter(texts, show)
  {
    segs := Segments(texts, show);
  }

  /** Dropping the last separator of the terminated parts leaves them joined. */
  lemma DropLastSeparator(parts: seq<string>, sep: string)
    requires |parts| > 0 && |sep| > 0
    ensures var t := Terminated(parts, sep); |t| >= |sep| && t[..|t| - |sep|] == Join(parts, sep)
  {
    TerminatedIsJoin(parts, sep);
  }

  /** The `forEach` of `addTextOverlay` and the final `slice(0, -1)`. */
  method BuildOverlayFilter(texts: seq<TextElement>, show: real -> string) returns (filterComplex: string)
    requires |texts| > 0
    ensures filterComplex == OverlayFilter(texts, show)
  {
    ghost var segs := SegmentsOverlay(texts, show);
    filterComplex := "";
    var currentInput := "[0:v]";
    var index := 0;
    while index < |texts|
      invariant 0 <= index <= |texts|
      invariant currentInput == InputLabel(index)
      invariant filterComplex == Terminated(segs[..index], ";")
    {
      filterComplex := AddSegment(filterComplex, currentInput, texts, index, show, segs);
      currentInput := "[v" + NatToString(index + 1) + "]";
      index := index + 1;
    }
    assert segs[..index] == segs;
    DropLastSeparator(segs, ";");
    filterComplex := filterComplex[..|filterComplex| - 1];
  }

  /** One turn of the `forEach`: the drawtext of `texts[index]`, from `currentInput` to its output label. */
  method AddSegment(filterComplex: string, currentInput: string, texts: seq<TextElement>, index: nat,
                    show: real -> string, ghost segs: seq<string>) returns (r: string)
    requires SegmentsOf(texts, show, segs) && index < |texts| && currentInput == InputLabel(index)
    requires filterComplex == Terminated(segs[..index], ";")
    ensures r == Terminated(segs[..index + 1], ";")
  {
    assert Segment(texts, index, show) == segs[index];
    TerminatedStep(segs, index, ";");
    r := filterComplex + (currentInput + DrawText(texts[index], show) + OutputLabel(index, |texts|)) + ";";
  }

  /**
   * The drawtext chain of n segments: the first reads `[0:v]`, every later one reads the label
   * the previous one wrote, and only the last writes `[outv]`.
   */
  lemma OverlayChain(n: nat)
    ensures InputLabel(0) == "[0:v]"
    ensures forall i :: 0 < i < n ==> InputLabel(i) == OutputLabel(i - 1, n)
    ensures forall i :: 0 <= i < n ==> (OutputLabel(i, n) == "[outv]" <==> i == n - 1)
  {
    forall i | 0 <= i < n ensures (OutputLabel(i, n) == "[outv]" <==> i == n - 1) {
      if i + 1 != n {
        assert OutputLabel(i, n)[1] == 'v';
      }
    }
  }

  /** A segment ends with its enable clause followed by its output label. */
  lemma SegmentEnable(texts: seq<TextElement>, i: nat, show: real -> string)
    requires i < |texts|
    ensures var s := Segment(texts, i, show);
      OccursAt(s, EnableClause(texts[i], show), |s| - |OutputLabel(i, |texts|)| - |EnableClause(texts[i], show)|)
  {
    var d := DrawText(texts[i], show);
    var e := EnableClause(texts[i], show);
    var o := OutputLabel(i, |texts|);
    var pre := InputLabel(i) + d[..|d| - |e|];
    assert d == d[..|d| - |e|] + e;
    assert Segment(texts, i, show) == pre + e + o;
  }

  lemma Framed(first: string, middle: string, last: string)
    ensures StartsWith(first + middle + last, first) && EndsWith(first + middle + last, last)
  {
    var s := first + middle + last;
    assert s[..|first|] == first;
    assert s[|s| - |last|..] == last;
  }

  /**
   * Each segment reads its input label, draws its text, and writes its output label, and it
   * carries its text's enable window just before its output label.
   */
  lemma OverlaySegments(texts: seq<TextElement>, show: real -> string)
    ensures forall i :: 0 <= i < |texts| ==>
      StartsWith(Segment(texts, i, show), InputLabel(i)) && EndsWith(Segment(texts, i, show), OutputLabel(i, |texts|))
    ensures forall i :: 0 <= i < |texts| ==>
      OccursAt(Segment(texts, i, show), EnableClause(texts[i], show),
               |Segment(texts, i, show)| - |OutputLabel(i, |texts|)| - |EnableClause(texts[i], show)|)
  {
    forall i | 0 <= i < |texts|
      ensures StartsWith(Segment(texts, i, show), InputLabel(i)) && EndsWith(Segment(texts, i, show), OutputLabel(i, |texts|))
      ensures OccursAt(Segment(texts, i, show), EnableClause(texts[i], show),
                       |Segment(texts, i, show)| - |OutputLabel(i, |texts|)| - |EnableClause(texts[i], show)|)
    {
      SegmentEnable(texts, i, show);
      Framed(InputLabel(i), DrawText(texts[i], show), OutputLabel(i, |texts|));
    }
  }

  /** The number of audio streams among the probed codec types. */
  function AudioStreams(codecTypes: seq<string>): (r: nat)
    ensures r > 0 <==> exists i :: 0 <= i < |codecTypes| && codecTypes[i] == "audio"
  {
    if |codecTypes| == 0 then 0
    else (if codecTypes[0] == "audio" then 1 else 0) + AudioStreams(codecTypes[1..])
  }

  /** `hasAudioStream`: a probe error counts as no audio. */
  function HasAudioStream(probe: Option<seq<string>>): (r: bool)
    ensures r <==> probe.Some? && exists i :: 0 <= i < |probe.value| && probe.value[i] == "audio"
  {
    match probe
    case None => false
    case Some(codecTypes) => AudioStreams(codecTypes) > 0
  }

  function OverlayOptions(hasAudio: bool): seq<string> {
    ["-map", "[outv]"] + (if hasAudio then ["-map", "0:a"] else [])
  }

  function OverlayCommand(input: string, output: string, texts: seq<TextElement>, hasAudio: bool, show: real -> string): Command {
    Command([input], [], None, None, Some(OverlayFilter(texts, show)), OverlayOptions(hasAudio), output)
  }

  /** What `addTextOverlay` returns or throws. */
  function OverlayResult(input: string, output: string, texts: seq<TextElement>, tools: Tools, show: real -> string): Result<string> {
    if |texts| == 0 then
      (if tools.copy(input, output) then Ok(output) else Err(CopyFailedMessage))
    else if tools.run(OverlayCommand(input, output, texts, HasAudioStream(tools.probe(input)), show)) then Ok(output)
    else Err(FfmpegFailedMessage)
  }

  /** The input audio is mapped exactly when the probe reports an audio stream. */
  lemma OverlayAudioMapping(input: string, output: string, texts: seq<TextElement>, tools: Tools, show: real -> string)
    ensures var opts := OverlayCommand(input, output, texts, HasAudioStream(tools.probe(input)), show).outputOptions;
      && opts[..2] == ["-map", "[outv]"]
      && ("0:a" in opts <==> tools.probe(input).Some? && exists i :: 0 <= i < |tools.probe(input).value| && tools.probe(input).value[i] == "audio")
  {}

  /** `addTextOverlay`: an empty list is a plain copy; otherwise one ffmpeg run with the drawtext chain. */
  method AddTextOverlay(input: string, output: string, texts: seq<TextElement>, tools: Tools, show: real -> string)
    returns (r: Result<string>)
    ensures r == OverlayResult(input, output, texts, tools, show)
  {
    if |texts| == 0 {
      var copied := tools.copy(input, output);
      if copied {
        return Ok(output);
      }
      return Err(CopyFailedMessage);
    }
    var hasAudio := HasAudioStream(tools.probe(input));
    var filterComplex := BuildOverlayFilter(texts, show);
    var outputOptions := ["-map", "[outv]"];
    if hasAudio {
      outputOptions := outputOptions + ["-map", "0:a"];
    }
    assert outputOptions == OverlayOptions(hasAudio);
    var ok := tools.run(Command([input], [], None, None, Some(filterComplex), outputOptions, output));
    if ok {
      return Ok(output);
    }
    return Err(FfmpegFailedMessage);
  }

  /**
   * The overlay settles in every case: with no text items it succeeds exactly when the copy
   * does and otherwise rejects with the copy's error; with text items it succeeds exactly when
   * the ffmpeg run of the drawtext chain does.
   */
  lemma OverlayOutcome(input: string, output: string, texts: seq<TextElement>, tools: Tools, show: real -> string)
    ensures var r := OverlayResult(input, output, texts, tools, show);
      && (r.Ok? ==> r.value == output)
      && (|texts| == 0 ==> (r.Ok? <==> tools.copy(input, output)) && (r.Err? ==> r.message == CopyFailedMessage))
      && (|texts| > 0 ==> (r.Ok? <==> tools.run(OverlayCommand(input, output, texts, HasAudioStream(tools.probe(input)), show)))
                          && (r.Err? ==> r.message == FfmpegFailedMessage))
  {}

  /**
   * `addTextOverlay` as the code is written. Its promise executor is an `async` function, so an
   * exception thrown by `copyFileSync` in the no-text branch only rejects the executor's own
   * promise: the promise `addTextOverlay` returns never settles (`None`).
   */
  function OverlayAsWritten(input: string, output: string, texts: seq<TextElement>, tools: Tools, show: real -> string)
    : Option<Result<string>>
  {
    if |texts| == 0 then (if tools.copy(input, output) then Some(Ok(output)) else None)
    else if tools.run(OverlayCommand(input, output, texts, HasAudioStream(tools.probe(input)), show)) then Some(Ok(output))
    else Some(Err(FfmpegFailedMessage))
  }

  /**
   * The two differ exactly on an empty text list whose copy fails: the code then leaves
   * `processVideo` waiting forever, where a rejection was intended. Everywhere else they agree.
   */
  lemma OverlayCopyFailureHangs(input: string, output: string, texts: seq<TextElement>, tools: Tools, show: real -> string)
    ensures OverlayAsWritten(input, output, texts, tools, show).None? <==> |texts| == 0 && !tools.copy(input, output)
    ensures OverlayAsWritten(input, output, texts, tools, show).None? ==>
      OverlayResult(input, output, texts, tools, show) == Err(CopyFailedMessage)
    ensures OverlayAsWritten(input, output, texts, tools, show).Some? ==>
      OverlayAsWritten(input, output, texts, tools, show).value == OverlayResult(input, output, texts, tools, show)
  {}

  /** The concrete case: no text items and a copy from the stitched file that fails. */
  lemma OverlayCopyFailureExample(tools: Tools, show: real -> string)
    requires !tools.copy(StitchedPath("p"), FinalPath("p"))
    ensures OverlayAsWritten(StitchedPath("p"), FinalPath("p"), [], tools, show) == None
    ensures OverlayResult(StitchedPath("p"), FinalPath("p"), [], tools, show) == Err(CopyFailedMessage)
  {}

  // ---------------------------------------------------------------------------------------
  // Cleanup and the pipeline

  /** `path.join(this.tempDir, file)`. */
  function TempFilePath(file: string): string { "temp/" + file }

  /** How many leading entries of the listing are unlinked before the first failure. */
  function UnlinkedCount(files: seq<string>, unlink: string -> bool): (r: nat)
    ensures r <= |files|
    ensures forall i :: 0 <= i < r ==> unlink(TempFilePath(files[i]))
    ensures r < |files| ==> !unlink(TempFilePath(files[r]))
  {
    if |files| == 0 || !unlink(TempFilePath(files[0])) then 0
    else 1 + UnlinkedCount(files[1..], unlink)
  }

  /** The temporary directory, as the list of its entries. */
  class TempDirectory {
    var files: seq<string>

    constructor (files: seq<string>)
      ensures this.files == files
    {
      this.files := files;
    }

    /**
     * `cleanup`: unlink every entry; an unlink that throws ends the `forEach`, and the error is
     * caught and logged, so the entries from that one on stay. A listing failure changes nothing.
     */
    method Cleanup(readable: bool, unlink: string -> bool)
      modifies this
      ensures files == if readable then old(files)[UnlinkedCount(old(files), unlink)..] else old(files)
    {
      if !readable {
        return;
      }
      var listing := files;
      var i := 0;
      while i < |listing|
        invariant 0 <= i <= UnlinkedCount(listing, unlink)
        invariant files == listing[i..]
      {
        var ok := unlink(TempFilePath(listing[i]));
        if !ok {
          break;
        }
        files := files[1..];
        i := i + 1;
      }
    }
  }

  lemma CleanupEmpties(files: seq<string>, unlink: string -> bool)
    requires forall i :: 0 <= i < |files| ==> unlink(TempFilePath(files[i]))
    ensures files[UnlinkedCount(files, unlink)..] == []
  {}

  /** The export payload; the fields the pipeline does not read are left out. */
  datatype Payload = Payload(projectName: string, mediaFiles: seq<MediaFile>, textElements: seq<TextElement>)

  datatype Step = Prepare | Stitch(output: string) | Overlay(input: string, output: string) | Cleanup

  function StitchedPath(projectName: string): string { TempDir + "/stitched_" + projectName + ".mp4" }

  function FinalPath(projectName: string): string { OutputDir + "/final_" + projectName + ".mp4" }

  /** All the steps of a run that succeeds, in order. */
  function AllSteps(projectName: string): seq<Step> {
    [Prepare, Stitch(StitchedPath(projectName)), Overlay(StitchedPath(projectName), FinalPath(projectName)), Cleanup]
  }

  /** What `processVideo` returns or throws, and the steps it takes. */
  datatype Outcome = Outcome(result: Result<string>, steps: seq<Step>)

  function ProcessOutcome(payload: Payload, tools: Tools, show: real -> string): Outcome {
    match Prepared(payload.mediaFiles, tools)
    case Err(e) => Outcome(Err(e), [Prepare])
    case Ok(trimmed) => AfterPrepare(trimmed, payload, tools, show)
  }

  /** The rest of the run once the videos are prepared. */
  function AfterPrepare(trimmed: seq<TrimmedVideo>, payload: Payload, tools: Tools, show: real -> string): Outcome {
    var stitched := StitchedPath(payload.projectName);
    match StitchVideos(trimmed, stitched, tools)
    case Err(e) => Outcome(Err(e), [Prepare, Stitch(stitched)])
    case Ok(_) => AfterStitch(payload, tools, show)
  }

  /** The rest of the run once the videos are stitched. */
  function AfterStitch(payload: Payload, tools: Tools, show: real -> string): Outcome {
    var stitched := StitchedPath(payload.projectName);
    var final := FinalPath(payload.projectName);
    match OverlayResult(stitched, final, payload.textElements, tools, show)
    case Err(e) => Outcome(Err(e), [Prepare, Stitch(stitched), Overlay(stitched, final)])
    case Ok(_) => Outcome(Ok(final), AllSteps(payload.projectName))
  }

  /**
   * The pipeline runs its steps in order and stops at the first failure, re-throwing that
   * step's error; the cleanup step is reached exactly when every earlier step succeeded.
   */
  lemma ProcessSteps(payload: Payload, tools: Tools, show: real -> string)
    ensures var o := ProcessOutcome(payload, tools, show);
      && 1 <= |o.steps| <= 4
      && o.steps == AllSteps(payload.projectName)[..|o.steps|]
      && (Cleanup in o.steps <==> o.result.Ok?)
      && (o.result.Ok? ==> o.result.value == FinalPath(payload.projectName))
    ensures var o := ProcessOutcome(payload, tools, show);
      var p := Prepared(payload.mediaFiles, tools);
      && (o.result.Ok? <==> p.Ok? && StitchVideos(p.value, StitchedPath(payload.projectName), tools).Ok?
                            && OverlayResult(StitchedPath(payload.projectName), FinalPath(payload.projectName),
                                             payload.textElements, tools, show).Ok?)
      && (|o.steps| == 1 <==> p.Err?)
      && (p.Err? ==> o.result == Err(p.message))
  {
    var o := ProcessOutcome(payload, tools, show);
    var all := AllSteps(payload.projectName);
    assert all[..4] == all;
    assert all[..1] == [all[0]];
    assert all[..2] == [all[0], all[1]];
    assert all[..3] == [all[0], all[1], all[2]];
  }

  /**
   * `processVideo` with the overlay as the code is written (`OverlayAsWritten`): `None` is a run
   * that never settles.
   */
  function ProcessAsWritten(payload: Payload, tools: Tools, show: real -> string): Option<Outcome> {
    match Prepared(payload.mediaFiles, tools)
    case Err(e) => Some(Outcome(Err(e), [Prepare]))
    case Ok(trimmed) =>
      var stitched := StitchedPath(payload.projectName);
      var final := FinalPath(payload.projectName);
      match StitchVideos(trimmed, stitched, tools)
      case Err(e) => Some(Outcome(Err(e), [Prepare, Stitch(stitched)]))
      case Ok(_) =>
        match OverlayAsWritten(stitched, final, payload.textElements, tools, show)
        case None => None
        case Some(Err(e)) => Some(Outcome(Err(e), [Prepare, Stitch(stitched), Overlay(stitched, final)]))
        case Some(Ok(_)) => Some(Outcome(Ok(final), AllSteps(payload.projectName)))
  }

  /**
   * The run as written never settles exactly when preparing and stitching succeed, there are no
   * text items and the copy to the final path fails; in every other case it ends as
   * `ProcessOutcome` says.
   */
  lemma ProcessAsWrittenPending(payload: Payload, tools: Tools, show: real -> string)
    ensures var p := Prepared(payload.mediaFiles, tools);
      ProcessAsWritten(payload, tools, show).None? <==>
        && p.Ok? && StitchVideos(p.value, StitchedPath(payload.projectName), tools).Ok?
        && |payload.textElements| == 0 && !tools.copy(StitchedPath(payload.projectName), FinalPath(payload.projectName))
    ensures ProcessAsWritten(payload, tools, show).Some? ==>
      ProcessAsWritten(payload, tools, show).value == ProcessOutcome(payload, tools, show)
  {
    OverlayCopyFailureHangs(StitchedPath(payload.projectName), FinalPath(payload.projectName), payload.textElements, tools, show);
  }

  /** The `try` block of `processVideo` up to the cleanup: prepare, stitch, overlay. */
  method RenderSteps(payload: Payload, tools: Tools, show: real -> string)
    returns (r: Result<string>, steps: seq<Step>)
    ensures Outcome(r, steps) == ProcessOutcome(payload, tools, show)
  {
    var prepared := PrepareVideosForStitching(payload.mediaFiles, tools);
    if prepared.Err? {
      return Err(prepared.message), [Prepare];
    }
    r, steps := StitchAndOverlay(prepared.value, payload, tools, show);
  }

  method StitchAndOverlay(trimmed: seq<TrimmedVideo>, payload: Payload, tools: Tools, show: real -> string)
    returns (r: Result<string>, steps: seq<Step>)
    ensures Outcome(r, steps) == AfterPrepare(trimmed, payload, tools, show)
  {
    var stitchedPath := StitchedPath(payload.projectName);
    var stitched := StitchVideos(trimmed, stitchedPath, tools);
    if stitched.Err? {
      return Err(stitched.message), [Prepare, Stitch(stitchedPath)];
    }
    r, steps := OverlayStage(payload, tools, show);
  }

  method OverlayStage(payload: Payload, tools: Tools, show: real -> string)
    returns (r: Result<string>, steps: seq<Step>)
    ensures Outcome(r, steps) == AfterStitch(payload, tools, show)
  {
    var stitchedPath := StitchedPath(payload.projectName);
    var finalOutputPath := FinalPath(payload.projectName);
    var overlaid := AddTextOverlay(stitchedPath, finalOutputPath, payload.textElements, tools, show);
    if overlaid.Err? {
      return Err(overlaid.message), [Prepare, Stitch(stitchedPath), Overlay(stitchedPath, finalOutputPath)];
    }
    return Ok(finalOutputPath), AllSteps(payload.projectName);
  }

  /**
   * `processVideo`: prepare, stitch into `./temp/stitched_<name>.mp4`, overlay into
   * `./output/final_<name>.mp4`, then clean the temporary directory — only after a success;
   * a failure is re-thrown with the temporary files left in place.
   */
  method ProcessVideo(payload: Payload, tools: Tools, show: real -> string, temp: TempDirectory,
                      readable: bool, unlink: string -> bool)
    returns (r: Result<string>, steps: seq<Step>)
    modifies temp
    ensures Outcome(r, steps) == ProcessOutcome(payload, tools, show)
    ensures temp.files == if r.Ok? && readable then old(temp.files)[UnlinkedCount(old(temp.files), unlink)..] else old(temp.files)
  {
    r, steps := RenderSteps(payload, tools, show);
    if r.Ok? {
      temp.Cleanup(readable, unlink);
    }
  }
}
