/**
 * The scene-creation endpoint (`createScenes`): a request without a prompt is refused with 400;
 * otherwise the language model is asked for a Manim script, the script is cut out of the
 * Markdown code fence the model tends to wrap it in, and it is handed to the render service.
 */
module AnimationController {
  import opened Wrappers
  import opened Text
  import opened ManimEngine

  const PromptRequiredMessage := "Prompt is required"
  const InternalErrorMessage := "Internal server error"
  const RenderedMessage := "Rendered"

  /** The JSON bodies the endpoint sends. */
  datatype Body = ErrorBody(error: string) | RenderedBody(message: string, output: string)

  datatype Reply = Reply(status: int, body: Body)

  /** The two chat messages sent to the model: the fixed system message, and the user's request. */
  datatype ChatMessage = SystemMessage | UserMessage(prompt: string)

  /** The user message's text before and after the quoted prompt. */
  function RequestHead(): string { "Generate Manim code for the following prompt: " }

  function RequestTail(): string {
    ". Output a full class-based Manim script for a simple animation without any comments."
  }

  /** The text of a chat message. */
  function MessageText(m: ChatMessage): string {
    match m
    case SystemMessage => "You are a helpful assistant that generates modular Manim code scenes."
    case UserMessage(prompt) => RequestHead() + "\"" + prompt + "\"" + RequestTail()
  }

  /** The user message quotes the prompt verbatim, after the 46 characters of its head. */
  lemma UserMessageQuotesPrompt(prompt: string)
    ensures OccursAt(MessageText(UserMessage(prompt)), "\"" + prompt + "\"", 46)
  {
    var quoted := "\"" + prompt + "\"";
    var t := MessageText(UserMessage(prompt));
    assert t == RequestHead() + quoted + RequestTail();
    assert |RequestHead()| == 46;
    assert t[46..46 + |quoted|] == quoted;
  }

  /** A Markdown code fence. */
  const Fence := "```"

  // ---------------------------------------------------------------------------------------
  // Leading fence: `/^\s*```(?:python)?\s*/`

  /**
   * The end of the match of the leading-fence pattern, which is anchored at the start: white
   * space, the fence, `python` when it follows, then white space. As `\s` cannot match a
   * backtick, the leading white space is the longest run.
   */
  function LeadingFenceEnd(s: string): (r: Option<nat>)
    ensures r.Some? ==> |Fence| <= r.value <= |s|
    ensures r.Some? && r.value < |s| ==> !IsSpace(s[r.value])
  {
    var a := SpaceRunEnd(s, 0);
    if !OccursAt(s, Fence, a) then None
    else
      var b := if OccursAt(s, "python", a + |Fence|) then a + |Fence| + 6 else a + |Fence|;
      Some(SpaceRunEnd(s, b))
  }

  /** The first `replace`: the leading fence, when there is one, is removed once. */
  function StripLeadingFence(s: string): (r: string)
    ensures |r| <= |s| && r == s[|s| - |r|..]
  {
    match LeadingFenceEnd(s)
    case None => s
    case Some(e) => s[e..]
  }

  // ---------------------------------------------------------------------------------------
  // Trailing fence: `/\s*```[\s\r\n]*$/`

  /**
   * The trailing-fence pattern matches at `i`: the longest white-space run from `i` is followed
   * by the fence, and nothing but white space follows the fence up to the end of the text.
   */
  predicate TrailingFenceAt(s: string, i: nat)
    requires i <= |s|
  {
    var j := SpaceRunEnd(s, i);
    OccursAt(s, Fence, j) && AllSpace(s[j + |Fence|..])
  }

  /** The leftmost position at or after `k` where the trailing-fence pattern matches. */
  function TrailingFenceFrom(s: string, k: nat): (r: Option<nat>)
    requires k <= |s|
    decreases |s| - k
    ensures r.Some? ==> k <= r.value <= |s| && TrailingFenceAt(s, r.value)
    ensures r.Some? ==> forall q :: k <= q < r.value ==> !TrailingFenceAt(s, q)
  {
    if TrailingFenceAt(s, k) then Some(k)
    else if k == |s| then None
    else TrailingFenceFrom(s, k + 1)
  }

  lemma {:induction false} TrailingFenceFromAt(s: string, k: nat, i: nat)
    requires k <= i <= |s| && TrailingFenceAt(s, i)
    requires forall q :: k <= q < i ==> !TrailingFenceAt(s, q)
    decreases i - k
    ensures TrailingFenceFrom(s, k) == Some(i)
  {
    if k < i {
      TrailingFenceFromAt(s, k + 1, i);
    }
  }

  /** The second `replace`: the text from the leftmost match of the trailing fence on is removed. */
  function StripTrailingFence(s: string): (r: string)
    ensures |r| <= |s| && r == s[..|r|]
  {
    match TrailingFenceFrom(s, 0)
    case None => s
    case Some(i) => s[..i]
  }

  /** The script taken from the model's reply: both fences removed, then trimmed. */
  function StripFences(raw: string): (r: string)
    ensures IsTrimmed(r)
  {
    Trim(StripTrailingFence(StripLeadingFence(raw)))
  }

  /** A reply without any fence is only trimmed. */
  lemma FenceFreeOnlyTrimmed(raw: string)
    requires !Contains(raw, Fence)
    ensures StripFences(raw) == Trim(raw)
  {
    assert !OccursAt(raw, Fence, SpaceRunEnd(raw, 0));
    match LeadingFenceEnd(raw)
    case Some(e) =>
    case None =>
    match TrailingFenceFrom(raw, 0)
    case Some(i) =>
    case None =>
  }

  /** A block fenced as Markdown, with optional white space around it. */
  function FencedBlock(before: string, lang: string, code: string, after: string): string {
    before + Fence + lang + "\n" + Closing(code, after)
  }

  /** The code, a line break, the closing fence and what follows it. */
  function Closing(code: string, after: string): string { code + "\n" + Fence + after }

  lemma LeadingFenceOfBlock(before: string, lang: string, code: string, after: string)
    requires AllSpace(before) && (lang == "" || lang == "python")
    requires |code| > 0 && !IsSpace(code[0])
    ensures StripLeadingFence(FencedBlock(before, lang, code, after)) == Closing(code, after)
  {
    var s := FencedBlock(before, lang, code, after);
    var tail := Closing(code, after);
    var n := |before|;
    BlockPieces(before, lang, tail);
    FenceAfterSpaces(s, n);
    TagThenBreak(s, n + |Fence|, lang, tail);
    var e := n + |Fence| + |lang| + 1;
    LeadingFenceEndAt(s, n, e);
  }

  lemma BlockPieces(before: string, lang: string, tail: string)
    ensures var s := before + Fence + lang + "\n" + tail; var n := |before|;
      s[..n] == before && s[n..n + |Fence|] == Fence && s[n + |Fence|..] == lang + "\n" + tail
  {
    var s := before + Fence + lang + "\n" + tail;
    assert s == before + (Fence + (lang + "\n" + tail));
  }

  lemma LeadingFenceEndAt(s: string, n: nat, e: nat)
    requires SpaceRunEnd(s, 0) == n && OccursAt(s, Fence, n)
    requires SpaceRunEnd(s, if OccursAt(s, "python", n + |Fence|) then n + |Fence| + 6 else n + |Fence|) == e
    ensures StripLeadingFence(s) == s[e..]
  {}

  /** White space, then a fence: the white space is the longest run from the start. */
  lemma FenceAfterSpaces(s: string, n: nat)
    requires n + |Fence| <= |s| && AllSpace(s[..n]) && s[n..n + |Fence|] == Fence
    ensures SpaceRunEnd(s, 0) == n && OccursAt(s, Fence, n)
  {
    assert s[n] == s[n..n + |Fence|][0];
    SpaceRunEndAt(s, 0, n);
  }

  /** The optional `python` tag, then a line break before a non-space: the match ends after the break. */
  lemma TagThenBreak(s: string, k: nat, lang: string, tail: string)
    requires k <= |s| && s[k..] == lang + "\n" + tail && (lang == "" || lang == "python")
    requires |tail| > 0 && !IsSpace(tail[0])
    ensures OccursAt(s, "python", k) <==> lang == "python"
    ensures SpaceRunEnd(s, k + |lang|) == k + |lang| + 1 && s[k + |lang| + 1..] == tail
  {
    var b := k + |lang|;
    if lang == "python" {
      assert s[k..k + 6] == s[k..][..6] == "python";
    } else {
      assert s[k] == s[k..][0] == '\n';
    }
    assert s[b] == '\n' && s[b + 1] == tail[0];
    assert s[b..b + 1] == "\n";
    SpaceRunEndAt(s, b, b + 1);
    assert s[b + 1..] == s[k..][|lang| + 1..];
  }

  /** No match of the trailing fence starts inside a fence-free code whose last character is not white space. */
  lemma NoTrailingFenceInCode(code: string, after: string, q: nat)
    requires q < |code| && !IsSpace(code[|code| - 1]) && !Contains(code, Fence)
    ensures !TrailingFenceAt(Closing(code, after), q)
  {
    var t := Closing(code, after);
    var j := SpaceRunEnd(t, q);
    assert t[|code| - 1] == code[|code| - 1];
    assert j < |code|;
    if j + |Fence| <= |code| {
      assert !OccursAt(code, Fence, j);
      assert t[j..j + |Fence|] == code[j..j + |Fence|];
    } else {
      assert t[|code|] == '\n';
      assert !OccursAt(t, Fence, j) by {
        if j + |Fence| <= |t| {
          assert t[j..j + |Fence|][|code| - j] == t[|code|];
        }
      }
    }
  }

  lemma TrailingFenceOfBlock(code: string, after: string)
    requires AllSpace(after)
    requires |code| > 0 && !IsSpace(code[|code| - 1]) && !Contains(code, Fence)
    ensures StripTrailingFence(Closing(code, after)) == code
  {
    var t := Closing(code, after);
    var n := |code|;
    assert t[n] == '\n' && t[n + 1] == '`';
    assert t[n..n + 1] == "\n";
    SpaceRunEndAt(t, n, n + 1);
    assert t[n + 1..n + 1 + |Fence|] == Fence;
    assert t[n + 1 + |Fence|..] == after;
    assert TrailingFenceAt(t, n);
    forall q | 0 <= q < n ensures !TrailingFenceAt(t, q) {
      NoTrailingFenceInCode(code, after, q);
    }
    TrailingFenceFromAt(t, 0, n);
    assert t[..n] == code;
  }

  /**
   * The fences round trip: a trimmed, fence-free script wrapped in a fence, with or without the
   * `python` tag and with white space around, comes back exactly.
   */
  lemma StripFencedBlock(before: string, lang: string, code: string, after: string)
    requires AllSpace(before) && AllSpace(after) && (lang == "" || lang == "python")
    requires |code| > 0 && IsTrimmed(code) && !Contains(code, Fence)
    ensures StripFences(FencedBlock(before, lang, code, after)) == code
  {
    LeadingFenceOfBlock(before, lang, code, after);
    TrailingFenceOfBlock(code, after);
  }

  // ---------------------------------------------------------------------------------------
  // The handler

  /**
   * `createScenes`. `prompt` is the request's prompt (`None` when missing), `complete` the
   * model's answer to the system and the user message (`Err` when the call throws, `Ok(None)` for
   * empty content), and `env` the render service's surroundings.
   */
  function CreateScenes(prompt: Option<string>, complete: (ChatMessage, ChatMessage) -> Result<Option<string>>,
                        env: ManimEnv): (r: Reply)
    ensures r.status == 400 <==> prompt.None? || prompt.value == ""
    ensures r.status == 400 ==> r.body == ErrorBody(PromptRequiredMessage)
    ensures r.status == 200 <==> (prompt.Some? && prompt.value != ""
      && complete(SystemMessage, UserMessage(prompt.value)).Ok?
      && RunManimCode(StripFences(complete(SystemMessage, UserMessage(prompt.value)).value.GetOr("")), env).Ok?)
    ensures r.status == 200 ==>
      r.body == RenderedBody(RenderedMessage,
        RunManimCode(StripFences(complete(SystemMessage, UserMessage(prompt.value)).value.GetOr("")), env).value)
    ensures r.status != 200 && r.status != 400 ==> r == Reply(500, ErrorBody(InternalErrorMessage))
  {
    if prompt.None? || prompt.value == "" then Reply(400, ErrorBody(PromptRequiredMessage))
    else
      match complete(SystemMessage, UserMessage(prompt.value))
      case Err(_) => Reply(500, ErrorBody(InternalErrorMessage))
      case Ok(content) =>
        var rawContent := content.GetOr("");
        var manimCode := StripFences(rawContent);
        match RunManimCode(manimCode, env)
        case Err(_) => Reply(500, ErrorBody(InternalErrorMessage))
        case Ok(renderResult) => Reply(200, RenderedBody(RenderedMessage, renderResult))
  }

  lemma {:induction false} ClassLinesNoBacktick(names: seq<string>)
    requires forall i :: 0 <= i < |names| ==> AllWordChars(names[i])
    decreases |names|
    ensures forall k :: 0 <= k < |ClassLines(names)| ==> ClassLines(names)[k] != '`'
  {
    if |names| > 1 {
      ClassLinesNoBacktick(names[1..]);
      var line := ClassLine(names[0]);
      var rest := ClassLines(names[1..]);
      forall k | 0 <= k < |ClassLines(names)| ensures ClassLines(names)[k] != '`' {
        if k >= |line| + 1 {
          assert ClassLines(names)[k] == rest[k - |line| - 1];
        }
      }
    }
  }

  /** A script of scene declarations is trimmed and holds no fence. */
  lemma ClassLinesClean(names: seq<string>)
    requires |names| > 0 && forall i :: 0 <= i < |names| ==> |names[i]| > 0 && AllWordChars(names[i])
    ensures |ClassLines(names)| > 0 && IsTrimmed(ClassLines(names)) && !Contains(ClassLines(names), Fence)
  {
    ClassLinesNoBacktick(names);
    var s := ClassLines(names);
    assert s[0] == 'c';
    ClassLinesLast(names);
    forall i: nat | i <= |s| ensures !OccursAt(s, Fence, i) {
      if i + |Fence| <= |s| {
        assert s[i..i + |Fence|][0] == s[i];
      }
    }
  }

  lemma {:induction false} ClassLinesLast(names: seq<string>)
    requires |names| > 0
    decreases |names|
    ensures |ClassLines(names)| > 0 && ClassLines(names)[|ClassLines(names)| - 1] == ':'
  {
    if |names| > 1 {
      ClassLinesLast(names[1..]);
    }
  }

  /**
   * End to end: when the model answers with a fenced script of scene declarations and the
   * render succeeds, the reply is 200 and lists exactly those scenes, in order.
   */
  lemma FencedScenesRendered(prompt: string, complete: (ChatMessage, ChatMessage) -> Result<Option<string>>,
                             env: ManimEnv, before: string, lang: string, names: seq<string>, after: string)
    requires prompt != ""
    requires AllSpace(before) && AllSpace(after) && (lang == "" || lang == "python")
    requires |names| > 0 && forall i :: 0 <= i < |names| ==> |names[i]| > 0 && AllWordChars(names[i])
    requires complete(SystemMessage, UserMessage(prompt)) == Ok(Some(FencedBlock(before, lang, ClassLines(names), after)))
    requires RunManimCode(ClassLines(names), env).Ok?
    ensures CreateScenes(Some(prompt), complete, env) == Reply(200, RenderedBody(RenderedMessage, SuccessMessage(env.id, names)))
  {
    ClassLinesClean(names);
    StripFencedBlock(before, lang, ClassLines(names), after);
    RenderedScenes(names, env);
  }
}
