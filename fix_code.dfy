/**
 * The Manim overlap fixer: a pass over the lines of generated scene code that keeps a stack of
 * the names of the objects created since the last scene header. With more than one object on the
 * stack it redirects the first `.move_to(ORIGIN)` of a line to the top edge, and before a
 * `self.wait(` line it inserts two lines that group the objects and play the group.
 */
module FixCode {
  import opened Wrappers
  import opened Text

  const MoveToOrigin := ".move_to(ORIGIN)"
  const ToEdgeUp := ".to_edge(UP)  # auto-fixed"
  const WaitCall := "self.wait("
  const PlayLine := "        self.play(Write(group))  # auto-arranged group"

  /** The constructors whose assignment records an object. */
  const ObjectKinds: seq<string> := ["Text", "Rectangle", "Circle", "Square", "Dot", "Arrow", "Line", "Triangle", "Axes"]

  /** The line inserted to group the objects on the stack. */
  function ArrangeLine(stack: seq<string>): string {
    "        group = VGroup(" + Join(stack, ", ") + ").arrange(DOWN, buff=0.5)"
  }

  /** `class (\w+)\(Scene\):` matches at `i`: the word after `class ` is followed directly by `(Scene):`. */
  predicate SceneMatchAt(line: string, i: nat) {
    OccursAt(line, "class ", i)
    && var e := WordRunEnd(line, i + 6);
    e > i + 6 && OccursAt(line, "(Scene):", e)
  }

  /** A scene header starts at or after `i`. */
  predicate SceneHeaderFrom(line: string, i: nat)
    decreases |line| + 1 - i
  {
    i <= |line| && (SceneMatchAt(line, i) || SceneHeaderFrom(line, i + 1))
  }

  /** The line holds a scene header anywhere. */
  predicate HasSceneHeader(line: string) {
    SceneHeaderFrom(line, 0)
  }

  lemma {:induction false} SceneHeaderFromSpec(line: string, i: nat)
    decreases |line| + 1 - i
    ensures SceneHeaderFrom(line, i) <==> exists j: nat :: i <= j <= |line| && SceneMatchAt(line, j)
  {
    if i <= |line| {
      SceneHeaderFromSpec(line, i + 1);
    }
  }

  /** `.*\)` matches from `k`: a `)` comes before any line terminator. */
  predicate CloseParenFrom(line: string, k: nat)
    decreases |line| - k
  {
    k < |line| && (line[k] == ')' || (!IsLineTerminator(line[k]) && CloseParenFrom(line, k + 1)))
  }

  lemma {:induction false} CloseParenFromSpec(line: string, k: nat)
    decreases |line| - k
    ensures CloseParenFrom(line, k) <==>
      exists q: nat :: k <= q < |line| && line[q] == ')' && forall j: nat :: k <= j < q ==> !IsLineTerminator(line[j])
  {
    if k < |line| && line[k] != ')' {
      CloseParenFromSpec(line, k + 1);
      if !IsLineTerminator(line[k]) && CloseParenFrom(line, k + 1) {
        var q: nat :| k + 1 <= q < |line| && line[q] == ')' && forall j: nat :: k + 1 <= j < q ==> !IsLineTerminator(line[j]);
        assert forall j: nat :: k <= j < q ==> !IsLineTerminator(line[j]);
      }
    }
  }

  /** One of the constructors from the `k`-th on, followed by `(` and a closing `)`, starts at `g`. */
  predicate ConstructorCallFrom(line: string, g: nat, k: nat)
    decreases |ObjectKinds| - k
  {
    k < |ObjectKinds|
    && ((OccursAt(line, ObjectKinds[k] + "(", g) && CloseParenFrom(line, g + |ObjectKinds[k]| + 1))
        || ConstructorCallFrom(line, g, k + 1))
  }

  /**
   * `(\w+)\s*=\s*(Text|Rectangle|...)\(.*\)` matches at `i`: a word, optional white space, `=`,
   * optional white space, one of the constructors, `(`, and a later `)` on the same line. Each
   * `\w+` and `\s*` takes its whole run, since the character after it could not match otherwise.
   */
  predicate ObjectMatchAt(line: string, i: nat) {
    i <= |line|
    && var e := WordRunEnd(line, i);
    e > i
    && var f := SpaceRunEnd(line, e);
    f < |line| && line[f] == '='
    && ConstructorCallFrom(line, SpaceRunEnd(line, f + 1), 0)
  }

  /** The leftmost match at or after `i`. */
  function FirstObjectMatchFrom(line: string, i: nat): (r: Option<nat>)
    decreases |line| + 1 - i
    ensures r.Some? ==> i <= r.value <= |line|
  {
    if i > |line| then None
    else if ObjectMatchAt(line, i) then Some(i)
    else FirstObjectMatchFrom(line, i + 1)
  }

  /** The scan finds the leftmost match, and none only when there is none. */
  lemma FirstObjectMatchSpec(line: string, i: nat)
    ensures var r := FirstObjectMatchFrom(line, i);
      && (r.Some? ==> i <= r.value <= |line| && ObjectMatchAt(line, r.value))
      && (r.Some? ==> forall j: nat :: i <= j < r.value ==> !ObjectMatchAt(line, j))
      && (r.None? ==> forall j: nat :: i <= j <= |line| ==> !ObjectMatchAt(line, j))
  {
    FirstObjectMatchFound(line, i);
    FirstObjectMatchLeftmost(line, i);
    FirstObjectMatchNone(line, i);
  }

  lemma {:induction false} FirstObjectMatchFound(line: string, i: nat)
    decreases |line| + 1 - i
    ensures var r := FirstObjectMatchFrom(line, i); r.Some? ==> ObjectMatchAt(line, r.value)
  {
    if i <= |line| && !ObjectMatchAt(line, i) {
      FirstObjectMatchFound(line, i + 1);
    }
  }

  lemma {:induction false} FirstObjectMatchLeftmost(line: string, i: nat)
    decreases |line| + 1 - i
    ensures var r := FirstObjectMatchFrom(line, i); r.Some? ==> forall j: nat :: i <= j < r.value ==> !ObjectMatchAt(line, j)
  {
    if i <= |line| && !ObjectMatchAt(line, i) {
      FirstObjectMatchLeftmost(line, i + 1);
    }
  }

  lemma {:induction false} FirstObjectMatchNone(line: string, i: nat)
    decreases |line| + 1 - i
    ensures FirstObjectMatchFrom(line, i).None? ==> forall j: nat :: i <= j <= |line| ==> !ObjectMatchAt(line, j)
  {
    if i <= |line| && !ObjectMatchAt(line, i) {
      FirstObjectMatchNone(line, i + 1);
    }
  }

  /** The captured variable name of the line's first object assignment, if any. */
  function ObjectName(line: string): Option<string> {
    match FirstObjectMatchFrom(line, 0)
    case None => None
    case Some(i) => Some(line[i..WordRunEnd(line, i)])
  }

  /**
   * A name is captured exactly when the pattern matches somewhere; it is the non-empty word
   * starting at the leftmost match.
   */
  lemma ObjectNameSpec(line: string)
    ensures var r := ObjectName(line);
      && (r.Some? <==> exists i: nat | i <= |line| :: ObjectMatchAt(line, i))
      && (r.Some? ==> |r.value| > 0 && AllWordChars(r.value))
      && (r.Some? ==> exists i: nat | i <= |line| :: ObjectMatchAt(line, i) && r.value == line[i..WordRunEnd(line, i)]
                        && forall j: nat :: j < i ==> !ObjectMatchAt(line, j))
  {
    FirstObjectMatchSpec(line, 0);
  }

  /** What the patterns say about one line, computed once per line. */
  datatype LineFacts = LineFacts(
    sceneHeader: bool,             // `class (\w+)\(Scene\):` matches
    objectName: Option<string>,    // the name captured by the object-assignment pattern
    hasMove: bool,                 // the line includes `.move_to(ORIGIN)`
    redirected: string,            // the line with its first `.move_to(ORIGIN)` replaced
    waits: bool,                   // the trimmed line starts with `self.wait(`
    redirectedWaits: bool)         // the trimmed redirected line starts with `self.wait(`

  function Analyze(line: string): LineFacts {
    var redirected := ReplaceFirst(line, MoveToOrigin, ToEdgeUp);
    LineFacts(HasSceneHeader(line), ObjectName(line), Contains(line, MoveToOrigin), redirected,
              StartsWith(Trim(line), WaitCall), StartsWith(Trim(redirected), WaitCall))
  }

  /** The analyses of the lines, in order. */
  function Analyses(lines: seq<string>): (r: seq<LineFacts>)
    ensures |r| == |lines|
  {
    seq(|lines|, j requires 0 <= j < |lines| => Analyze(lines[j]))
  }

  /** `facts` holds the analysis of each line. */
  ghost predicate AnalysedAs(lines: seq<string>, facts: seq<LineFacts>) {
    |facts| == |lines| && forall j {:trigger Analyze(lines[j])} | 0 <= j < |lines| :: Analyze(lines[j]) == facts[j]
  }

  /** The stack after a line: reset by a scene header, then the line's object name pushed. */
  function StackStep(stack: seq<string>, f: LineFacts): seq<string> {
    var reset := if f.sceneHeader then [] else stack;
    match f.objectName
    case None => reset
    case Some(name) => reset + [name]
  }

  /** The stack after the first `k` lines. */
  function StackAt(facts: seq<LineFacts>, k: nat): seq<string>
    requires k <= |facts|
  {
    if k == 0 then [] else StackStep(StackAt(facts, k - 1), facts[k - 1])
  }

  /** The line as edited, given the stack after it: the move is redirected with more than one object. */
  function EditLine(stack: seq<string>, line: string, f: LineFacts): string {
    if f.hasMove && |stack| > 1 then f.redirected else line
  }

  /** The group lines go before the line when the edited line, trimmed, starts with `self.wait(` and the stack holds more than one name. */
  predicate InsertsGroup(stack: seq<string>, f: LineFacts) {
    |stack| > 1 && if f.hasMove then f.redirectedWaits else f.waits
  }

  /** The output lines for one input line. */
  function Emit(stack: seq<string>, line: string, f: LineFacts): seq<string> {
    var edited := EditLine(stack, line, f);
    if InsertsGroup(stack, f) then [ArrangeLine(stack), PlayLine, edited] else [edited]
  }

  /** The output lines for the first `k` input lines. */
  function OutputAt(lines: seq<string>, facts: seq<LineFacts>, k: nat): seq<string>
    requires |facts| == |lines| && k <= |lines|
  {
    if k == 0 then [] else OutputAt(lines, facts, k - 1) + Emit(StackAt(facts, k), lines[k - 1], facts[k - 1])
  }

  /** The rewritten lines of `code`. */
  function FixedLines(code: string): seq<string> {
    var lines := Split(code, '\n');
    OutputAt(lines, Analyses(lines), |lines|)
  }

  /** `splice(last, 0, a, b)` on a list whose last element is `x`: the two go just before it. */
  lemma SpliceBeforeLast<T>(s: seq<T>, x: T, a: T, b: T)
    ensures (s + [x])[..|s|] + [a, b] + (s + [x])[|s|..] == s + [a, b, x]
  {
    assert (s + [x])[..|s|] == s;
    assert (s + [x])[|s|..] == [x];
  }

  /**
   * The first part of the loop body: a scene header resets the stack, an object assignment
   * pushes its name, and with more than one name the move is redirected; `inserts` tells
   * whether the group lines go before the edited line.
   */
  method RewriteLine(objectStack: seq<string>, lines: seq<string>, i: nat, ghost facts: seq<LineFacts>) returns (stack: seq<string>, edited: string, inserts: bool)
    requires AnalysedAs(lines, facts) && i < |lines|
    ensures stack == StackStep(objectStack, facts[i])
    ensures edited == EditLine(stack, lines[i], facts[i])
    ensures inserts == InsertsGroup(stack, facts[i])
  {
    assert Analyze(lines[i]) == facts[i];
    var line := lines[i];
    stack := objectStack;
    if HasSceneHeader(line) {
      stack := [];
    }
    var name := ObjectName(line);
    if name.Some? {
      stack := stack + [name.value];
    }
    edited := line;
    if Contains(line, MoveToOrigin) && |stack| > 1 {
      edited := ReplaceFirst(line, MoveToOrigin, ToEdgeUp);
    }
    inserts := StartsWith(Trim(edited), WaitCall) && |stack| > 1;
  }

  /**
   * The second part of the loop body: the edited line is pushed, and when the group lines are
   * inserted they are spliced in just before it.
   */
  method PushLine(modifiedLines: seq<string>, objectStack: seq<string>, line: string, inserts: bool) returns (m: seq<string>)
    ensures m == modifiedLines + if inserts then [ArrangeLine(objectStack), PlayLine, line] else [line]
  {
    m := modifiedLines + [line];
    if inserts {
      var last := |m| - 1;
      m := m[..last] + [ArrangeLine(objectStack), PlayLine] + m[last..];
      SpliceBeforeLast(modifiedLines, line, ArrangeLine(objectStack), PlayLine);
    }
  }

  /** `fixOverlapsInManimCode`: the rewritten lines joined with newlines. */
  method FixOverlapsInManimCode(code: string) returns (r: string)
    ensures r == Join(FixedLines(code), "\n")
  {
    var lines := Split(code, '\n');
    ghost var facts := Analyses(lines);
    assert AnalysedAs(lines, facts);
    var modifiedLines := FixLines(lines, facts);
    r := Join(modifiedLines, "\n");
  }

  /** The loop of `fixOverlapsInManimCode` over the lines of the code, the analysis of each line being in `facts`. */
  method FixLines(lines: seq<string>, ghost facts: seq<LineFacts>) returns (modifiedLines: seq<string>)
    requires AnalysedAs(lines, facts)
    ensures modifiedLines == OutputAt(lines, facts, |lines|)
  {
    modifiedLines := [];
    var objectStack: seq<string> := [];
    for i := 0 to |lines|
      invariant objectStack == StackAt(facts, i)
      invariant modifiedLines == OutputAt(lines, facts, i)
    {
      var line, inserts;
      objectStack, line, inserts := RewriteLine(objectStack, lines, i, facts);
      modifiedLines := PushLine(modifiedLines, objectStack, line, inserts);
    }
  }

  /** The number of input lines among the first `k` before which the group lines are inserted. */
  function InsertionsAt(facts: seq<LineFacts>, k: nat): nat
    requires k <= |facts|
  {
    if k == 0 then 0 else InsertionsAt(facts, k - 1) + if InsertsGroup(StackAt(facts, k), facts[k - 1]) then 1 else 0
  }

  /** Each insertion adds two lines: the output has the input's lines plus two per insertion. */
  lemma {:induction false} OutputLength(lines: seq<string>, facts: seq<LineFacts>, k: nat)
    requires |facts| == |lines| && k <= |lines|
    ensures |OutputAt(lines, facts, k)| == k + 2 * InsertionsAt(facts, k)
  {
    if k > 0 {
      OutputLength(lines, facts, k - 1);
    }
  }

  /** The output for the first `m` lines is a prefix of the output for the first `n`. */
  lemma {:induction false} OutputPrefix(lines: seq<string>, facts: seq<LineFacts>, m: nat, n: nat)
    requires |facts| == |lines| && m <= n <= |lines|
    ensures |OutputAt(lines, facts, m)| <= |OutputAt(lines, facts, n)|
    ensures OutputAt(lines, facts, n)[..|OutputAt(lines, facts, m)|] == OutputAt(lines, facts, m)
    decreases n
  {
    if m < n {
      OutputPrefix(lines, facts, m, n - 1);
      var a := OutputAt(lines, facts, n - 1);
      PrefixOfAppend(a, Emit(StackAt(facts, n), lines[n - 1], facts[n - 1]), |OutputAt(lines, facts, m)|);
    }
  }

  lemma PrefixOfAppend<T>(a: seq<T>, b: seq<T>, k: nat)
    requires k <= |a|
    ensures (a + b)[..k] == a[..k]
  {
    assert forall i :: 0 <= i < k ==> (a + b)[..k][i] == a[..k][i];
  }

  /**
   * Every input line appears once, in order, possibly edited: input line `k` (0-based) is at
   * output index `k + 2 * insertions up to and including it`, and when an insertion fires for
   * it the group line and the play line are immediately before it.
   */
  lemma OutputLineAt(lines: seq<string>, facts: seq<LineFacts>, n: nat, k: nat)
    requires |facts| == |lines| && k < n <= |lines|
    ensures var out := OutputAt(lines, facts, n);
      var stack := StackAt(facts, k + 1);
      var p := k + 2 * InsertionsAt(facts, k + 1);
      && p < |out| && out[p] == EditLine(stack, lines[k], facts[k])
      && (InsertsGroup(stack, facts[k]) ==> out[p - 2] == ArrangeLine(stack) && out[p - 1] == PlayLine)
  {
    var upTo := OutputAt(lines, facts, k + 1);
    OutputLineEmitted(lines, facts, k);
    OutputPrefix(lines, facts, k + 1, n);
    var out := OutputAt(lines, facts, n);
    var p := k + 2 * InsertionsAt(facts, k + 1);
    assert out[..|upTo|] == upTo;
    assert out[p] == upTo[p];
    assert p >= 2 ==> out[p - 2] == upTo[p - 2] && out[p - 1] == upTo[p - 1];
  }

  /** `OutputLineAt` for the output of the first `k + 1` lines, whose last lines `k` emitted. */
  lemma OutputLineEmitted(lines: seq<string>, facts: seq<LineFacts>, k: nat)
    requires |facts| == |lines| && k < |lines|
    ensures var out := OutputAt(lines, facts, k + 1);
      var stack := StackAt(facts, k + 1);
      var p := k + 2 * InsertionsAt(facts, k + 1);
      && p < |out| && out[p] == EditLine(stack, lines[k], facts[k])
      && (InsertsGroup(stack, facts[k]) ==> p >= 2 && out[p - 2] == ArrangeLine(stack) && out[p - 1] == PlayLine)
  {
    OutputLength(lines, facts, k);
  }

  /** Without object assignments the stack stays empty and every line is copied as it is. */
  lemma {:induction false} EmptyStack(lines: seq<string>, facts: seq<LineFacts>, k: nat)
    requires |facts| == |lines| && k <= |lines|
    requires forall j :: 0 <= j < |facts| ==> facts[j].objectName.None?
    ensures StackAt(facts, k) == []
    ensures OutputAt(lines, facts, k) == lines[..k]
  {
    if k > 0 {
      EmptyStack(lines, facts, k - 1);
      assert lines[..k] == lines[..k - 1] + [lines[k - 1]];
    }
  }

  /** Code without object assignments passes through unchanged. */
  lemma PassThrough(code: string)
    requires forall j :: 0 <= j < |Split(code, '\n')| ==> ObjectName(Split(code, '\n')[j]).None?
    ensures Join(FixedLines(code), "\n") == code
  {
    var lines := Split(code, '\n');
    var facts := Analyses(lines);
    forall j | 0 <= j < |facts| ensures facts[j].objectName.None? {
      assert facts[j] == Analyze(lines[j]);
    }
    EmptyStack(lines, facts, |lines|);
    assert lines[..|lines|] == lines;
    JoinSplit(code, '\n');
  }

  /** A line that matches no pattern is copied as it is, and the stack is not changed by it. */
  lemma PlainLine(stack: seq<string>, line: string)
    requires !HasSceneHeader(line) && ObjectName(line).None?
    requires !Contains(line, MoveToOrigin) && !StartsWith(Trim(line), WaitCall)
    ensures StackStep(stack, Analyze(line)) == stack
    ensures Emit(StackStep(stack, Analyze(line)), line, Analyze(line)) == [line]
  {}

  /** The names pushed by a run of lines, in order. */
  function NamesOf(facts: seq<LineFacts>): seq<string> {
    if |facts| == 0 then []
    else
      var front := NamesOf(facts[..|facts| - 1]);
      match facts[|facts| - 1].objectName
      case None => front
      case Some(name) => front + [name]
  }

  /**
   * A scene header resets the stack: after the header at line `h`, with no header after it, the
   * stack holds exactly the names assigned from the header on, in order.
   */
  lemma {:induction false} StackSinceHeader(facts: seq<LineFacts>, h: nat, k: nat)
    requires h < k <= |facts|
    requires facts[h].sceneHeader
    requires forall j :: h < j < k ==> !facts[j].sceneHeader
    ensures StackAt(facts, k) == NamesOf(facts[h..k])
  {
    if k == h + 1 {
      assert facts[h..k][..0] == [];
    } else {
      StackSinceHeader(facts, h, k - 1);
      assert facts[h..k][..k - 1 - h] == facts[h..k - 1];
    }
  }

  /** Before any scene header the stack holds the names assigned so far. */
  lemma {:induction false} StackWithoutHeader(facts: seq<LineFacts>, k: nat)
    requires k <= |facts|
    requires forall j :: 0 <= j < k ==> !facts[j].sceneHeader
    ensures StackAt(facts, k) == NamesOf(facts[..k])
  {
    if k > 0 {
      StackWithoutHeader(facts, k - 1);
      assert facts[..k][..k - 1] == facts[..k - 1];
    }
  }

  /** The move is redirected only with more than one object on the stack, and then its first occurrence is replaced. */
  lemma EditLineSpec(stack: seq<string>, line: string)
    ensures |stack| <= 1 ==> EditLine(stack, line, Analyze(line)) == line
    ensures !Contains(line, MoveToOrigin) ==> EditLine(stack, line, Analyze(line)) == line
    ensures Contains(line, MoveToOrigin) && |stack| > 1 ==>
      var i := IndexOf(line, MoveToOrigin).value;
      && OccursAt(line, MoveToOrigin, i)
      && (forall j: nat :: j < i ==> !OccursAt(line, MoveToOrigin, j))
      && EditLine(stack, line, Analyze(line)) == line[..i] + ToEdgeUp + line[i + |MoveToOrigin|..]
  {}
}
