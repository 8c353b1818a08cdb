/**
 * The Manim render service (`runManimCode`): it writes the generated script to
 * `<scripts>/temp/scene_<id>.py`, collects the names of the classes the script declares as
 * subclasses of `Scene`, runs `python3 <scripts>/render.py <script> <names...>` and turns the
 * process's exit code into a result.
 */
module ManimEngine {
  import opened Wrappers
  import opened Text

  /**
   * What the service needs from its surroundings: the `manim_scripts` directory, the fresh id,
   * and the outcomes of `fs.mkdir`, `fs.writeFile` and of the spawned process (its exit code,
   * `None` when it was ended by a signal).
   */
  datatype ManimEnv = ManimEnv(
    scriptsDir: string,
    id: string,
    mkdir: string -> bool,
    writeFile: (string, string) -> bool,
    exitCode: (string, seq<string>) -> Option<int>)

  const RenderFailedMessage := "Manim render failed"
  const FsErrorMessage := "file system error"

  /** The text the class pattern requires after the captured name. */
  const SceneBase := "(Scene):"

  function TempDir(scriptsDir: string): string { scriptsDir + "/temp" }

  function RenderScript(scriptsDir: string): string { scriptsDir + "/render.py" }

  function ScriptName(id: string): (r: string)
    ensures StartsWith(r, "scene_") && EndsWith(r, ".py")
  {
    "scene_" + id + ".py"
  }

  function ScriptPath(scriptsDir: string, id: string): string { TempDir(scriptsDir) + "/" + ScriptName(id) }

  /** Different ids give different scripts, so concurrent renders never share a file. */
  lemma ScriptPathInjective(scriptsDir: string, id1: string, id2: string)
    requires id1 != id2
    ensures ScriptPath(scriptsDir, id1) != ScriptPath(scriptsDir, id2)
  {
    var p := TempDir(scriptsDir) + "/scene_";
    var a := ScriptPath(scriptsDir, id1);
    var b := ScriptPath(scriptsDir, id2);
    if |id1| == |id2| {
      var k :| 0 <= k < |id1| && id1[k] != id2[k];
      assert a[|p| + k] == id1[k] && b[|p| + k] == id2[k];
    } else {
      assert |a| != |b|;
    }
  }

  // ---------------------------------------------------------------------------------------
  // Scene-class names: `code.matchAll(/class\s+(\w+)\(Scene\):/g)`, first capture of each match

  /**
   * A match of the class pattern: the captured name, where it starts, and how many characters
   * the match spans.
   */
  datatype SceneMatch = SceneMatch(name: string, start: nat, length: nat)

  /**
   * The pattern matches at the start of `s` with the name at `s[sp..w]`: `class`, at least one
   * `\s`, at least one `\w`, then `(Scene):`.
   */
  predicate MatchesAt(s: string, sp: nat, w: nat) {
    5 < sp < w <= |s| && StartsWith(s, "class") && AllSpace(s[5..sp]) && AllWordChars(s[sp..w])
    && OccursAt(s, SceneBase, w)
  }

  /**
   * The match of the pattern at the start of `s`, if any. `\s` and `\w` are disjoint and neither
   * contains `(`, so backtracking cannot help: the spaces and the name are the longest runs.
   */
  function MatchHere(s: string): (r: Option<SceneMatch>)
    ensures r.Some? ==> var m := r.value;
      MatchesAt(s, m.start, m.start + |m.name|) && m.name == s[m.start..m.start + |m.name|]
      && m.length == m.start + |m.name| + |SceneBase|
  {
    if !StartsWith(s, "class") then None
    else
      var sp := SpaceRunEnd(s, 5);
      var w := WordRunEnd(s, sp);
      if sp > 5 && w > sp && OccursAt(s, SceneBase, w) then Some(SceneMatch(s[sp..w], sp, w + |SceneBase|))
      else None
  }

  /** Any match of the pattern at the start of `s` is the one `MatchHere` finds: there is no other. */
  lemma MatchHereComplete(s: string, sp: nat, w: nat)
    requires MatchesAt(s, sp, w)
    ensures MatchHere(s) == Some(SceneMatch(s[sp..w], sp, w + |SceneBase|))
  {
    assert IsWordChar(s[sp]) by { assert s[sp] == s[sp..w][0]; }
    assert s[w] == '(';
    SpaceRunEndAt(s, 5, sp);
    WordRunEndAt(s, sp, w);
  }

  /**
   * The names of the scene classes of `code`, in order of appearance. Like a global regular
   * expression, the scan resumes after the end of each match, and after one character where
   * nothing matches.
   */
  function SceneClassNames(code: string): seq<string>
    decreases |code|
  {
    if |code| == 0 then []
    else
      match MatchHere(code)
      case Some(m) => [m.name] + SceneClassNames(code[m.length..])
      case None => SceneClassNames(code[1..])
  }

  lemma ContainsSuffix(s: string, k: nat, p: string)
    requires k <= |s| && Contains(s[k..], p)
    ensures Contains(s, p)
  {
    var i: nat :| i <= |s[k..]| && OccursAt(s[k..], p, i);
    assert s[k + i..k + i + |p|] == s[k..][i..i + |p|];
    assert OccursAt(s, p, k + i);
  }

  /** Every name found is a `\w+` run that the code declares as `class <name>(Scene):`. */
  lemma {:induction false} SceneClassNamesSound(code: string)
    ensures forall n :: n in SceneClassNames(code) ==>
      |n| > 0 && AllWordChars(n) && Contains(code, n + SceneBase)
    decreases |code|
  {
    if |code| > 0 {
      match MatchHere(code)
      case Some(m) =>
        SceneClassNamesSound(code[m.length..]);
        forall n | n in SceneClassNames(code[m.length..]) ensures Contains(code, n + SceneBase) {
          ContainsSuffix(code, m.length, n + SceneBase);
        }
        var i := m.start;
        var w := i + |m.name|;
        assert code[i..w + |SceneBase|] == code[i..w] + code[w..w + |SceneBase|];
        assert OccursAt(code, m.name + SceneBase, i);
      case None =>
        SceneClassNamesSound(code[1..]);
        forall n | n in SceneClassNames(code[1..]) ensures Contains(code, n + SceneBase) {
          ContainsSuffix(code, 1, n + SceneBase);
        }
    }
  }

  /** A declaration line `class <name>(Scene):`. */
  function ClassLine(name: string): string { "class " + name + SceneBase }

  /** The line of a declaration is matched whole, and gives back the name. */
  lemma MatchClassLine(name: string, rest: string)
    requires |name| > 0 && AllWordChars(name)
    ensures MatchHere(ClassLine(name) + rest) == Some(SceneMatch(name, 6, |ClassLine(name)|))
  {
    var s := ClassLine(name) + rest;
    var e := 6 + |name|;
    assert s[5..6] == " " && s[6..e] == name;
    assert s[e..e + |SceneBase|] == SceneBase;
    MatchHereComplete(s, 6, e);
  }

  /** A script made of one declaration line per name, separated by newlines. */
  function ClassLines(names: seq<string>): string
    decreases |names|
  {
    if |names| == 0 then "" else if |names| == 1 then ClassLine(names[0]) else ClassLine(names[0]) + "\n" + ClassLines(names[1..])
  }

  lemma SceneClassNamesMatch(s: string, m: SceneMatch)
    requires MatchHere(s) == Some(m)
    ensures SceneClassNames(s) == [m.name] + SceneClassNames(s[m.length..])
  {}

  lemma SceneClassNamesNewline(t: string)
    ensures SceneClassNames("\n" + t) == SceneClassNames(t)
  {
    assert ("\n" + t)[0] != "class"[0];
    assert ("\n" + t)[1..] == t;
  }

  /** The extraction gives back, in order, the names of a script of scene-class declarations. */
  lemma {:induction false} SceneClassNamesOfLines(names: seq<string>)
    requires forall i :: 0 <= i < |names| ==> |names[i]| > 0 && AllWordChars(names[i])
    ensures SceneClassNames(ClassLines(names)) == names
    decreases |names|
  {
    if |names| > 0 {
      var line := ClassLine(names[0]);
      var rest := if |names| == 1 then "" else "\n" + ClassLines(names[1..]);
      var s := ClassLines(names);
      assert s == line + rest;
      MatchClassLine(names[0], rest);
      SceneClassNamesMatch(s, SceneMatch(names[0], 6, |line|));
      assert s[|line|..] == rest;
      if |names| > 1 {
        SceneClassNamesNewline(ClassLines(names[1..]));
        SceneClassNamesOfLines(names[1..]);
        assert [names[0]] + names[1..] == names;
      }
    }
  }

  // ---------------------------------------------------------------------------------------
  // Running the render script

  /** The process arguments: the render script, the scene file, then every scene name. */
  function RenderArgs(scriptsDir: string, id: string, names: seq<string>): (r: seq<string>)
    ensures |r| == |names| + 2 && r[2..] == names
    ensures r[0] == RenderScript(scriptsDir) && r[1] == ScriptPath(scriptsDir, id)
  {
    [RenderScript(scriptsDir), ScriptPath(scriptsDir, id)] + names
  }

  function SuccessMessage(id: string, names: seq<string>): string {
    "Scene rendered successfully: " + ScriptName(id) + ". Rendered scenes: " + Join(names, ", ")
  }

  /**
   * `runManimCode`: a failing `mkdir` or `writeFile` rejects with its error; otherwise the
   * promise resolves exactly when `python3` exits with code 0, naming the scene file and the
   * scenes, and rejects with "Manim render failed" on any other exit.
   */
  function RunManimCode(code: string, env: ManimEnv): (r: Result<string>)
    ensures r.Ok? <==> (env.mkdir(TempDir(env.scriptsDir))
      && env.writeFile(ScriptPath(env.scriptsDir, env.id), code)
      && env.exitCode("python3", RenderArgs(env.scriptsDir, env.id, SceneClassNames(code))) == Some(0))
    ensures r.Ok? ==> r.value == SuccessMessage(env.id, SceneClassNames(code))
    ensures r.Err? && env.mkdir(TempDir(env.scriptsDir)) && env.writeFile(ScriptPath(env.scriptsDir, env.id), code)
      ==> r.message == RenderFailedMessage
  {
    var tempDir := TempDir(env.scriptsDir);
    var filepath := ScriptPath(env.scriptsDir, env.id);
    if !env.mkdir(tempDir) || !env.writeFile(filepath, code) then Err(FsErrorMessage)
    else
      var sceneClassNames := SceneClassNames(code);
      var args := RenderArgs(env.scriptsDir, env.id, sceneClassNames);
      if env.exitCode("python3", args) == Some(0) then Ok(SuccessMessage(env.id, sceneClassNames))
      else Err(RenderFailedMessage)
  }

  /** The success message lists the scenes of a script of declarations, in order. */
  lemma RenderedScenes(names: seq<string>, env: ManimEnv)
    requires forall i :: 0 <= i < |names| ==> |names[i]| > 0 && AllWordChars(names[i])
    requires RunManimCode(ClassLines(names), env).Ok?
    ensures RunManimCode(ClassLines(names), env).value == SuccessMessage(env.id, names)
  {
    SceneClassNamesOfLines(names);
  }
}
