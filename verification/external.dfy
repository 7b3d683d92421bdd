/**
 * The backend of `src/external.cpp` for projects built by scripts of their
 * own: one `build` edge runs each script listed for the host operating
 * system, passing the project's sources as `$args`, and a `phony` edge ties
 * the target name to the source directory.
 */
module External {
  import opened Wrappers
  import opened Strings
  import opened Statements
  import opened Bundles
  import opened Shinobi

  /** `args`: the sources one after the other, a space before each but the
    * first written; a space is added only once something has been written. */
  function ArgsOf(srcs: seq<string>): (r: string)
    ensures srcs == [] ==> r == ""
    ensures srcs != [] ==> var last := srcs[|srcs| - 1]; |last| <= |r| && r[|r| - |last|..] == last
  {
    if srcs == [] then ""
    else
      var a := ArgsOf(srcs[..|srcs| - 1]);
      (if a == "" then "" else a + " ") + srcs[|srcs| - 1]
  }

  /** Read back, the arguments are the sources themselves, in order, with no
    * space before or after them, when every source is a word. */
  lemma {:induction false} ArgsReadBack(srcs: seq<string>)
    requires AllWords(srcs)
    ensures Tokens(ArgsOf(srcs)) == srcs
    ensures ArgsOf(srcs) == "" <==> srcs == []
    ensures ArgsOf(srcs) != "" ==> ArgsOf(srcs)[0] != ' ' && ArgsOf(srcs)[|ArgsOf(srcs)| - 1] != ' '
  {
    if srcs != [] {
      var n := |srcs| - 1;
      var a := ArgsOf(srcs[..n]);
      ArgsReadBack(srcs[..n]);
      TokensOfWord(srcs[n]);
      if a == "" {
        assert ArgsOf(srcs) == srcs[n];
        assert srcs[..n] == [];
        assert srcs == [srcs[n]];
      } else {
        assert ArgsOf(srcs) == a + " " + srcs[n];
        TokensSeparated(a, srcs[n]);
        assert srcs == srcs[..n] + [srcs[n]];
      }
    }
  }

  /** An empty source adds nothing to empty arguments, and otherwise only the
    * separating space: the loop never drops a space it has written. */
  lemma ArgsOfEmptySource(srcs: seq<string>)
    ensures ArgsOf(srcs + [""]) == (if ArgsOf(srcs) == "" then "" else ArgsOf(srcs) + " ")
  {
    assert (srcs + [""])[..|srcs|] == srcs;
  }

  /** Joins the sources, appending one at a time. */
  method JoinArgs(srcs: seq<string>) returns (args: string)
    ensures args == ArgsOf(srcs)
  {
    args := "";
    var i := 0;
    while i < |srcs|
      invariant 0 <= i <= |srcs|
      invariant args == ArgsOf(srcs[..i])
    {
      assert srcs[..i + 1][..i] == srcs[..i];
      if args != "" {
        args := args + " ";
      }
      args := args + srcs[i];
      i := i + 1;
    }
    assert srcs[..i] == srcs;
  }

  /** `operatingSystemName`: fixed by the platform the program was built for. */
  function OperatingSystemName(platform: Platform): (r: string)
    ensures r in {"windows", "linux", "unknown"}
  {
    match platform
    case Windows => "windows"
    case Linux => "linux"
    case Unknown => "unknown"
  }

  /** `operatingSystem`: the scripts listed for this platform in the
    * `external` block; `None` where the source throws (no block, or no entry
    * for the platform). */
  function OperatingSystem(p: Project, platform: Platform): (r: Option<seq<string>>)
    ensures "external" !in p.blocks ==> r.None?
    ensures r.Some? ==>
      exists i :: 0 <= i < |p.blocks["external"]| && p.blocks["external"][i].key == OperatingSystemName(platform)
        && p.blocks["external"][i].value.Items() == r.value
  {
    if "external" !in p.blocks then None
    else
      match Lookup(p.blocks["external"], OperatingSystemName(platform))
      case None => None
      case Some(v) => Some(v.Items())
  }

  /** The scripts are found exactly when the block lists the platform, and
    * they are that entry's strings. */
  lemma OperatingSystemFound(p: Project, platform: Platform)
    ensures OperatingSystem(p, platform).Some? <==>
      "external" in p.blocks && exists i :: 0 <= i < |p.blocks["external"]| && p.blocks["external"][i].key == OperatingSystemName(platform)
    ensures OperatingSystem(p, platform).Some? ==>
      exists i :: 0 <= i < |p.blocks["external"]| && p.blocks["external"][i].key == OperatingSystemName(platform)
        && p.blocks["external"][i].value.Items() == OperatingSystem(p, platform).value
  {
  }

  /** The edge running one script: the script under `$sourcedir/` in, the
    * target name out, the sources as `args`. */
  function ScriptEdge(p: Project, cmd: string, rule: string, args: string): Edge {
    Edge(rule, [TargetName(p, "external")], [], [Sourcedir(cmd)], [], [], ["args = " + args])
  }

  function ScriptEdges(p: Project, cmds: seq<string>, rule: string): (r: seq<Edge>)
    ensures |r| == |cmds|
  {
    var args := ArgsOf(p.sources.GetOr([]));
    seq(|cmds|, i requires 0 <= i < |cmds| => ScriptEdge(p, cmds[i], rule, args))
  }

  /** `external::generateBuildStatementsForExternal`: `at("sources")` and
    * `operatingSystem` throw before anything is written. */
  function ExternalRun(p: Project, platform: Platform, rule: string): (r: Run)
    ensures r.status != Failed
    ensures r.status == Threw <==> p.sources.None? || OperatingSystem(p, platform).None?
    ensures r.status == Threw ==> r.lines == []
  {
    if p.sources.None? then Run([], Threw)
    else
      match OperatingSystem(p, platform)
      case None => Run([], Threw)
      case Some(cmds) => Ok(Blocks(ScriptEdges(p, cmds, rule)))
  }

  /** The step throws with nothing written when the sources or the platform's
    * entry are missing; otherwise, read back, it writes one `build` line per
    * script, in order: the target name, the rule, the script; and each edge
    * passes the sources as its `args`. */
  lemma ExternalReadBack(p: Project, platform: Platform, rule: string)
    requires IsWord(rule) && IsWord(TargetName(p, "external"))
    ensures p.sources.None? || OperatingSystem(p, platform).None? ==> ExternalRun(p, platform, rule) == Run([], Threw)
    ensures p.sources.Some? && OperatingSystem(p, platform).Some? ==>
      var cmds := OperatingSystem(p, platform).value;
      var lines := ExternalRun(p, platform, rule).lines;
      ExternalRun(p, platform, rule).status == Succeeded
      && (AllWords(cmds) ==>
            |BuildLines(lines)| == |cmds|
            && forall i :: 0 <= i < |cmds| ==>
                 Tokens(BuildLines(lines)[i]) == ["build", TargetName(p, "external"), ":", rule, Sourcedir(cmds[i])])
      && forall i :: 0 <= i < |cmds| ==> ScriptEdges(p, cmds, rule)[i].variables == ["args = " + ArgsOf(p.sources.value)]
  {
    if p.sources.Some? && OperatingSystem(p, platform).Some? {
      var cmds := OperatingSystem(p, platform).value;
      if AllWords(cmds) {
        ScriptsRead(p, cmds, rule);
      }
    }
  }

  lemma ScriptsRead(p: Project, cmds: seq<string>, rule: string)
    requires IsWord(rule) && IsWord(TargetName(p, "external")) && AllWords(cmds)
    ensures |BuildLines(Blocks(ScriptEdges(p, cmds, rule)))| == |cmds|
    ensures forall i :: 0 <= i < |cmds| ==>
      Tokens(BuildLines(Blocks(ScriptEdges(p, cmds, rule)))[i]) == ["build", TargetName(p, "external"), ":", rule, Sourcedir(cmds[i])]
  {
    var es := ScriptEdges(p, cmds, rule);
    forall i | 0 <= i < |es|
      ensures Wordy(es[i])
    {
      PathsAreWords(cmds[i]);
    }
    ReadBlocks(es);
    forall i | 0 <= i < |cmds|
      ensures Reading(es[i]) == ["build", TargetName(p, "external"), ":", rule, Sourcedir(cmds[i])]
    {
      ScriptEdgeReading(p, cmds[i], rule, ArgsOf(p.sources.GetOr([])));
    }
  }

  lemma ScriptEdgeReading(p: Project, cmd: string, rule: string, args: string)
    ensures Reading(ScriptEdge(p, cmd, rule, args)) == ["build", TargetName(p, "external"), ":", rule, Sourcedir(cmd)]
  {
  }

  /** The `phony` edge from the source directory to the target name. */
  function PhonyEdge(p: Project, rule: string): Edge {
    Edge(rule, [Sourcedir("")], [], [TargetName(p, "external")], [], [], [])
  }

  /** `external::generateBuildStatementsForTargetName`. */
  function ExternalTargetNameRun(p: Project, rule: string): Run {
    Ok(Block(PhonyEdge(p, rule)))
  }

  /** The `phony` edge consumes what every script edge produces. */
  lemma ExternalTargetChain(p: Project, cmds: seq<string>, rule: string, phony: string)
    ensures forall i :: 0 <= i < |cmds| ==> ScriptEdges(p, cmds, rule)[i].outputs == PhonyEdge(p, phony).inputs
    ensures ExternalTargetNameRun(p, phony).status == Succeeded
    ensures BuildLines(ExternalTargetNameRun(p, phony).lines) == [EdgeLine(PhonyEdge(p, phony))]
  {
    BuildLinesOfBlock(PhonyEdge(p, phony));
  }

  /** Writes one script edge. */
  method ScriptStatement(p: Project, cmd: string, rule: string, args: string) returns (s: Statement)
    ensures fresh(s) && s.Value() == ScriptEdge(p, cmd, rule, args)
  {
    s := new Statement(rule);
    s.AppendInput(Sourcedir(cmd));
    s.AppendOutput(TargetName(p, "external"));
    s.AppendVariable("args", args);
    assert "args" + " = " + args == "args = " + args;
  }

  /** Writes the edge of one script. */
  method EmitScript(b: Bundle, p: Project, cmd: string, rule: string, args: string)
    modifies b`output
    ensures b.output == old(b.output) + Block(ScriptEdge(p, cmd, rule, args))
  {
    var s := ScriptStatement(p, cmd, rule, args);
    b.Emit(s.Text() + [""]);
  }

  /** Writes the edge of every script, in order. */
  method EmitScripts(b: Bundle, p: Project, cmds: seq<string>, rule: string, args: string)
    requires args == ArgsOf(p.sources.GetOr([]))
    modifies b`output
    ensures b.output == old(b.output) + Blocks(ScriptEdges(p, cmds, rule))
  {
    ghost var es := ScriptEdges(p, cmds, rule);
    var i := 0;
    while i < |cmds|
      invariant 0 <= i <= |cmds|
      invariant b.output == old(b.output) + Blocks(es[..i])
    {
      assert es[i] == ScriptEdge(p, cmds[i], rule, args);
      EmitScript(b, p, cmds[i], rule, args);
      BlocksSnoc(es, i);
      Associative(old(b.output), Blocks(es[..i]), Block(es[i]));
      i := i + 1;
    }
    assert es[..i] == es;
  }

  /** Writes the script edges. */
  method EmitExternal(b: Bundle, p: Project, platform: Platform, rule: string) returns (st: Status)
    modifies b`output
    ensures b.output == old(b.output) + ExternalRun(p, platform, rule).lines
    ensures st == ExternalRun(p, platform, rule).status
  {
    if p.sources.None? {
      return Threw;
    }
    var args := JoinArgs(p.sources.value);
    var os := OperatingSystem(p, platform);
    if os.None? {
      return Threw;
    }
    EmitScripts(b, p, os.value, rule, args);
    return Succeeded;
  }

  /** Writes the `phony` edge. */
  method EmitExternalTargetName(b: Bundle, p: Project, rule: string) returns (st: Status)
    modifies b`output
    ensures b.output == old(b.output) + ExternalTargetNameRun(p, rule).lines
    ensures st == ExternalTargetNameRun(p, rule).status
  {
    var s := new Statement(rule);
    s.AppendOutput(Sourcedir(""));
    s.AppendInput(TargetName(p, "external"));
    assert s.Value() == PhonyEdge(p, rule);
    b.Emit(s.Text() + [""]);
    return Succeeded;
  }
}
