/**
 * The CMake backend of `src/cmake.cpp`: a `cmake` project is configured by
 * one generator edge that runs CMake on the project's `CMakeLists.txt`, and
 * built by one `ninja` edge that runs the build file CMake wrote.
 */
module Cmake {
  import opened Wrappers
  import opened Strings
  import opened Statements
  import opened Bundles
  import opened Shinobi

  // The fixed lines of the cmake variables and rule.
  const FlagsComment := "# extra flags passed to cmake."
  const RuleComment := "# run cd $(dirname $in) && nmake -f $(basename $in)"

  /** One ` -D<key>=<quoted value>` definition; the `cmake` block holds strings. */
  function Definition(quote: string -> string, f: Flag): string
    requires f.value.Str?
  {
    "-D" + f.key + "=" + quote(f.value.s)
  }

  /** The definitions of every entry, in block order, each after one space. */
  function Definitions(quote: string -> string, fs: seq<Flag>): string
    requires forall i :: 0 <= i < |fs| ==> fs[i].value.Str?
  {
    if fs == [] then ""
    else Definitions(quote, fs[..|fs| - 1]) + " " + Definition(quote, fs[|fs| - 1])
  }

  /** `cmake::generateVariables` after the base block: the comment, then the
    * `cmake_flags` line, which is ended and followed by an empty line only
    * when the project has a `cmake` block. */
  function CmakeFlagLines(p: Project, quote: string -> string): seq<string> {
    if "cmake" in p.blocks then
      (assert CmakeTyped(p);
       [FlagsComment, "cmake_flags =" + Definitions(quote, p.blocks["cmake"]), ""])
    else [FlagsComment, "cmake_flags ="]
  }

  function CmakeVariablesRun(cfg: Config, env: Env): Run {
    VariablesRun(cfg, env, "cmake").Then(Ok(CmakeFlagLines(cfg.project, env.quote)))
  }

  /** Non-empty definitions start with their separating space. */
  lemma {:induction false} DefinitionsLead(quote: string -> string, fs: seq<Flag>)
    requires fs != [] && forall i :: 0 <= i < |fs| ==> fs[i].value.Str?
    ensures Definitions(quote, fs)[0] == ' '
  {
    var n := |fs| - 1;
    if n > 0 {
      DefinitionsLead(quote, fs[..n]);
    }
  }

  /** Read back, the definitions are one word per entry of the block, in
    * order, when no key or quoted value holds a space. */
  lemma {:induction false} DefinitionsRead(quote: string -> string, fs: seq<Flag>)
    requires forall i :: 0 <= i < |fs| ==> fs[i].value.Str?
    requires forall i :: 0 <= i < |fs| ==> ' ' !in fs[i].key && ' ' !in quote(fs[i].value.s)
    ensures Tokens(Definitions(quote, fs)) == seq(|fs|, i requires 0 <= i < |fs| => Definition(quote, fs[i]))
  {
    if fs != [] {
      var n := |fs| - 1;
      DefinitionsRead(quote, fs[..n]);
      var d := Definition(quote, fs[n]);
      assert ' ' !in "-D" && ' ' !in "=";
      assert IsWord(d);
      TokensSeparated(Definitions(quote, fs[..n]), d);
      TokensOfWord(d);
    }
  }

  /** The whole flags line reads as `cmake_flags`, `=`, then the definitions. */
  lemma FlagsLineReads(quote: string -> string, fs: seq<Flag>)
    requires forall i :: 0 <= i < |fs| ==> fs[i].value.Str?
    requires forall i :: 0 <= i < |fs| ==> ' ' !in fs[i].key && ' ' !in quote(fs[i].value.s)
    ensures Tokens("cmake_flags =" + Definitions(quote, fs))
      == ["cmake_flags", "="] + seq(|fs|, i requires 0 <= i < |fs| => Definition(quote, fs[i]))
  {
    DefinitionsRead(quote, fs);
    if fs != [] {
      DefinitionsLead(quote, fs);
    }
    TokensJoin("cmake_flags =", Definitions(quote, fs));
    FlagsHead();
  }

  lemma FlagsHead()
    ensures Tokens("cmake_flags =") == ["cmake_flags", "="]
  {
    assert "cmake_flags =" == "cmake_flags" + " " + "=";
    assert IsWord("cmake_flags") && IsWord("=");
    TwoWords("cmake_flags", "=");
  }

  /** The cmake variables fail exactly when the base block does; with a
    * `cmake` block the flags line reads as one definition per entry. */
  lemma CmakeVariablesOutcome(cfg: Config, env: Env)
    ensures CmakeVariablesRun(cfg, env).status == VariablesRun(cfg, env, "cmake").status
    ensures CmakeVariablesRun(cfg, env).status == Succeeded ==>
      CmakeVariablesRun(cfg, env).lines == VariablesRun(cfg, env, "cmake").lines + CmakeFlagLines(cfg.project, env.quote)
    ensures "cmake" !in cfg.project.blocks ==> CmakeFlagLines(cfg.project, env.quote) == [FlagsComment, "cmake_flags ="]
    ensures "cmake" in cfg.project.blocks ==>
      var fs := cfg.project.blocks["cmake"];
      (forall i :: 0 <= i < |fs| ==> ' ' !in fs[i].key && ' ' !in env.quote(fs[i].value.s)) ==>
        Tokens(CmakeFlagLines(cfg.project, env.quote)[1])
          == ["cmake_flags", "="] + seq(|fs|, i requires 0 <= i < |fs| => Definition(env.quote, fs[i]))
  {
    var p := cfg.project;
    if "cmake" in p.blocks {
      var fs := p.blocks["cmake"];
      if forall i :: 0 <= i < |fs| ==> ' ' !in fs[i].key && ' ' !in env.quote(fs[i].value.s) {
        FlagsLineReads(env.quote, fs);
      }
    }
  }

  /** The `cmake` rule regenerates the build tree; it is a generator rule in the console pool. */
  function CmakeRule(quote: string -> string): Rule {
    Rule(RuleComment, "cmake",
      ["description = cmake $in", "generator = true", "pool = console",
       "command = cmake " + " -G Ninja" + " -S " + quote("$sourcedir") + " -B " + quote("$builddir")
       + " " + quote("-DCMAKE_INSTALL_PREFIX=$distdir") + " $cmake_flags"])
  }

  /** `cmake::generateRules`: the base rules, then the `cmake` rule. */
  function CmakeRulesLines(env: Env): seq<string> {
    RulesLines(env) + Stanza(CmakeRule(env.quote))
  }

  /** `cmakelists_txt`: the first source under `$sourcedir/`; `at(0)` throws
    * when there is none. */
  function CmakeListsTxt(p: Project): (r: Option<string>)
    ensures r.Some? <==> p.sources.Some? && |p.sources.value| > 0
    ensures r.Some? ==> StartsWith(r.value, "$sourcedir/")
  {
    if p.sources.None? || p.sources.value == [] then None else Some(Sourcedir(p.sources.value[0]))
  }

  /** The build file CMake writes. */
  const BuildNinja := Builddir("build.ninja")

  function GeneratorEdge(lists: string, rule: string): Edge {
    Edge(rule, [BuildNinja], [], [lists], [], [], [])
  }

  /** `cmake::generateBuildStatementsForObjects`: one generator edge. */
  function CmakeObjectsRun(p: Project, rule: string): Run {
    match CmakeListsTxt(p)
    case None => Run([], Threw)
    case Some(lists) => Ok(Block(GeneratorEdge(lists, rule)))
  }

  function NinjaEdge(p: Project): Edge {
    Edge("ninja", [TargetName(p, "cmake")], [], [BuildNinja], [], [], ["ninja_targets = install"])
  }

  /** `cmake::generateBuildStatementsForTargetName`: one `ninja` edge. */
  function CmakeTargetNameRun(p: Project): Run {
    Ok(Block(NinjaEdge(p)))
  }

  /** The two edges consume the same file: the generator edge writes
    * `$builddir/build.ninja` from the first source, and the `ninja` edge reads
    * it to build the target, installing through its single variable. Both
    * rules are defined, and a `cmake` project compiles with the `cmake` rule. */
  lemma CmakeEdgesChain(p: Project, env: Env)
    requires p.sources.Some? && p.sources.value != []
    ensures CmakeObjectsRun(p, CompileRule("cmake")).status == Succeeded
    ensures CmakeObjectsRun(p, CompileRule("cmake")).lines
      == Block(Edge("cmake", [BuildNinja], [], [Sourcedir(p.sources.value[0])], [], [], []))
    ensures NinjaEdge(p).inputs == GeneratorEdge(Sourcedir(p.sources.value[0]), "cmake").outputs
    ensures NinjaEdge(p).outputs == [TargetName(p, "cmake")] && NinjaEdge(p).variables == ["ninja_targets = install"]
    ensures "rule cmake" in CmakeRulesLines(env) && "rule ninja" in CmakeRulesLines(env)
  {
    BaseRules(env);
    assert CmakeRulesLines(env)[7] == "rule ninja";
    assert Stanza(CmakeRule(env.quote))[1] == "rule cmake";
    assert CmakeRulesLines(env)[|RulesLines(env)| + 1] == "rule cmake";
  }

  /** Only the first source is used: sources after it change nothing. */
  lemma CmakeIgnoresLaterSources(p: Project, more: seq<string>, rule: string)
    requires p.sources.Some? && p.sources.value != []
    ensures CmakeObjectsRun(p.(sources := Some(p.sources.value + more)), rule) == CmakeObjectsRun(p, rule)
    ensures CmakeObjectsRun(p.(sources := Some([])), rule) == Run([], Threw)
  {
    var q := p.(sources := Some(p.sources.value + more));
    assert q.blocks == p.blocks;
    assert (p.sources.value + more)[0] == p.sources.value[0];
  }

  /** Builds the flags line one definition at a time. */
  method FlagsLine(quote: string -> string, fs: seq<Flag>) returns (line: string)
    requires forall i :: 0 <= i < |fs| ==> fs[i].value.Str?
    ensures line == "cmake_flags =" + Definitions(quote, fs)
  {
    line := "cmake_flags =";
    var i := 0;
    while i < |fs|
      invariant 0 <= i <= |fs|
      invariant line == "cmake_flags =" + Definitions(quote, fs[..i])
    {
      assert fs[..i + 1][..i] == fs[..i];
      line := line + " -D" + fs[i].key + "=" + quote(fs[i].value.s);
      i := i + 1;
    }
    assert fs[..i] == fs;
  }

  /** Writes the cmake variables. */
  method EmitCmakeVariables(b: Bundle, cfg: Config, env: Env) returns (st: Status)
    modifies b`output
    ensures b.output == old(b.output) + CmakeVariablesRun(cfg, env).lines
    ensures st == CmakeVariablesRun(cfg, env).status
  {
    ghost var o := b.output;
    st := EmitVariables(b, cfg, env, "cmake");
    if st != Succeeded {
      return;
    }
    var p := cfg.project;
    var lines;
    if "cmake" in p.blocks {
      assert CmakeTyped(p);
      var line := FlagsLine(env.quote, p.blocks["cmake"]);
      lines := [FlagsComment, line, ""];
    } else {
      lines := [FlagsComment, "cmake_flags ="];
    }
    assert lines == CmakeFlagLines(p, env.quote);
    b.Emit(lines);
    Associative(o, VariablesRun(cfg, env, "cmake").lines, lines);
  }

  /** Writes the cmake rules. */
  method EmitCmakeRules(b: Bundle, env: Env)
    modifies b`output
    ensures b.output == old(b.output) + CmakeRulesLines(env)
  {
    ghost var o := b.output;
    EmitRules(b, env);
    var stanza := Stanza(CmakeRule(env.quote));
    b.Emit(stanza);
    Associative(o, RulesLines(env), stanza);
  }

  /** Writes the generator edge. */
  method EmitCmakeObjects(b: Bundle, p: Project, rule: string) returns (st: Status)
    modifies b`output
    ensures b.output == old(b.output) + CmakeObjectsRun(p, rule).lines
    ensures st == CmakeObjectsRun(p, rule).status
  {
    var s := new Statement(rule);
    var lists := CmakeListsTxt(p);
    if lists.None? {
      return Threw;
    }
    s.AppendInput(lists.value);
    s.AppendOutput(BuildNinja);
    assert s.Value() == GeneratorEdge(lists.value, rule);
    b.Emit(s.Text() + [""]);
    return Succeeded;
  }

  /** Writes the `ninja` edge. */
  method EmitCmakeTargetName(b: Bundle, p: Project) returns (st: Status)
    modifies b`output
    ensures b.output == old(b.output) + CmakeTargetNameRun(p).lines
    ensures st == CmakeTargetNameRun(p).status
  {
    var s := new Statement("ninja");
    s.AppendInput(BuildNinja);
    s.AppendOutput(TargetName(p, "cmake"));
    s.AppendVariable("ninja_targets", "install");
    assert "ninja_targets" + " = " + "install" == "ninja_targets = install";
    assert s.Value() == NinjaEdge(p);
    b.Emit(s.Text() + [""]);
    return Succeeded;
  }
}
