/**
 * The Java backend of `src/javac.cpp`: `java_*` projects, one `.class` per
 * source, the `javac` variable, and the `java_compile` and `java_library`
 * rules. Its other steps are those of the base generator.
 */
module Javac {
  import opened Wrappers
  import opened Strings
  import opened Path
  import opened Statements
  import opened Bundles
  import opened Shinobi

  /** `isSupportedType`: the type names a Java project. */
  predicate IsJavaType(t: string) {
    StartsWith(t, "java_")
  }

  /** `klass`: the class file of a source, under `$builddir/`. */
  function Klass(source: string): (r: string)
    ensures StartsWith(r, "$builddir/")
    ensures '.' in source ==> |r| >= 16 && r[|r| - 6..] == ".class"
  {
    Builddir(ReplaceExtension(source, ".class"))
  }

  /** A source with an extension compiles to a `.class` file under `$builddir/`
    * with the same stem; a class file names its class file again. */
  lemma KlassShape(source: string)
    ensures StartsWith(Klass(source), "$builddir/")
    ensures '.' in source ==> Klass(source) == Builddir(source[..LastIndex(source, '.')] + ".class")
    ensures Klass(ReplaceExtension(source, ".class")) == Klass(source)
  {
    ReplaceExtensionShape(source, ".class");
    KlassIdempotent(source);
  }

  lemma KlassIdempotent(source: string)
    ensures Klass(ReplaceExtension(source, ".class")) == Klass(source)
  {
    assert "." + "class" == ".class" && '.' !in "class";
    ReplaceExtensionIdempotent(source, "class");
  }

  // The fixed lines of the javac variables and rules.
  const JavacComment := "# Assuming the normal javac compiler."
  const CompileComment := "# compile *.java -> *.class"
  const JarComment := "# compile *.class -> *.jar"

  /** `javac::generateVariables`: the base block, then the compiler variable. */
  function JavacVariablesRun(cfg: Config, env: Env): Run {
    VariablesRun(cfg, env, "Shinobi").Then(Ok([JavacComment, "javac = javac", ""]))
  }

  /** The javac variables fail exactly when the base block does; on success
    * they end with `javac = javac` and an empty line. */
  lemma JavacVariablesOutcome(cfg: Config, env: Env)
    ensures JavacVariablesRun(cfg, env).status == VariablesRun(cfg, env, "Shinobi").status
    ensures JavacVariablesRun(cfg, env).status == Succeeded ==>
      var lines := JavacVariablesRun(cfg, env).lines;
      |lines| >= 2 && lines[|lines| - 2] == "javac = javac" && lines[|lines| - 1] == ""
      && lines[..|lines| - 3] == VariablesRun(cfg, env, "Shinobi").lines
    ensures JavacVariablesRun(cfg, env).status != Succeeded ==>
      JavacVariablesRun(cfg, env).lines == VariablesRun(cfg, env, "Shinobi").lines
  {
  }

  /** The rules `javac::generateRules` adds after the base ones. */
  function JavacRules(): seq<Rule> {
    [Rule(CompileComment, "java_compile", ["description = javac $in -> $out", "command = $javac -d $builddir $in"]),
     Rule(JarComment, "java_library", ["description = jar $out <- $in", "command = $jar cf $out $in"])]
  }

  function JavacRulesLines(env: Env): seq<string> {
    RulesLines(env) + Stanzas(JavacRules())
  }

  /** The javac stanzas define `java_compile` and `java_library` and nothing else. */
  lemma JavacDefinesRules(name: string)
    ensures "rule " + name in Stanzas(JavacRules()) <==> name in {"java_compile", "java_library"}
  {
    var rs := JavacRules();
    assert CompileComment[0] == '#' && JarComment[0] == '#';
    StanzasDefine(rs, name);
    if name in {"java_compile", "java_library"} {
      assert rs[if name == "java_compile" then 0 else 1].name == name;
    }
  }

  /** The compile edge of one source: the source itself, unprefixed, in; its class file out. */
  function JavaEdge(source: string, rule: string): Edge {
    Edge(rule, [Klass(source)], [], [source], [], [], [])
  }

  function JavaEdges(p: Project, rule: string): (r: seq<Edge>)
    ensures |r| == |p.sources.GetOr([])|
  {
    var srcs := p.sources.GetOr([]);
    seq(|srcs|, i requires 0 <= i < |srcs| => JavaEdge(srcs[i], rule))
  }

  /** `javac::generateBuildStatementsForObjects`. */
  function JavacObjectsRun(p: Project, t: string, rule: string): (r: Run)
    ensures r.status == Failed <==> !IsJavaType(t)
    ensures r.status == Threw <==> IsJavaType(t) && p.sources.None?
    ensures r.status != Succeeded ==> r.lines == []
  {
    if !IsJavaType(t) then Run([], Failed)
    else if p.sources.None? then Run([], Threw)
    else Ok(Blocks(JavaEdges(p, rule)))
  }

  /** A type outside `java_*` is refused with nothing written; otherwise,
    * read back, the step has one `build` line per source, in order: the class
    * file, the rule, and the source as written in the descriptor. */
  lemma JavacObjectsReadBack(p: Project, t: string, rule: string)
    requires p.sources.Some? && IsWord(rule) && AllWords(p.sources.value)
    ensures !IsJavaType(t) ==> JavacObjectsRun(p, t, rule) == Run([], Failed)
    ensures IsJavaType(t) ==>
      JavacObjectsRun(p, t, rule).status == Succeeded
      && |BuildLines(JavacObjectsRun(p, t, rule).lines)| == |p.sources.value|
      && forall i :: 0 <= i < |p.sources.value| ==>
           Tokens(BuildLines(JavacObjectsRun(p, t, rule).lines)[i])
             == ["build", Klass(p.sources.value[i]), ":", rule, p.sources.value[i]]
  {
    var srcs := p.sources.value;
    var es := JavaEdges(p, rule);
    forall i | 0 <= i < |es|
      ensures Wordy(es[i])
      ensures Reading(es[i]) == ["build", Klass(srcs[i]), ":", rule, srcs[i]]
    {
      assert ' ' !in ".class";
      ReplaceExtensionSpaceFree(srcs[i], ".class");
      PathsAreWords(ReplaceExtension(srcs[i], ".class"));
    }
    ReadBlocks(es);
  }

  /** Writes the javac variables. */
  method EmitJavacVariables(b: Bundle, cfg: Config, env: Env) returns (st: Status)
    modifies b`output
    ensures b.output == old(b.output) + JavacVariablesRun(cfg, env).lines
    ensures st == JavacVariablesRun(cfg, env).status
  {
    ghost var o := b.output;
    st := EmitVariables(b, cfg, env, "Shinobi");
    if st == Succeeded {
      var lines := [JavacComment, "javac = javac", ""];
      b.Emit(lines);
      Associative(o, VariablesRun(cfg, env, "Shinobi").lines, lines);
    }
  }

  /** Writes the javac rules. */
  method EmitJavacRules(b: Bundle, env: Env)
    modifies b`output
    ensures b.output == old(b.output) + JavacRulesLines(env)
  {
    ghost var o := b.output;
    EmitRules(b, env);
    EmitStanzas(b, JavacRules());
    Associative(o, RulesLines(env), Stanzas(JavacRules()));
  }

  /** Writes one compile edge per source. */
  method EmitJavacObjects(b: Bundle, p: Project, t: string, rule: string) returns (st: Status)
    modifies b`output
    ensures b.output == old(b.output) + JavacObjectsRun(p, t, rule).lines
    ensures st == JavacObjectsRun(p, t, rule).status
  {
    if !IsJavaType(t) {
      return Failed;
    }
    if p.sources.None? {
      return Threw;
    }
    var srcs := p.sources.value;
    ghost var es := JavaEdges(p, rule);
    var i := 0;
    while i < |srcs|
      invariant 0 <= i <= |srcs|
      invariant b.output == old(b.output) + Blocks(es[..i])
    {
      var block := JavaEdgeText(srcs[i], rule);
      assert block == Block(es[i]);
      b.Emit(block);
      BlocksSnoc(es, i);
      Associative(old(b.output), Blocks(es[..i]), block);
      i := i + 1;
    }
    assert es[..i] == es;
    return Succeeded;
  }

  /** Builds the statement of one source's compile edge and gives its text. */
  method JavaEdgeText(source: string, rule: string) returns (block: seq<string>)
    ensures block == Block(JavaEdge(source, rule))
  {
    var s := new Statement(rule);
    s.AppendInput(source);
    s.AppendOutput(Klass(source));
    assert s.Value() == JavaEdge(source, rule);
    block := s.Text() + [""];
  }
}
