/**
 * The base generator of `src/Shinobi.cpp`: the rule tables, the project-type
 * categories, the path prefixes, and the steps every backend inherits (the
 * variables block, the `exec` and `ninja` rules, the `install_files` edges).
 *
 * Each step is specified by a function returning the `Run` it produces (the
 * lines it writes, how it ends) and implemented by a method that writes those
 * lines to the bundle's output one piece at a time, as the source does.
 */
module Shinobi {
  import opened Wrappers
  import opened Strings
  import opened Statements
  import opened Bundles

  /** Compile rule for each project type that has one. */
  const CompileRules: map<string, string> := map[
    "c_application" := "c_compile",
    "c_library" := "c_compile",
    "cxx_application" := "cxx_compile",
    "cxx_library" := "cxx_compile",
    "cs_application" := "cs_compile",
    "java_application" := "java_compile",
    "java_library" := "java_compile",
    "package" := "phony",
    "external" := "exec",
    "cmake" := "cmake"]

  /** Link rule for each project type that has one. */
  const LinkRules: map<string, string> := map[
    "c_application" := "c_application",
    "c_library" := "c_library",
    "cxx_application" := "cxx_application",
    "cxx_library" := "cxx_library",
    "cs_application" := "cs_application",
    "cs_library" := "cs_library",
    "java_application" := "java_application",
    "java_library" := "java_library",
    "package" := "phony",
    "external" := "exec",
    "cmake" := "ninja"]

  /** The compile rule of a type, or `""` for a type the table lacks. */
  function CompileRule(t: string): (r: string)
    ensures r == "" <==> t !in CompileRules
    ensures t in CompileRules ==> r == CompileRules[t]
  {
    if t in CompileRules then CompileRules[t] else ""
  }

  /** The link rule of a type, or `""` for a type the table lacks. */
  function LinkRule(t: string): (r: string)
    ensures r == "" <==> t !in LinkRules
    ensures t in LinkRules ==> r == LinkRules[t]
  {
    if t in LinkRules then LinkRules[t] else ""
  }

  /** The two tables cover the same types, except that `cs_library` can be
    * linked but has no compile rule; linking and compiling differ only in the
    * rule names of compiled languages and of `cmake`. */
  lemma RuleTablesAgree()
    ensures LinkRules.Keys == CompileRules.Keys + {"cs_library"}
    ensures CompileRule("cs_library") == "" && LinkRule("cs_library") == "cs_library"
    ensures LinkRule("cmake") == "ninja" && CompileRule("cmake") == "cmake"
    ensures forall t :: t in CompileRules && t != "cmake" && !(t in {"c_application", "c_library", "cxx_application", "cxx_library", "cs_application", "java_application", "java_library"})
                ==> CompileRule(t) == LinkRule(t)
  {
  }

  predicate IsApplicationType(t: string) {
    Contains(t, "_application")
  }

  predicate IsLibraryType(t: string) {
    Contains(t, "_library")
  }

  /** Which type-specific step `generateProject` runs after the objects. */
  datatype Category = ApplicationStep | LibraryStep | ExternalStep | PackageStep | CmakeStep | NoStep

  function CategoryOf(t: string): Category {
    if IsApplicationType(t) then ApplicationStep
    else if IsLibraryType(t) then LibraryStep
    else if Contains(t, "external") then ExternalStep
    else if t == "package" then PackageStep
    else if t == "cmake" then CmakeStep
    else NoStep
  }

  /** The tests are tried in order: `_application` anywhere wins over `_library`,
    * which wins over `external`; `package` and `cmake` must match exactly. */
  lemma CategoryOrder(t: string)
    ensures CategoryOf(t) == ApplicationStep <==> Contains(t, "_application")
    ensures CategoryOf(t) == LibraryStep <==> Contains(t, "_library") && !Contains(t, "_application")
    ensures CategoryOf(t) == ExternalStep <==>
              Contains(t, "external") && !Contains(t, "_library") && !Contains(t, "_application")
    ensures CategoryOf(t) == PackageStep <==> t == "package"
    ensures CategoryOf(t) == CmakeStep <==> t == "cmake"
  {
    if t == "package" || t == "cmake" {
      ShorterLacks(t, "_application");
      ShorterLacks(t, "_library");
      ShorterLacks(t, "external");
    }
  }

  /** A string shorter than `t` does not contain it. */
  lemma {:induction false} ShorterLacks(s: string, t: string)
    requires |s| < |t|
    ensures !Contains(s, t)
  {
    if s != [] {
      ShorterLacks(s[1..], t);
    }
  }

  /** Every compiled type's name ends in its category. */
  lemma CategoryOfSuffixed(stem: string)
    ensures CategoryOf(stem + "_application") == ApplicationStep
    ensures !Contains(stem, "_application") ==> CategoryOf(stem + "_library") != ApplicationStep
    ensures CategoryOf(stem + "_library") in {ApplicationStep, LibraryStep}
  {
    ContainsSuffix(stem, "_application");
    ContainsSuffix(stem, "_library");
    if !Contains(stem, "_application") {
      ContainsOfLibrary(stem);
    }
  }

  /** `_application` can only occur in `stem + "_library"` inside `stem`. */
  lemma {:induction false} ContainsOfLibrary(stem: string)
    requires !Contains(stem, "_application")
    ensures !Contains(stem + "_library", "_application")
  {
    var s := stem + "_library";
    if stem == [] {
      assert !StartsWith(s, "_application");
      LibraryTailFree(s, 0);
    } else {
      assert !StartsWith(stem, "_application");
      if |stem| >= 12 {
        assert s[..12] == stem[..12];
      } else {
        assert s[|stem|] == '_';
      }
      assert !StartsWith(s, "_application");
      assert s[1..] == stem[1..] + "_library";
      ContainsOfLibrary(stem[1..]);
    }
  }

  /** No suffix of `_library` contains `_application`. */
  lemma {:induction false} LibraryTailFree(s: string, k: nat)
    requires s == "_library" && k <= |s|
    ensures !Contains(s[k..], "_application")
    decreases |s| - k
  {
    if k < |s| {
      LibraryTailFree(s, k + 1);
      assert s[k..][1..] == s[k + 1..];
    }
  }

  function Sourcedir(s: string): string { "$sourcedir/" + s }
  function Builddir(s: string): string { "$builddir/" + s }
  function Distdir(s: string): string { "$distdir/" + s }

  /** The three prefixes are distinct, so a path shows which tree it names. */
  lemma PrefixesDistinct(a: string, b: string)
    ensures Sourcedir(a) != Builddir(b) && Sourcedir(a) != Distdir(b) && Builddir(a) != Distdir(b)
    ensures Sourcedir(a) == Sourcedir(b) ==> a == b
    ensures Builddir(a) == Builddir(b) ==> a == b
    ensures Distdir(a) == Distdir(b) ==> a == b
  {
    assert Sourcedir(a)[1] != Builddir(b)[1];
    assert Sourcedir(a)[1] != Distdir(b)[1];
    assert Builddir(a)[1] != Distdir(b)[1];
    if Sourcedir(a) == Sourcedir(b) { assert a == Sourcedir(a)[11..]; }
    if Builddir(a) == Builddir(b) { assert a == Builddir(a)[10..]; }
    if Distdir(a) == Distdir(b) { assert a == Distdir(a)[9..]; }
  }

  /** A space-free path stays one word under any of the three trees. */
  lemma PathsAreWords(s: string)
    requires ' ' !in s
    ensures IsWord(Sourcedir(s)) && IsWord(Builddir(s)) && IsWord(Distdir(s))
  {
    assert ' ' !in "$sourcedir/" && ' ' !in "$builddir/" && ' ' !in "$distdir/";
  }

  /** `targetName()`: the backend block's `targetName` when it has one, else the project name. */
  function TargetName(p: Project, gen: string): (r: string)
    ensures FlagBlock(p, gen).Some? && Lookup(FlagBlock(p, gen).value, "targetName").Some? ==>
              Str(r) == Lookup(FlagBlock(p, gen).value, "targetName").value
    ensures FlagBlock(p, gen).None? || Lookup(FlagBlock(p, gen).value, "targetName").None? ==> r == p.name
  {
    if gen in p.blocks then
      match Lookup(p.blocks[gen], "targetName")
      case Some(v) => (assert Typed(p); v.s)
      case None => p.name
    else p.name
  }

  // The fixed comment lines of the generated file.
  const GeneratedBy := "# Generated by ngen {TODO have a version} backend "
  const GeneratedOn := " on {TODO give date/time}"
  const SourcedirComment := "# where the sources can be found."
  const BuilddirComment := "# where build artifacts go."
  const DistdirComment := "# where redistributable artifacts go."
  const DistributionComment := "# vars controlling builddir/distdir structure"
  const VariablesComment := "# Variables from the /variables block. Exported for children of this package."
  const ExecComment := "# run cd $(dirname $in) && ./$(basename $in) ..."
  const NinjaComment := "# run ninja -C $(dirname $in) -f $(basename $in)"

  /** The first two lines of every generated file. */
  function HeaderLines(gen: string): seq<string> {
    [GeneratedBy + gen + GeneratedOn, ""]
  }

  function DirectoryLines(cfg: Config): seq<string> {
    [SourcedirComment, "sourcedir = " + cfg.sourcedir, "",
     BuilddirComment, "builddir = " + cfg.builddir, "",
     DistdirComment, "distdir = " + cfg.distdir, ""]
  }

  /** `<project>_version = <version>`, the version defaulting to `0`. */
  function VersionLines(p: Project): seq<string> {
    [p.name + "_version = " + p.version.GetOr("0"), ""]
  }

  /** The body of the distribution loop for one key: the bundle's value must
    * exist (`at` throws otherwise); the project's value, if any, replaces it. */
  function DistributionLine(dist: map<string, string>, overrides: Option<map<string, string>>): string -> Run {
    k =>
      if k !in dist then Run([], Threw)
      else if overrides.Some? && k in overrides.value then Ok([k + " = " + overrides.value[k]])
      else Ok([k + " = " + dist[k]])
  }

  /** The distribution block: nothing when the bundle's table is empty. */
  function DistributionRun(cfg: Config, keys: seq<string>): Run {
    if cfg.distribution == map[] then Ok([])
    else Each(keys, DistributionLine(cfg.distribution, cfg.project.distribution))
  }

  /** The lines a loop over keys writes when every key has a bundle value. */
  function KeyLines(dist: map<string, string>, keys: seq<string>): (r: seq<string>)
    requires forall i :: 0 <= i < |keys| ==> keys[i] in dist
    ensures |r| == |keys|
    ensures forall i :: 0 <= i < |keys| ==> r[i] == keys[i] + " = " + dist[keys[i]]
  {
    if keys == [] then [] else [keys[0] + " = " + dist[keys[0]]] + KeyLines(dist, keys[1..])
  }

  /** The distribution loop writes one `key = value` line per key, in the given
    * order, and the project's overrides act as a map update of the bundle's
    * table: the project's value wins for the keys it names, every other key
    * keeps the bundle's value. */
  lemma {:induction false} DistributionMerges(dist: map<string, string>, overrides: Option<map<string, string>>, keys: seq<string>)
    requires forall i :: 0 <= i < |keys| ==> keys[i] in dist
    ensures Each(keys, DistributionLine(dist, overrides)) ==
              Ok(KeyLines(if overrides.Some? then dist + overrides.value else dist, keys))
    decreases |keys|
  {
    var merged := if overrides.Some? then dist + overrides.value else dist;
    if keys != [] {
      var n := |keys| - 1;
      DistributionMerges(dist, overrides, keys[..n]);
      KeyLinesSnoc(merged, keys);
    }
  }

  lemma {:induction false} KeyLinesSnoc(dist: map<string, string>, keys: seq<string>)
    requires keys != [] && forall i :: 0 <= i < |keys| ==> keys[i] in dist
    ensures KeyLines(dist, keys) == KeyLines(dist, keys[..|keys| - 1]) + [keys[|keys| - 1] + " = " + dist[keys[|keys| - 1]]]
  {
    var a := KeyLines(dist, keys);
    var b := KeyLines(dist, keys[..|keys| - 1]) + [keys[|keys| - 1] + " = " + dist[keys[|keys| - 1]]];
    assert |a| == |b|;
    forall i | 0 <= i < |a| ensures a[i] == b[i] {
    }
  }

  /** A key the bundle lacks makes the loop throw there, after the lines of the keys before it. */
  lemma DistributionThrowsAtMissingKey(dist: map<string, string>, overrides: Option<map<string, string>>, keys: seq<string>, k: nat)
    requires k < |keys| && keys[k] !in dist
    requires forall i :: 0 <= i < k ==> keys[i] in dist
    ensures Each(keys, DistributionLine(dist, overrides)).status == Threw
    ensures Each(keys, DistributionLine(dist, overrides)).lines ==
              KeyLines(if overrides.Some? then dist + overrides.value else dist, keys[..k])
  {
    var f := DistributionLine(dist, overrides);
    EachStopsAtFirstFailure(keys, f, k);
    DistributionMerges(dist, overrides, keys[..k]);
  }

  /** One entry of a backend block: `<gen>_<key> =` then each word preceded by a space. */
  function FlagLine(gen: string, f: Flag): string {
    gen + "_" + f.key + " =" + Prefixed(f.value.Items())
  }

  function FlagLines(gen: string, fs: seq<Flag>): (r: seq<string>)
    ensures |r| == |fs|
    ensures forall i :: 0 <= i < |fs| ==> r[i] == FlagLine(gen, fs[i])
  {
    if fs == [] then [] else FlagLines(gen, fs[..|fs| - 1]) + [FlagLine(gen, fs[|fs| - 1])]
  }

  /** The backend block's lines, plus `<gen>_targetName` when the block has no `targetName`. */
  function BlockLines(p: Project, gen: string): seq<string> {
    if gen !in p.blocks then []
    else
      var fs := p.blocks[gen];
      FlagLines(gen, fs) + (if Lookup(fs, "targetName").None? then [gen + "_targetName = " + TargetName(p, gen)] else [])
  }

  /** `<gen>_targetName = <targetName>` is added exactly when the block exists and lacks `targetName`,
    * and then it is the project name; in every case each entry of the block gives one line, in order. */
  lemma BlockTargetName(p: Project, gen: string)
    ensures gen !in p.blocks ==> BlockLines(p, gen) == []
    ensures gen in p.blocks ==>
      var fs := p.blocks[gen];
      var r := BlockLines(p, gen);
      |r| == |fs| + (if Lookup(fs, "targetName").None? then 1 else 0)
      && (forall i :: 0 <= i < |fs| ==> r[i] == FlagLine(gen, fs[i]))
      && (Lookup(fs, "targetName").None? ==> r[|fs|] == gen + "_targetName = " + p.name)
  {
  }

  /** The `/variables` lines, introduced by a comment, when the project has them. */
  function ProjectVariableLines(p: Project): seq<string> {
    if p.variables.None? then []
    else [VariablesComment, ""] + p.variables.value
  }

  /** The lines written before the distribution block. */
  function VariablesPrelude(cfg: Config): seq<string> {
    DirectoryLines(cfg) + VersionLines(cfg.project) + [DistributionComment]
  }

  /** The lines written after the distribution block. */
  function VariablesTail(p: Project, gen: string): seq<string> {
    ([""] + BlockLines(p, gen)) + (TargetNameLines(gen) + ProjectVariableLines(p))
  }

  /** `targetName = $<gen>_targetName` between empty lines. */
  function TargetNameLines(gen: string): seq<string> {
    ["", "targetName = $" + gen + "_targetName", ""]
  }

  /** `generateVariables` of the base generator. */
  function VariablesRun(cfg: Config, env: Env, gen: string): (r: Run)
    ensures r.status != Failed
    ensures VariablesPrelude(cfg) <= r.lines
  {
    EachOutcome(env.sortedKeys, DistributionLine(cfg.distribution, cfg.project.distribution));
    Ok(VariablesPrelude(cfg)).Then(DistributionRun(cfg, env.sortedKeys)).Then(Ok(VariablesTail(cfg.project, gen)))
  }

  /** The variables step fails only by throwing, and only at a distribution key
    * the bundle lacks. */
  lemma VariablesOutcome(cfg: Config, env: Env, gen: string)
    ensures VariablesRun(cfg, env, gen).status != Failed
    ensures VariablesRun(cfg, env, gen).status == Threw <==>
              cfg.distribution != map[] && exists i :: 0 <= i < |env.sortedKeys| && env.sortedKeys[i] !in cfg.distribution
  {
    var keys := env.sortedKeys;
    var dist := cfg.distribution;
    if dist != map[] {
      if k :| 0 <= k < |keys| && keys[k] !in dist {
        var first := FirstMissing(dist, keys, k);
        DistributionThrowsAtMissingKey(dist, cfg.project.distribution, keys, first);
      } else {
        DistributionMerges(dist, cfg.project.distribution, keys);
      }
    }
  }

  /** When it succeeds, the variables step ends with `targetName = $<gen>_targetName`,
    * an empty line, then the `/variables` lines. */
  lemma VariablesEnd(cfg: Config, env: Env, gen: string)
    requires VariablesRun(cfg, env, gen).status == Succeeded
    ensures var r, v := VariablesRun(cfg, env, gen).lines, ProjectVariableLines(cfg.project);
      |r| >= |v| + 2 && r[|r| - |v| - 2] == "targetName = $" + gen + "_targetName" && r[|r| - |v|..] == v
  {
    var pre, d, tail := VariablesPrelude(cfg), DistributionRun(cfg, env.sortedKeys), VariablesTail(cfg.project, gen);
    var h, m, v := [""] + BlockLines(cfg.project, gen), TargetNameLines(gen), ProjectVariableLines(cfg.project);
    assert d.status == Succeeded;
    assert tail == h + (m + v);
    MiddleOf(pre + d.lines, h, m, v);
  }

  /** In `front + (h + (m + v))` with three lines in `m`, the middle one of `m`
    * sits two lines before `v`, which ends the sequence. */
  lemma MiddleOf<T>(front: seq<T>, h: seq<T>, m: seq<T>, v: seq<T>)
    requires |m| == 3
    ensures var r := front + (h + (m + v));
      |r| >= |v| + 2 && r[|r| - |v| - 2] == m[1] && r[|r| - |v|..] == v
  {
    var r := front + (h + (m + v));
    assert r[|r| - |v|..] == v;
  }

  /** The first key the table lacks, given that some key at or before `k` is missing. */
  lemma {:induction false} FirstMissing(dist: map<string, string>, keys: seq<string>, k: nat) returns (first: nat)
    requires k < |keys| && keys[k] !in dist
    ensures first <= k && keys[first] !in dist
    ensures forall i :: 0 <= i < first ==> keys[i] in dist
  {
    first := 0;
    while keys[first] in dist
      invariant first <= k
      invariant forall i :: 0 <= i < first ==> keys[i] in dist
      decreases k - first
    {
      first := first + 1;
    }
  }

  /** A rule block: comment line, `rule <name>`, then indented bindings. */
  datatype Rule = Rule(comment: string, name: string, bindings: seq<string>)

  function RuleLines(r: Rule): (lines: seq<string>)
    ensures |lines| == |r.bindings| + 2 && lines[1] == "rule " + r.name
  {
    [r.comment, "rule " + r.name] + Indented(r.bindings)
  }

  /** A rule block followed by an empty line. */
  function Stanza(r: Rule): seq<string> {
    RuleLines(r) + [""]
  }

  function Stanzas(rs: seq<Rule>): seq<string> {
    if rs == [] then [] else Stanzas(rs[..|rs| - 1]) + Stanza(rs[|rs| - 1])
  }

  /** Every rule's comment line starts with `#`. */
  predicate Commented(rs: seq<Rule>) {
    forall i :: 0 <= i < |rs| ==> rs[i].comment != [] && rs[i].comment[0] == '#'
  }

  /** The stanzas define exactly the rules listed: a `rule <name>` line appears
    * in them if and only if some listed rule has that name. */
  lemma {:induction false} StanzasDefine(rs: seq<Rule>, name: string)
    requires Commented(rs)
    ensures "rule " + name in Stanzas(rs) <==> exists i :: 0 <= i < |rs| && rs[i].name == name
  {
    if rs != [] {
      var n := |rs| - 1;
      CommentedPrefix(rs, n);
      StanzasDefine(rs[..n], name);
      StanzaDefinesOne(rs[n], name);
      NamedSplit(rs, rs[..n], name);
      assert Stanzas(rs) == Stanzas(rs[..n]) + Stanza(rs[n]);
    }
  }

  lemma CommentedPrefix(rs: seq<Rule>, n: nat)
    requires Commented(rs) && n <= |rs|
    ensures Commented(rs[..n])
  {
    forall i | 0 <= i < n ensures rs[..n][i].comment != [] && rs[..n][i].comment[0] == '#' {
      assert rs[..n][i] == rs[i];
    }
  }

  /** Some rule has the name exactly when one before the last has it or the last has it. */
  lemma NamedSplit(rs: seq<Rule>, front: seq<Rule>, name: string)
    requires rs != [] && front == rs[..|rs| - 1]
    ensures (exists i :: 0 <= i < |rs| && rs[i].name == name) <==>
      (exists i :: 0 <= i < |front| && front[i].name == name) || rs[|rs| - 1].name == name
  {
    if exists i :: 0 <= i < |rs| && rs[i].name == name {
      var i :| 0 <= i < |rs| && rs[i].name == name;
      if i < |front| {
        assert front[i].name == name;
      }
    }
    if exists i :: 0 <= i < |front| && front[i].name == name {
      var i :| 0 <= i < |front| && front[i].name == name;
      assert rs[i].name == name;
    }
  }

  /** One stanza defines only its own rule: its comment starts with `#`, its
    * bindings are indented, and its `rule` line names it. */
  lemma StanzaDefinesOne(r: Rule, name: string)
    requires r.comment != [] && r.comment[0] == '#'
    ensures "rule " + name in Stanza(r) <==> r.name == name
  {
    var line := "rule " + name;
    assert line[0] == 'r';
    assert line !in Indented(r.bindings);
    assert line != r.comment;
    assert Stanza(r) == [r.comment, "rule " + r.name] + Indented(r.bindings) + [""];
    if line == "rule " + r.name {
      assert name == line[5..] == r.name;
    }
  }

  /** Each listed rule is defined by a `rule <name>` line of the stanzas. */
  lemma {:induction false} StanzaDefines(rs: seq<Rule>, k: nat)
    requires k < |rs|
    ensures "rule " + rs[k].name in Stanzas(rs)
  {
    var n := |rs| - 1;
    if k < n {
      assert rs[..n][k] == rs[k];
      StanzaDefines(rs[..n], k);
    } else {
      assert Stanza(rs[n])[1] == "rule " + rs[n].name;
    }
  }

  /** Writes one stanza per rule, in order. */
  method EmitStanzas(b: Bundle, rs: seq<Rule>)
    modifies b`output
    ensures b.output == old(b.output) + Stanzas(rs)
  {
    var i := 0;
    while i < |rs|
      invariant 0 <= i <= |rs|
      invariant b.output == old(b.output) + Stanzas(rs[..i])
    {
      assert rs[..i + 1][..i] == rs[..i];
      ghost var prev := Stanzas(rs[..i]);
      var stanza := Stanza(rs[i]);
      b.Emit(stanza);
      Associative(old(b.output), prev, stanza);
      i := i + 1;
    }
    assert rs[..i] == rs;
  }

  /** The `exec` rule runs a script from its own directory, passing `$args`. */
  function ExecRule(env: Env): Rule {
    Rule(ExecComment, "exec",
      ["description = exec $in", "restat = true", "pool = console", "command = " + env.command("exec")])
  }

  /** The `ninja` rule runs a child build file. */
  function NinjaRule(env: Env): Rule {
    Rule(NinjaComment, "ninja",
      ["description = ninja $in", "restat = true", "pool = console", "command = " + env.command("ninja")])
  }

  /** `generateRules` of the base generator: `exec`, then `ninja`, then an empty line. */
  function RulesLines(env: Env): seq<string> {
    RuleLines(ExecRule(env)) + Stanza(NinjaRule(env))
  }

  /** The base rules define `exec` and `ninja`, in that order, both in the console pool. */
  lemma BaseRules(env: Env)
    ensures |RulesLines(env)| == 13
    ensures RulesLines(env)[1] == "rule exec" && RulesLines(env)[7] == "rule ninja"
    ensures RulesLines(env)[4] == "    pool = console" && RulesLines(env)[10] == "    pool = console"
    ensures RulesLines(env)[12] == ""
  {
  }

  /** An entry holding both `input` and `output`; `at` throws for an entry
    * lacking either. */
  predicate Complete(f: InstallFile) {
    f.input.Some? && f.output.Some?
  }

  /** The edge for one complete `install_files` entry. */
  function InstallFileEdge(f: InstallFile, rule: string): Edge
    requires Complete(f)
  {
    Edge(if f.executable.GetOr(false) then rule else "copy", [Distdir(f.output.value)], [], [Sourcedir(f.input.value)], [], [], [])
  }

  /** The edges of a run of complete entries, in order. */
  function InstallFileEdges(fs: seq<InstallFile>, rule: string): (r: seq<Edge>)
    requires forall i :: 0 <= i < |fs| ==> Complete(fs[i])
    ensures |r| == |fs|
    ensures forall i :: 0 <= i < |r| ==> r[i] == InstallFileEdge(fs[i], rule)
  {
    seq(|fs|, i requires 0 <= i < |fs| => InstallFileEdge(fs[i], rule))
  }

  /** The body of the loop for one entry: its edge between empty lines, or,
    * when `input` or `output` is missing, a throw before anything is written. */
  function InstallFileRun(rule: string): InstallFile -> Run {
    f => if Complete(f) then Ok([""] + Render(InstallFileEdge(f, rule)) + [""]) else Run([], Threw)
  }

  /** `generateBuildStatementsForInstall` of the base generator. */
  function InstallRun(p: Project, rule: string): (r: Run)
    ensures r.status != Failed
    ensures var fs := p.installFiles.GetOr([]);
      r.status == Succeeded <==> forall i :: 0 <= i < |fs| ==> Complete(fs[i])
  {
    EachOutcome(p.installFiles.GetOr([]), InstallFileRun(rule));
    Each(p.installFiles.GetOr([]), InstallFileRun(rule))
  }

  /** While every entry is complete, the loop writes one framed edge per entry, in order. */
  lemma {:induction false} InstallsWritten(fs: seq<InstallFile>, rule: string)
    requires forall i :: 0 <= i < |fs| ==> Complete(fs[i])
    ensures Each(fs, InstallFileRun(rule)) == Ok(FramedBlocks(InstallFileEdges(fs, rule)))
  {
    if fs != [] {
      var n := |fs| - 1;
      InstallsWritten(fs[..n], rule);
      assert InstallFileEdges(fs, rule)[..n] == InstallFileEdges(fs[..n], rule);
    }
  }

  /** With every entry complete the step succeeds with one framed edge per
    * entry; otherwise it throws at the first incomplete entry, keeping the
    * edges of the entries before it. */
  lemma InstallOutcome(p: Project, rule: string)
    ensures var fs := p.installFiles.GetOr([]);
      (forall i :: 0 <= i < |fs| ==> Complete(fs[i])) ==>
        InstallRun(p, rule) == Ok(FramedBlocks(InstallFileEdges(fs, rule)))
    ensures var fs := p.installFiles.GetOr([]);
      forall k :: 0 <= k < |fs| && !Complete(fs[k]) && (forall i :: 0 <= i < k ==> Complete(fs[i])) ==>
        InstallRun(p, rule) == Run(FramedBlocks(InstallFileEdges(fs[..k], rule)), Threw)
  {
    var fs := p.installFiles.GetOr([]);
    if forall i :: 0 <= i < |fs| ==> Complete(fs[i]) {
      InstallsWritten(fs, rule);
    }
    forall k | 0 <= k < |fs| && !Complete(fs[k]) && (forall i :: 0 <= i < k ==> Complete(fs[i]))
      ensures InstallRun(p, rule) == Run(FramedBlocks(InstallFileEdges(fs[..k], rule)), Threw)
    {
      InstallsWritten(fs[..k], rule);
      EachStopsAtFirstFailure(fs, InstallFileRun(rule), k);
    }
  }

  /** Each complete `install_files` entry gives one edge: rule `install` exactly
    * when the entry is executable (else `copy`), its one input under
    * `$sourcedir/` and its one output under `$distdir/`. */
  lemma InstallFileEdgeShape(f: InstallFile)
    requires Complete(f)
    ensures InstallFileEdge(f, "install").rule == "install" <==> f.executable == Some(true)
    ensures InstallFileEdge(f, "install").rule == "copy" <==> f.executable != Some(true)
    ensures InstallFileEdge(f, "install").inputs == [Sourcedir(f.input.value)]
    ensures InstallFileEdge(f, "install").outputs == [Distdir(f.output.value)]
  {
  }

  /** `extraInputsForTargetName`: the `$distdir/` path of every `install_files`
    * output, or a throw when some entry has no `output`. */
  function ExtraInputsForTargetName(p: Project): (r: Option<seq<string>>)
    ensures var fs := p.installFiles.GetOr([]);
      r.None? <==> exists i :: 0 <= i < |fs| && fs[i].output.None?
    ensures var fs := p.installFiles.GetOr([]);
      r.Some? ==> |r.value| == |fs| && forall i :: 0 <= i < |fs| ==> StartsWith(r.value[i], "$distdir/")
  {
    var fs := p.installFiles.GetOr([]);
    if forall i :: 0 <= i < |fs| ==> fs[i].output.Some? then
      Some(seq(|fs|, i requires 0 <= i < |fs| => Distdir(fs[i].output.value)))
    else None
  }

  /** The target depends on exactly what the install step produces: the extra
    * inputs are the outputs of the install edges, one each, in the same order.
    * They throw only for an entry without `output`, at which the install step,
    * which runs first, has already thrown. */
  lemma ExtraInputsAreInstallOutputs(p: Project, rule: string)
    ensures var fs := p.installFiles.GetOr([]);
      ExtraInputsForTargetName(p).Some? <==> forall i :: 0 <= i < |fs| ==> fs[i].output.Some?
    ensures ExtraInputsForTargetName(p).None? ==> InstallRun(p, rule).status == Threw
    ensures var fs := p.installFiles.GetOr([]);
      (forall i :: 0 <= i < |fs| ==> Complete(fs[i])) ==>
        var extra := ExtraInputsForTargetName(p).value;
        |extra| == |fs|
        && forall i :: 0 <= i < |fs| ==> InstallFileEdges(fs, rule)[i].outputs == [extra[i]]
  {
    var fs := p.installFiles.GetOr([]);
    if ExtraInputsForTargetName(p).None? {
      var j :| 0 <= j < |fs| && fs[j].output.None?;
      FirstIncomplete(fs, j);
      var k :| 0 <= k <= j && !Complete(fs[k]) && forall i :: 0 <= i < k ==> Complete(fs[i]);
      InstallOutcome(p, rule);
    }
  }

  /** An incomplete entry has a first incomplete entry at or before it. */
  lemma {:induction false} FirstIncomplete(fs: seq<InstallFile>, j: nat)
    requires j < |fs| && !Complete(fs[j])
    ensures exists k :: 0 <= k <= j && !Complete(fs[k]) && forall i :: 0 <= i < k ==> Complete(fs[i])
    decreases j
  {
    if !forall i :: 0 <= i < j ==> Complete(fs[i]) {
      var i :| 0 <= i < j && !Complete(fs[i]);
      FirstIncomplete(fs, i);
    }
  }

  /** Writes the base variables block. */
  method EmitVariables(b: Bundle, cfg: Config, env: Env, gen: string) returns (st: Status)
    modifies b`output
    ensures b.output == old(b.output) + VariablesRun(cfg, env, gen).lines
    ensures st == VariablesRun(cfg, env, gen).status
  {
    ghost var o := b.output;
    var pre := VariablesPrelude(cfg);
    b.Emit(pre);
    st := EmitDistribution(b, cfg, env.sortedKeys);
    ghost var d := DistributionRun(cfg, env.sortedKeys);
    ghost var tail := VariablesTail(cfg.project, gen);
    assert b.output == (o + pre) + d.lines;
    assert VariablesRun(cfg, env, gen) == Ok(pre).Then(d).Then(Ok(tail));
    Associative(o, pre, d.lines);
    if st == Succeeded {
      EmitVariablesTail(b, cfg.project, gen);
      Associative(o, pre + d.lines, tail);
    }
  }

  /** Writes the lines that follow the distribution block. */
  method EmitVariablesTail(b: Bundle, p: Project, gen: string)
    modifies b`output
    ensures b.output == old(b.output) + VariablesTail(p, gen)
  {
    ghost var o := b.output;
    ghost var bl := BlockLines(p, gen);
    var rest := TargetNameLines(gen) + ProjectVariableLines(p);
    b.Emit([""]);
    EmitBlock(b, p, gen);
    assert b.output == (o + [""]) + bl;
    b.Emit(rest);
    Associative(o, [""], bl);
    Associative(o, [""] + bl, rest);
  }

  /** Writes `key = value` for each key, stopping with a throw at a key the bundle lacks. */
  method EmitDistribution(b: Bundle, cfg: Config, keys: seq<string>) returns (st: Status)
    modifies b`output
    ensures b.output == old(b.output) + DistributionRun(cfg, keys).lines
    ensures st == DistributionRun(cfg, keys).status
  {
    if cfg.distribution == map[] {
      return Succeeded;
    }
    var p := cfg.project;
    var f := DistributionLine(cfg.distribution, p.distribution);
    var i := 0;
    while i < |keys|
      invariant 0 <= i <= |keys|
      invariant Each(keys[..i], f).status == Succeeded
      invariant b.output == old(b.output) + Each(keys[..i], f).lines
    {
      var key := keys[i];
      EachStep(keys, i, f);
      if key !in cfg.distribution {
        EachRest(keys, i, f);
        return Threw;
      }
      var value := cfg.distribution[key];
      if p.distribution.Some? && key in p.distribution.value {
        value := p.distribution.value[key];
      }
      b.Emit([key + " = " + value]);
      i := i + 1;
    }
    assert keys[..i] == keys;
    return Succeeded;
  }

  /** Writes one line per entry of a backend block, in order. */
  method EmitFlags(b: Bundle, gen: string, flags: seq<Flag>)
    modifies b`output
    ensures b.output == old(b.output) + FlagLines(gen, flags)
  {
    var j := 0;
    while j < |flags|
      invariant 0 <= j <= |flags|
      invariant b.output == old(b.output) + FlagLines(gen, flags[..j])
    {
      FlagLinesSnoc(gen, flags, j);
      b.Emit([FlagLine(gen, flags[j])]);
      j := j + 1;
    }
    assert flags[..j] == flags;
  }

  /** Writes the backend block's lines, then `<gen>_targetName` when the block lacks it. */
  method EmitBlock(b: Bundle, p: Project, gen: string)
    modifies b`output
    ensures b.output == old(b.output) + BlockLines(p, gen)
  {
    if gen in p.blocks {
      var flags := p.blocks[gen];
      EmitFlags(b, gen, flags);
      if Lookup(flags, "targetName").None? {
        b.Emit([gen + "_targetName = " + TargetName(p, gen)]);
      }
    }
  }

  lemma FlagLinesSnoc(gen: string, fs: seq<Flag>, j: nat)
    requires j < |fs|
    ensures FlagLines(gen, fs[..j + 1]) == FlagLines(gen, fs[..j]) + [FlagLine(gen, fs[j])]
  {
    assert fs[..j + 1][..j] == fs[..j];
  }

  /** Writes the base rules. */
  method EmitRules(b: Bundle, env: Env)
    modifies b`output
    ensures b.output == old(b.output) + RulesLines(env)
  {
    var exec, ninja := RuleLines(ExecRule(env)), RuleLines(NinjaRule(env));
    b.Emit(exec);
    b.Emit(ninja);
    b.Emit([""]);
    assert RulesLines(env) == exec + (ninja + [""]);
  }

  /** The statement for one complete `install_files` entry. */
  method InstallFileStatement(f: InstallFile, rule: string) returns (s: Statement)
    requires Complete(f)
    ensures fresh(s) && s.Value() == InstallFileEdge(f, rule)
  {
    var exe := f.executable.GetOr(false);
    s := new Statement(if exe then rule else "copy");
    s.AppendInput(Sourcedir(f.input.value));
    s.AppendOutput(Distdir(f.output.value));
  }

  /** Writes one edge per `install_files` entry, each between empty lines,
    * and throws at the first entry lacking `input` or `output`. */
  method EmitInstall(b: Bundle, p: Project, rule: string) returns (st: Status)
    modifies b`output
    ensures b.output == old(b.output) + InstallRun(p, rule).lines
    ensures st == InstallRun(p, rule).status
  {
    var files := p.installFiles.GetOr([]);
    ghost var f := InstallFileRun(rule);
    var i := 0;
    while i < |files|
      invariant 0 <= i <= |files|
      invariant Each(files[..i], f).status == Succeeded
      invariant b.output == old(b.output) + Each(files[..i], f).lines
    {
      EachStep(files, i, f);
      if !Complete(files[i]) {
        EachRest(files, i, f);
        return Threw;
      }
      var s := InstallFileStatement(files[i], rule);
      var framed := [""] + s.Text() + [""];
      assert f(files[i]) == Ok(framed);
      ghost var prev := Each(files[..i], f).lines;
      b.Emit(framed);
      Associative(old(b.output), prev, framed);
      i := i + 1;
    }
    assert files[..i] == files;
    return Succeeded;
  }
}
