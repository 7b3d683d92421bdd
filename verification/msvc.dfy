/**
 * The Microsoft Visual C++ backend of `src/msvc.cpp`: the C/C++ layer with
 * `.obj` objects, `.exe` applications and unprefixed `.dll` libraries, the
 * compiler variables, and one rule per build step.
 */
module Msvc {
  import opened Wrappers
  import opened Strings
  import opened Statements
  import opened Bundles
  import opened Shinobi
  import opened CxxBase

  /** The generator name and file naming of this backend. */
  const Tools := Toolchain("msvc", ".obj", ".exe", "", ".dll")

  /** The construction step: `libdir` is pointed at the value of `runtime`, so
    * that `.dll` files land beside executables. `at` throws when either key is
    * missing, and the handler (for runtime errors only) does not catch it. */
  function RuntimeLibdir(dist: map<string, string>): (r: Option<map<string, string>>)
    ensures r.Some? <==> "libdir" in dist && "runtime" in dist
    ensures r.Some? ==> r.value.Keys == dist.Keys && r.value["libdir"] == dist["runtime"]
  {
    if "libdir" in dist && "runtime" in dist then Some(dist["libdir" := dist["runtime"]]) else None
  }

  /** The construction step succeeds exactly when both keys exist; it then
    * changes `libdir` alone, to the value of `runtime`, and running it again
    * changes nothing. */
  lemma RuntimeLibdirUpdates(dist: map<string, string>)
    ensures RuntimeLibdir(dist).Some? <==> "libdir" in dist && "runtime" in dist
    ensures RuntimeLibdir(dist).Some? ==>
      var d := RuntimeLibdir(dist).value;
      d.Keys == dist.Keys && d["libdir"] == dist["runtime"]
      && (forall k :: k in dist && k != "libdir" ==> d[k] == dist[k])
      && RuntimeLibdir(d) == Some(d)
  {
    if "libdir" in dist && "runtime" in dist {
      var d := dist["libdir" := dist["runtime"]];
      assert d["libdir" := d["runtime"]] == d;
    }
  }

  /** Constructs the backend over a bundle: updates its distribution in place. */
  method Setup(b: Bundle) returns (st: Status)
    modifies b`config
    ensures RuntimeLibdir(old(b.config.distribution)).None? ==> st == Threw && b.config == old(b.config)
    ensures RuntimeLibdir(old(b.config.distribution)).Some? ==>
      st == Succeeded && b.config == old(b.config).(distribution := RuntimeLibdir(old(b.config.distribution)).value)
  {
    if "libdir" !in b.config.distribution || "runtime" !in b.config.distribution {
      return Threw;
    }
    b.config := b.config.(distribution := b.config.distribution["libdir" := b.config.distribution["runtime"]]);
    return Succeeded;
  }

  // The fixed lines of the msvc variables.
  const CompilerComment := "# Microsoft Visual C++ compiler."
  const PdbComment := "# program debug database filename."

  /** The compiler and program-database variables. */
  function CompilerLines(p: Project): seq<string> {
    [CompilerComment, "cc  = cl.exe", "cxx = cl.exe", "make = nmake.exe", "",
     PdbComment, "pdb = " + p.name + ".pdb", ""]
  }

  /** `msvc::generateVariables`: the C/C++ variables, then the compiler ones. */
  function MsvcVariablesRun(cfg: Config, env: Env): Run {
    CxxVariablesRun(Tools, cfg, env).Then(Ok(CompilerLines(cfg.project)))
  }

  /** The msvc variables fail exactly when the base block does; on success the
    * file names the compiler `cl.exe` for C and C++ and the program database
    * after the project. */
  lemma MsvcVariablesOutcome(cfg: Config, env: Env)
    ensures MsvcVariablesRun(cfg, env).status == VariablesRun(cfg, env, "msvc").status
    ensures MsvcVariablesRun(cfg, env).status == Succeeded ==>
      MsvcVariablesRun(cfg, env).lines
        == VariablesRun(cfg, env, "msvc").lines + FlagVariableLines("msvc") + CompilerLines(cfg.project)
    ensures MsvcVariablesRun(cfg, env).status != Succeeded ==>
      MsvcVariablesRun(cfg, env).lines == VariablesRun(cfg, env, "msvc").lines
    ensures "pdb = " + cfg.project.name + ".pdb" in CompilerLines(cfg.project)
    ensures "cc  = cl.exe" in CompilerLines(cfg.project) && "cxx = cl.exe" in CompilerLines(cfg.project)
  {
    CxxVariablesOutcome(Tools, cfg, env);
    assert CompilerLines(cfg.project)[6] == "pdb = " + cfg.project.name + ".pdb";
  }

  // Rule comments and command lines.
  const MakeComment := "# run cd $(dirname $in) && nmake -f $(basename $in)"
  const InstallComment := "# install executable file"
  const CopyComment := "# install non file"
  const CopyCommand := "command = Powershell Copy-Item -Path $in -Destination $out"
  const CCompileComment := "# compile *.c -> *.obj"
  const CxxCompileComment := "# compile *.cpp -> *.obj"
  const ExeComment := "# link *.obj -> *.exe"
  const DllComment := "# link *.obj -> *.dll"
  const CCompileCommand := "command = $cc /showIncludes /nologo $cppflags $cflags /Fd$builddir/$pdb /Fo$out /c $in"
  const CApplicationCommand := "command = $cc /nologo $ldflags /Fd$builddir/$pdb /Fe$out $in $ldlibs"
  const CLibraryCommand := "command = $cc /nologo $ldflags /LD /Fd$builddir/$pdb /Fe$out $in $ldlibs"
  const CxxCompileCommand := "command = $cxx /showIncludes /nologo $cppflags $cxxflags /Fd$builddir/$pdb /Fo$out /c $in"
  const CxxApplicationCommand := "command = $cxx /nologo $ldflags /Fd$builddir/$pdb /Fe$out $in $ldlibs"
  const CxxLibraryCommand := "command = $cxx /nologo $ldflags /LD /Fd$builddir/$pdb /Fe$out $in $ldlibs"

  /** The `make` command runs nmake from the makefile's directory; its
    * arguments are passed through `std::quoted`. */
  function MakeCommand(quote: string -> string): string {
    "command = cmd /C FOR /F " + quote("delims=") + " %i IN (" + quote("$in") + ") DO ( FOR /F "
    + quote("delims=") + " %j IN (" + quote("%i") + ") DO ( CD %~pi && $make /nologo -f %~nxj ) )"
  }

  /** The rules `msvc::generateRules` adds after the base ones, in order. */
  function MsvcRules(env: Env): seq<Rule> {
    [Rule(MakeComment, "make", ["description = make $in", MakeCommand(env.quote)]),
     Rule(InstallComment, "install", ["description = install $out", CopyCommand]),
     Rule(CopyComment, "copy", ["description = install $out", CopyCommand]),
     Rule(CCompileComment, "c_compile", ["description = CC $in -> $out", "deps = msvc", CCompileCommand]),
     Rule(ExeComment, "c_application", ["description = LD $in -> $out", CApplicationCommand]),
     Rule(DllComment, "c_library", ["description = LD $in -> $out", CLibraryCommand]),
     Rule(CxxCompileComment, "cxx_compile", ["description = CXX $in -> $out", "deps = msvc", CxxCompileCommand]),
     Rule(ExeComment, "cxx_application", ["description = LD $in -> $out", CxxApplicationCommand]),
     Rule(DllComment, "cxx_library", ["description = LD $in -> $out", CxxLibraryCommand])]
  }

  /** `msvc::generateRules`: the base rules, then one stanza per msvc rule. */
  function MsvcRulesLines(env: Env): seq<string> {
    RulesLines(env) + Stanzas(MsvcRules(env))
  }

  /** Only the two compile rules ask Ninja to track headers the msvc way. */
  lemma MsvcDepsOnCompile(env: Env)
    ensures forall i :: 0 <= i < |MsvcRules(env)| ==>
      ("deps = msvc" in MsvcRules(env)[i].bindings <==> MsvcRules(env)[i].name in {"c_compile", "cxx_compile"})
  {
  }

  /** The names of the msvc rules, in order. */
  const MsvcRuleNames := ["make", "install", "copy", "c_compile", "c_application", "c_library",
                          "cxx_compile", "cxx_application", "cxx_library"]

  lemma MsvcRulesNamed(env: Env)
    ensures |MsvcRules(env)| == |MsvcRuleNames|
    ensures forall i :: 0 <= i < |MsvcRuleNames| ==> MsvcRules(env)[i].name == MsvcRuleNames[i]
  {
  }

  /** Every msvc rule is defined by a `rule` line of the generated rules. */
  lemma MsvcDefinesRules(env: Env)
    ensures forall k :: 0 <= k < |MsvcRuleNames| ==> "rule " + MsvcRuleNames[k] in MsvcRulesLines(env)
  {
    MsvcRulesNamed(env);
    forall k | 0 <= k < |MsvcRuleNames|
      ensures "rule " + MsvcRuleNames[k] in MsvcRulesLines(env)
    {
      DefinedAt(RulesLines(env), MsvcRules(env), k);
    }
  }

  /** Every rule an edge of a C or C++ project refers to is an msvc rule: the
    * compile and link rule of each C/C++ type, `install` and `copy`. */
  lemma MsvcCoversCxxTypes(t: string)
    requires t in {"c_application", "c_library", "cxx_application", "cxx_library"}
    ensures CompileRule(t) in MsvcRuleNames && LinkRule(t) in MsvcRuleNames
    ensures "install" in MsvcRuleNames && "copy" in MsvcRuleNames
  {
    assert MsvcRuleNames[1] == "install" && MsvcRuleNames[2] == "copy";
    if t == "c_application" || t == "c_library" {
      assert MsvcRuleNames[3] == CompileRule(t);
    } else {
      assert MsvcRuleNames[6] == CompileRule(t);
    }
    if t == "c_application" {
      assert MsvcRuleNames[4] == LinkRule(t);
    } else if t == "c_library" {
      assert MsvcRuleNames[5] == LinkRule(t);
    } else if t == "cxx_application" {
      assert MsvcRuleNames[7] == LinkRule(t);
    } else {
      assert MsvcRuleNames[8] == LinkRule(t);
    }
  }

  /** A listed rule is defined by its stanza, whatever precedes the stanzas. */
  lemma DefinedAt(front: seq<string>, rs: seq<Rule>, k: nat)
    requires k < |rs|
    ensures "rule " + rs[k].name in front + Stanzas(rs)
  {
    StanzaDefines(rs, k);
  }

  /** Writes the msvc variables. */
  method EmitMsvcVariables(b: Bundle, cfg: Config, env: Env) returns (st: Status)
    modifies b`output
    ensures b.output == old(b.output) + MsvcVariablesRun(cfg, env).lines
    ensures st == MsvcVariablesRun(cfg, env).status
  {
    ghost var o := b.output;
    st := EmitCxxVariables(b, Tools, cfg, env);
    if st == Succeeded {
      var lines := CompilerLines(cfg.project);
      b.Emit(lines);
      Associative(o, CxxVariablesRun(Tools, cfg, env).lines, lines);
    }
  }

  /** Writes the msvc rules. */
  method EmitMsvcRules(b: Bundle, env: Env)
    modifies b`output
    ensures b.output == old(b.output) + MsvcRulesLines(env)
  {
    ghost var o := b.output;
    EmitRules(b, env);
    EmitStanzas(b, MsvcRules(env));
    Associative(o, RulesLines(env), Stanzas(MsvcRules(env)));
  }
}
