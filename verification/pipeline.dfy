/**
 * `generateProject` of `src/Shinobi.cpp` with every backend plugged in: the
 * header line, the variables and rules, the objects, then the step of the
 * type's category, the install edges and the target name. The backends
 * differ only in which steps they override, which the dispatch functions
 * below spell out.
 */
module Pipeline {
  import opened Wrappers
  import opened Strings
  import opened Statements
  import opened Bundles
  import opened Shinobi
  import CxxBase
  import Msvc
  import Javac
  import Cmake
  import External
  import Package
  import Gcc

  /** The generator classes. */
  datatype Backend = MsvcGenerator | GccGenerator | JavacGenerator | CmakeGenerator | ExternalGenerator | PackageGenerator

  /** `generatorName()`: the gcc and javac classes keep the base class's name. */
  function GeneratorName(g: Backend): (r: string)
    ensures r == "Shinobi" <==> g == GccGenerator || g == JavacGenerator
  {
    match g
    case MsvcGenerator => "msvc"
    case CmakeGenerator => "cmake"
    case ExternalGenerator => "external"
    case PackageGenerator => "package"
    case _ => "Shinobi"
  }

  /** `generateVariables`. */
  function VariablesStep(g: Backend, cfg: Config, env: Env): Run {
    match g
    case MsvcGenerator => Msvc.MsvcVariablesRun(cfg, env)
    case JavacGenerator => Javac.JavacVariablesRun(cfg, env)
    case CmakeGenerator => Cmake.CmakeVariablesRun(cfg, env)
    case _ => VariablesRun(cfg, env, GeneratorName(g))
  }

  /** `generateRules`, which never fails. */
  function RulesStep(g: Backend, env: Env): seq<string> {
    match g
    case MsvcGenerator => Msvc.MsvcRulesLines(env)
    case JavacGenerator => Javac.JavacRulesLines(env)
    case CmakeGenerator => Cmake.CmakeRulesLines(env)
    case _ => RulesLines(env)
  }

  /** `generateBuildStatementsForObjects`; the base class writes nothing. */
  function ObjectsStep(g: Backend, cfg: Config, env: Env, t: string, rule: string): Run {
    match g
    case MsvcGenerator => CxxBase.ObjectsRun(Msvc.Tools, cfg.project, t, rule)
    case JavacGenerator => Javac.JavacObjectsRun(cfg.project, t, rule)
    case CmakeGenerator => Cmake.CmakeObjectsRun(cfg.project, rule)
    case PackageGenerator => Package.PackageObjectsRun(cfg, env)
    case _ => Ok([])
  }

  /** The step of the type's category; only the classes that override it write anything. */
  function CategoryStep(g: Backend, cfg: Config, env: Env, t: string, rule: string): Run {
    match CategoryOf(t)
    case ApplicationStep => if g == MsvcGenerator then CxxBase.ApplicationRun(Msvc.Tools, cfg.project, t, rule) else Ok([])
    case LibraryStep => if g == MsvcGenerator then CxxBase.LibraryRun(Msvc.Tools, cfg.project, t, rule) else Ok([])
    case ExternalStep => if g == ExternalGenerator then External.ExternalRun(cfg.project, env.platform, rule) else Ok([])
    case PackageStep => if g == PackageGenerator then Package.PackageRun(cfg.project, rule) else Ok([])
    case CmakeStep => Ok([])
    case NoStep => Ok([])
  }

  /** `generateBuildStatementsForInstall` with the rule `install`. */
  function InstallStep(g: Backend, cfg: Config, env: Env, t: string): Run {
    if g == MsvcGenerator then CxxBase.CxxInstallRun(Msvc.Tools, cfg, env, t, "install")
    else InstallRun(cfg.project, "install")
  }

  /** `generateBuildStatementsForTargetName` with the rule `phony`; the base class writes nothing. */
  function TargetNameStep(g: Backend, cfg: Config, env: Env, t: string): Run {
    match g
    case MsvcGenerator => CxxBase.CxxTargetNameRun(Msvc.Tools, cfg, env, t, "phony")
    case CmakeGenerator => Cmake.CmakeTargetNameRun(cfg.project)
    case ExternalGenerator => External.ExternalTargetNameRun(cfg.project, "phony")
    case _ => Ok([])
  }

  /** The header, then the variables. */
  function Head(header: seq<string>, v: Run): Run {
    Ok(header).Then(v)
  }

  /** The rules, which never fail, then the objects. */
  function Body(rules: seq<string>, o: Run): Run {
    Ok(rules).Then(o)
  }

  /** The header and the steps that must succeed, each run only after the
    * previous one succeeded. */
  function Front(header: seq<string>, v: Run, rules: seq<string>, o: Run): Run {
    Head(header, v).Then(Body(rules, o))
  }

  /** The category, install and target-name steps, whose `false` is only logged. */
  function Back(c: Run, i: Run, n: Run): Run {
    Ignored(c).Then(Ignored(i)).Then(Ignored(n))
  }

  /** The steps of `generateProject` after its early exits. */
  function Chain(header: seq<string>, v: Run, rules: seq<string>, o: Run, c: Run, i: Run, n: Run): Run {
    Front(header, v, rules, o).Then(Back(c, i, n))
  }

  /** A variables or objects step that does not succeed ends the chain with
    * its status; after both succeed the chain never fails, and throws exactly
    * when one of the three last steps throws. */
  lemma ChainOutcome(header: seq<string>, v: Run, rules: seq<string>, o: Run, c: Run, i: Run, n: Run)
    ensures var r := Chain(header, v, rules, o, c, i, n);
      && (v.status != Succeeded ==> r == Run(header + v.lines, v.status))
      && (v.status == Succeeded && o.status != Succeeded ==> r == Run(header + v.lines + rules + o.lines, o.status))
      && (v.status == Succeeded && o.status == Succeeded ==>
            && r.status != Failed
            && (r.status == Threw <==> c.status == Threw || i.status == Threw || n.status == Threw)
            && (r.status == Succeeded ==> r.lines == header + v.lines + rules + o.lines + c.lines + i.lines + n.lines))
  {
  }

  /** Whatever the steps do, the chain starts with the header. */
  lemma ChainHeader(header: seq<string>, v: Run, rules: seq<string>, o: Run, c: Run, i: Run, n: Run)
    ensures |Chain(header, v, rules, o, c, i, n).lines| >= |header|
    ensures Chain(header, v, rules, o, c, i, n).lines[..|header|] == header
  {
    var r := Chain(header, v, rules, o, c, i, n);
    assert r.lines[..|header|] == header;
  }

  /** `generateProject`: no type fails and no sources succeeds, both with
    * nothing written; otherwise the chain of the backend's steps. */
  function ProjectRun(g: Backend, cfg: Config, env: Env): (r: Run)
    ensures cfg.project.projectType.None? ==> r == Run([], Failed)
    ensures cfg.project.projectType.Some? && cfg.project.sources.None? ==> r == Ok([])
    ensures cfg.project.projectType.Some? && cfg.project.sources.Some? ==> HeaderLines(GeneratorName(g)) <= r.lines
  {
    var p := cfg.project;
    if p.projectType.None? then Run([], Failed)
    else if p.sources.None? then Ok([])
    else
      var t := p.projectType.value;
      ChainHeader(HeaderLines(GeneratorName(g)), VariablesStep(g, cfg, env), RulesStep(g, env),
            ObjectsStep(g, cfg, env, t, CompileRule(t)), CategoryStep(g, cfg, env, t, LinkRule(t)),
            InstallStep(g, cfg, env, t), TargetNameStep(g, cfg, env, t));
      Chain(HeaderLines(GeneratorName(g)), VariablesStep(g, cfg, env), RulesStep(g, env),
            ObjectsStep(g, cfg, env, t, CompileRule(t)), CategoryStep(g, cfg, env, t, LinkRule(t)),
            InstallStep(g, cfg, env, t), TargetNameStep(g, cfg, env, t))
  }

  /** The generation of a project, the gcc class adding its compile edges. */
  function GenerateRun(g: Backend, cfg: Config, env: Env): (r: Run)
    ensures g != GccGenerator ==> r == ProjectRun(g, cfg, env)
    ensures g == GccGenerator ==> r.status != Succeeded
    ensures ProjectRun(g, cfg, env).lines <= r.lines
  {
    if g == GccGenerator then Gcc.GccRun(ProjectRun(g, cfg, env), cfg.project) else ProjectRun(g, cfg, env)
  }

  /** The early exits, and how the result follows the backend's steps. */
  lemma ProjectOutcome(g: Backend, cfg: Config, env: Env)
    ensures cfg.project.projectType.None? ==> ProjectRun(g, cfg, env) == Run([], Failed)
    ensures cfg.project.projectType.Some? && cfg.project.sources.None? ==> ProjectRun(g, cfg, env) == Ok([])
    ensures cfg.project.projectType.Some? && cfg.project.sources.Some? ==>
      var t := cfg.project.projectType.value;
      ProjectRun(g, cfg, env) ==
        Chain(HeaderLines(GeneratorName(g)), VariablesStep(g, cfg, env), RulesStep(g, env),
              ObjectsStep(g, cfg, env, t, CompileRule(t)), CategoryStep(g, cfg, env, t, LinkRule(t)),
              InstallStep(g, cfg, env, t), TargetNameStep(g, cfg, env, t))
  {
  }

  /** No step for another category runs: a category step writes only for the
    * class that overrides it, and a `cmake` type or an unknown category
    * writes nothing and succeeds. */
  lemma CategoryStepOwners(g: Backend, cfg: Config, env: Env, t: string, rule: string)
    ensures CategoryStep(g, cfg, env, t, rule) != Ok([]) ==>
      || (g == MsvcGenerator && (CategoryOf(t) == ApplicationStep || CategoryOf(t) == LibraryStep))
      || (g == ExternalGenerator && CategoryOf(t) == ExternalStep)
      || (g == PackageGenerator && CategoryOf(t) == PackageStep)
    ensures t == "cmake" ==> CategoryStep(g, cfg, env, t, rule) == Ok([])
    ensures g == MsvcGenerator && CategoryOf(t) == ApplicationStep ==>
      CategoryStep(g, cfg, env, t, rule) == CxxBase.ApplicationRun(Msvc.Tools, cfg.project, t, rule)
    ensures g == MsvcGenerator && CategoryOf(t) == LibraryStep ==>
      CategoryStep(g, cfg, env, t, rule) == CxxBase.LibraryRun(Msvc.Tools, cfg.project, t, rule)
  {
    CategoryOrder(t);
  }

  /** Writes the variables of the backend. */
  method EmitVariablesStep(b: Bundle, g: Backend, env: Env) returns (st: Status)
    modifies b`output
    ensures b.output == old(b.output) + VariablesStep(g, b.config, env).lines
    ensures st == VariablesStep(g, b.config, env).status
  {
    match g
    case MsvcGenerator => st := Msvc.EmitMsvcVariables(b, b.config, env);
    case JavacGenerator => st := Javac.EmitJavacVariables(b, b.config, env);
    case CmakeGenerator => st := Cmake.EmitCmakeVariables(b, b.config, env);
    case _ => st := EmitVariables(b, b.config, env, GeneratorName(g));
  }

  /** Writes the rules of the backend. */
  method EmitRulesStep(b: Bundle, g: Backend, env: Env)
    modifies b`output
    ensures b.output == old(b.output) + RulesStep(g, env)
  {
    match g
    case MsvcGenerator => Msvc.EmitMsvcRules(b, env);
    case JavacGenerator => Javac.EmitJavacRules(b, env);
    case CmakeGenerator => Cmake.EmitCmakeRules(b, env);
    case _ => EmitRules(b, env);
  }

  /** Writes the object edges of the backend. */
  method EmitObjectsStep(b: Bundle, g: Backend, env: Env, t: string, rule: string) returns (st: Status)
    modifies b`output
    ensures b.output == old(b.output) + ObjectsStep(g, b.config, env, t, rule).lines
    ensures st == ObjectsStep(g, b.config, env, t, rule).status
  {
    match g
    case MsvcGenerator => st := CxxBase.EmitObjects(b, Msvc.Tools, b.config.project, t, rule);
    case JavacGenerator => st := Javac.EmitJavacObjects(b, b.config.project, t, rule);
    case CmakeGenerator => st := Cmake.EmitCmakeObjects(b, b.config.project, rule);
    case PackageGenerator => st := Package.EmitPackageObjects(b, env);
    case _ => st := Succeeded;
  }

  /** Writes the edges of the type's category. */
  method EmitCategoryStep(b: Bundle, g: Backend, env: Env, t: string, rule: string) returns (st: Status)
    modifies b`output
    ensures b.output == old(b.output) + CategoryStep(g, b.config, env, t, rule).lines
    ensures st == CategoryStep(g, b.config, env, t, rule).status
  {
    st := Succeeded;
    if IsApplicationType(t) {
      if g == MsvcGenerator {
        st := CxxBase.EmitApplication(b, Msvc.Tools, b.config.project, t, rule);
      }
    } else if IsLibraryType(t) {
      if g == MsvcGenerator {
        st := CxxBase.EmitLibrary(b, Msvc.Tools, b.config.project, t, rule);
      }
    } else if Contains(t, "external") {
      if g == ExternalGenerator {
        st := External.EmitExternal(b, b.config.project, env.platform, rule);
      }
    } else if t == "package" {
      if g == PackageGenerator {
        st := Package.EmitPackage(b, b.config.project, rule);
      }
    }
  }

  /** Writes the install edges. */
  method EmitInstallStep(b: Bundle, g: Backend, env: Env, t: string) returns (st: Status)
    modifies b`output
    ensures b.output == old(b.output) + InstallStep(g, b.config, env, t).lines
    ensures st == InstallStep(g, b.config, env, t).status
  {
    if g == MsvcGenerator {
      st := CxxBase.EmitCxxInstall(b, Msvc.Tools, b.config, env, t, "install");
    } else {
      st := EmitInstall(b, b.config.project, "install");
    }
  }

  /** Writes the target-name edge. */
  method EmitTargetNameStep(b: Bundle, g: Backend, env: Env, t: string) returns (st: Status)
    modifies b`output
    ensures b.output == old(b.output) + TargetNameStep(g, b.config, env, t).lines
    ensures st == TargetNameStep(g, b.config, env, t).status
  {
    match g
    case MsvcGenerator => st := CxxBase.EmitCxxTargetName(b, Msvc.Tools, b.config, env, t, "phony");
    case CmakeGenerator => st := Cmake.EmitCmakeTargetName(b, b.config.project);
    case ExternalGenerator => st := External.EmitExternalTargetName(b, b.config.project, "phony");
    case _ => st := Succeeded;
  }

  /** The header and the variables. */
  method EmitHead(b: Bundle, g: Backend, env: Env) returns (st: Status)
    modifies b`output
    ensures b.output == old(b.output) + Head(HeaderLines(GeneratorName(g)), VariablesStep(g, b.config, env)).lines
    ensures st == Head(HeaderLines(GeneratorName(g)), VariablesStep(g, b.config, env)).status
  {
    ghost var o := b.output;
    var header := HeaderLines(GeneratorName(g));
    b.Emit(header);
    st := EmitVariablesStep(b, g, env);
    Associative(o, header, VariablesStep(g, b.config, env).lines);
  }

  /** The rules and the objects. */
  method EmitBody(b: Bundle, g: Backend, env: Env, t: string) returns (st: Status)
    modifies b`output
    ensures b.output == old(b.output) + Body(RulesStep(g, env), ObjectsStep(g, b.config, env, t, CompileRule(t))).lines
    ensures st == Body(RulesStep(g, env), ObjectsStep(g, b.config, env, t, CompileRule(t))).status
  {
    ghost var o := b.output;
    EmitRulesStep(b, g, env);
    st := EmitObjectsStep(b, g, env, t, CompileRule(t));
    Associative(o, RulesStep(g, env), ObjectsStep(g, b.config, env, t, CompileRule(t)).lines);
  }

  /** The header, the variables, the rules and the objects. */
  method EmitFront(b: Bundle, g: Backend, env: Env, t: string) returns (st: Status)
    modifies b`output
    ensures var f := Front(HeaderLines(GeneratorName(g)), VariablesStep(g, b.config, env), RulesStep(g, env),
                           ObjectsStep(g, b.config, env, t, CompileRule(t)));
      b.output == old(b.output) + f.lines && st == f.status
  {
    ghost var o := b.output;
    st := EmitHead(b, g, env);
    if st != Succeeded {
      return;
    }
    ghost var head := b.output[|o|..];
    assert b.output == o + head;
    st := EmitBody(b, g, env, t);
    Associative(o, head, b.output[|o| + |head|..]);
  }

  /** The category, install and target-name steps, stopping only at a throw. */
  method EmitBack(b: Bundle, g: Backend, env: Env, t: string) returns (st: Status)
    modifies b`output
    ensures var k := Back(CategoryStep(g, b.config, env, t, LinkRule(t)), InstallStep(g, b.config, env, t),
                          TargetNameStep(g, b.config, env, t));
      b.output == old(b.output) + k.lines && st == k.status
  {
    ghost var o := b.output;
    ghost var c := CategoryStep(g, b.config, env, t, LinkRule(t));
    ghost var i := InstallStep(g, b.config, env, t);
    st := EmitCategoryStep(b, g, env, t, LinkRule(t));
    if st == Threw {
      return;
    }
    st := EmitInstallStep(b, g, env, t);
    Associative(o, c.lines, i.lines);
    if st == Threw {
      return;
    }
    st := EmitTargetNameStep(b, g, env, t);
    Associative(o, c.lines + i.lines, TargetNameStep(g, b.config, env, t).lines);
    if st == Threw {
      return;
    }
    return Succeeded;
  }

  /** The steps after the early exits. */
  method EmitChain(b: Bundle, g: Backend, env: Env, t: string) returns (st: Status)
    modifies b`output
    ensures var f := Front(HeaderLines(GeneratorName(g)), VariablesStep(g, b.config, env), RulesStep(g, env),
                           ObjectsStep(g, b.config, env, t, CompileRule(t)));
      var k := Back(CategoryStep(g, b.config, env, t, LinkRule(t)), InstallStep(g, b.config, env, t),
                    TargetNameStep(g, b.config, env, t));
      b.output == old(b.output) + f.Then(k).lines && st == f.Then(k).status
  {
    ghost var o := b.output;
    ghost var f := Front(HeaderLines(GeneratorName(g)), VariablesStep(g, b.config, env), RulesStep(g, env),
                         ObjectsStep(g, b.config, env, t, CompileRule(t)));
    ghost var k := Back(CategoryStep(g, b.config, env, t, LinkRule(t)), InstallStep(g, b.config, env, t),
                        TargetNameStep(g, b.config, env, t));
    st := EmitFront(b, g, env, t);
    if st != Succeeded {
      return;
    }
    assert b.output == o + f.lines;
    st := EmitBack(b, g, env, t);
    assert b.output == (o + f.lines) + k.lines;
    Associative(o, f.lines, k.lines);
  }

  /** `generateProject`. */
  method EmitProject(b: Bundle, g: Backend, env: Env) returns (st: Status)
    modifies b`output
    ensures b.output == old(b.output) + ProjectRun(g, b.config, env).lines
    ensures st == ProjectRun(g, b.config, env).status
  {
    var p := b.config.project;
    if p.projectType.None? {
      return Failed;
    }
    if p.sources.None? {
      return Succeeded;
    }
    st := EmitChain(b, g, env, p.projectType.value);
  }

  /** `generate()` once the output is open: the project, then for gcc the
    * compile edges. */
  method Generate(b: Bundle, g: Backend, env: Env) returns (st: Status)
    modifies b`output
    ensures b.output == old(b.output) + GenerateRun(g, b.config, env).lines
    ensures st == GenerateRun(g, b.config, env).status
  {
    ghost var o := b.output;
    st := EmitProject(b, g, env);
    if g != GccGenerator || st != Succeeded {
      return;
    }
    var p := b.config.project;
    if p.sources.None? {
      return Threw;
    }
    Gcc.EmitGccEdges(b, p.sources.value);
    Associative(o, ProjectRun(g, b.config, env).lines, Blocks(Gcc.GccEdges(p.sources.value)));
    return Failed;
  }
}
