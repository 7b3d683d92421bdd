/**
 * The backend of `src/package.cpp` for packages: a project whose sources
 * name child project directories. Each child gets a generation of its own,
 * the package's build file includes the child's with a `subninja` line, and
 * one edge makes the package name depend on every child.
 */
module Package {
  import opened Wrappers
  import opened Strings
  import opened Path
  import opened Statements
  import opened Bundles
  import opened Shinobi
  import opened Defaults

  /** The settings of the child in directory `name`, before its descriptor is
    * read: its trees beneath the parent's, the parent's distribution, input
    * file name and switches, and no project yet. */
  function ChildConfig(parent: Config, name: string): (r: Config)
    ensures StartsWith(r.sourcedir, parent.sourcedir + "/") && StartsWith(r.builddir, parent.builddir + "/")
    ensures r.distdir == parent.distdir && r.distribution == parent.distribution
    ensures r.debug == parent.debug && r.argv == parent.argv
    ensures r.project.projectType.None?
  {
    var sd := parent.sourcedir + "/" + name;
    Config(parent.debug, parent.argv, sd, parent.builddir + "/" + name, parent.distdir,
           parent.distribution, EmptyDescriptor(""), sd + "/" + Filename(parent.inputpath),
           sd + "/" + BuildFile, parent.directory, "")
  }

  /** The name of every generated build file. */
  const BuildFile := "build.ninja"

  /** Where a package's build file finds a child's, relative to the parent's source directory. */
  function SubninjaPath(name: string): string {
    name + "/" + BuildFile
  }

  function SubninjaLine(name: string): string {
    "subninja " + SubninjaPath(name)
  }

  /** The child reads the input file of the same name from its own source
    * directory, and writes its build file there, at the path the package's
    * `subninja` line names. */
  lemma ChildPaths(parent: Config, name: string)
    ensures Filename(ChildConfig(parent, name).inputpath) == Filename(parent.inputpath)
    ensures ChildConfig(parent, name).outputpath == parent.sourcedir + "/" + SubninjaPath(name)
    ensures Filename(ChildConfig(parent, name).outputpath) == BuildFile
  {
    ChildInput(parent, name);
    ChildOutput(parent, name);
  }

  lemma ChildInput(parent: Config, name: string)
    ensures Filename(ChildConfig(parent, name).inputpath) == Filename(parent.inputpath)
  {
    InputName(parent.sourcedir + "/" + name, parent.inputpath);
  }

  lemma ChildOutput(parent: Config, name: string)
    ensures ChildConfig(parent, name).outputpath == parent.sourcedir + "/" + SubninjaPath(name)
    ensures Filename(ChildConfig(parent, name).outputpath) == BuildFile
  {
    BuildFileName(parent.sourcedir + "/" + name);
  }

  lemma InputName(dir: string, inputpath: string)
    ensures Filename(dir + "/" + Filename(inputpath)) == Filename(inputpath)
  {
    FilenameOfJoin(dir, Filename(inputpath));
  }

  lemma BuildFileName(dir: string)
    ensures Filename(dir + "/" + BuildFile) == BuildFile
  {
    assert '/' !in BuildFile;
    FilenameOfJoin(dir, BuildFile);
  }

  /** The child's trees lie beneath the parent's, its input file beneath its
    * own source directory, and it has no type, so no backend, until its
    * descriptor is read. */
  lemma ChildBeneath(parent: Config, name: string, platform: Platform)
    ensures StartsWith(ChildConfig(parent, name).sourcedir, parent.sourcedir + "/")
    ensures StartsWith(ChildConfig(parent, name).builddir, parent.builddir + "/")
    ensures StartsWith(ChildConfig(parent, name).inputpath, ChildConfig(parent, name).sourcedir + "/")
    ensures ChildConfig(parent, name).project.projectType.None?
    ensures DefaultGenerator(Some(ChildConfig(parent, name).project), platform) == ""
  {
  }

  /** `generateChildProject`: a descriptor that fails to parse gives `false`
    * without generating; otherwise the child, with the backend its type
    * selects, is generated and its result returned. */
  function ChildRun(parent: Config, name: string, env: Env): (r: Status)
    ensures env.parse(ChildConfig(parent, name)).None? ==> r == Failed
  {
    var c := ChildConfig(parent, name);
    match env.parse(c)
    case None => Failed
    case Some(p) => env.generateChild(c.(project := p, generatorname := DefaultGenerator(Some(p), env.platform)))
  }

  /** The outcome of generating each child of a package. */
  function Children(parent: Config, env: Env): string -> Status {
    name => ChildRun(parent, name, env)
  }

  /** The body of the loop for one child: the child is generated, and only a
    * throw stops the `subninja` line from being written. */
  function Subninja(child: string -> Status): string -> Run {
    name => if child(name) == Threw then Run([], Threw) else Ok([SubninjaLine(name)])
  }

  /** One `subninja` line per child, in order. */
  function SubninjaLines(names: seq<string>): (r: seq<string>)
    ensures |r| == |names|
    ensures forall i :: 0 <= i < |names| ==> r[i] == SubninjaLine(names[i])
  {
    if names == [] then [] else SubninjaLines(names[..|names| - 1]) + [SubninjaLine(names[|names| - 1])]
  }

  /** `package::generateBuildStatementsForObjects`. */
  function PackageObjectsRun(cfg: Config, env: Env): Run {
    match cfg.project.sources
    case None => Run([], Threw)
    case Some(names) => Each(names, Subninja(Children(cfg, env)))
  }

  /** While no child throws, the loop writes one `subninja` line per child, in order. */
  lemma {:induction false} SubninjasWritten(child: string -> Status, names: seq<string>)
    requires forall i :: 0 <= i < |names| ==> child(names[i]) != Threw
    ensures Each(names, Subninja(child)) == Ok(SubninjaLines(names))
  {
    if names != [] {
      var n := |names| - 1;
      SubninjasWritten(child, names[..n]);
      assert Subninja(child)(names[n]) == Ok([SubninjaLine(names[n])]);
    }
  }

  /** The step writes one `subninja` line per child, in order, whether or not
    * the child's generation succeeded; the first child that throws ends the
    * step with the lines of the children before it. */
  lemma PackageObjectsOutcome(cfg: Config, env: Env)
    ensures cfg.project.sources.None? ==> PackageObjectsRun(cfg, env) == Run([], Threw)
    ensures cfg.project.sources.Some? ==>
      var names := cfg.project.sources.value;
      && ((forall i :: 0 <= i < |names| ==> ChildRun(cfg, names[i], env) != Threw) ==>
            PackageObjectsRun(cfg, env) == Ok(SubninjaLines(names)))
      && (forall k :: (0 <= k < |names| && ChildRun(cfg, names[k], env) == Threw
                       && forall i :: 0 <= i < k ==> ChildRun(cfg, names[i], env) != Threw) ==>
            PackageObjectsRun(cfg, env) == Run(SubninjaLines(names[..k]), Threw))
  {
    if cfg.project.sources.Some? {
      var names := cfg.project.sources.value;
      var child := Children(cfg, env);
      assert forall i :: 0 <= i < |names| ==> child(names[i]) == ChildRun(cfg, names[i], env);
      SubninjaOutcome(child, names);
    }
  }

  /** The loop over children, for any outcome of generating a child. */
  lemma SubninjaOutcome(child: string -> Status, names: seq<string>)
    ensures (forall i :: 0 <= i < |names| ==> child(names[i]) != Threw) ==>
      Each(names, Subninja(child)) == Ok(SubninjaLines(names))
    ensures forall k :: (0 <= k < |names| && child(names[k]) == Threw
                         && forall i :: 0 <= i < k ==> child(names[i]) != Threw) ==>
      Each(names, Subninja(child)) == Run(SubninjaLines(names[..k]), Threw)
  {
    if forall i :: 0 <= i < |names| ==> child(names[i]) != Threw {
      SubninjasWritten(child, names);
    }
    forall k | 0 <= k < |names| && child(names[k]) == Threw
        && (forall i :: 0 <= i < k ==> child(names[i]) != Threw)
      ensures Each(names, Subninja(child)) == Run(SubninjaLines(names[..k]), Threw)
    {
      SubninjasWritten(child, names[..k]);
      EachStopsAtFirstFailure(names, Subninja(child), k);
    }
  }

  /** The package edge: the package name out, every child directory in. */
  function PackageEdge(p: Project, rule: string): Edge {
    Edge(rule, [p.name], [], p.sources.GetOr([]), [], [], [])
  }

  /** `package::generateBuildStatementsForPackage`. */
  function PackageRun(p: Project, rule: string): Run {
    if p.sources.None? then Run([], Threw) else Ok(Block(PackageEdge(p, rule)))
  }

  /** Read back, the step writes one `build` line: the package name, the
    * rule, then the child directories in order. */
  lemma PackageReadBack(p: Project, rule: string)
    requires p.sources.Some? && IsWord(rule) && IsWord(p.name) && AllWords(p.sources.value)
    ensures PackageRun(p, rule).status == Succeeded
    ensures BuildLines(PackageRun(p, rule).lines) == [EdgeLine(PackageEdge(p, rule))]
    ensures Tokens(EdgeLine(PackageEdge(p, rule))) == ["build", p.name, ":", rule] + p.sources.value
  {
    SingleEdgeReads(PackageEdge(p, rule));
  }

  /** The child's bundle, filled in field by field from the parent's. */
  method ChildBundle(parent: Bundle, name: string) returns (child: Bundle)
    ensures fresh(child) && child.config == ChildConfig(parent.config, name) && child.output == []
  {
    var from := parent.config;
    child := new Bundle(Config(false, [], "", "", "", map[], EmptyDescriptor(""), "", "", "", ""));
    child.config := child.config.(debug := from.debug);
    child.config := child.config.(argv := from.argv);
    child.config := child.config.(sourcedir := from.sourcedir + "/" + name);
    child.config := child.config.(builddir := from.builddir + "/" + name);
    child.config := child.config.(distdir := from.distdir);
    child.config := child.config.(directory := from.directory);
    child.config := child.config.(distribution := from.distribution);
    child.config := child.config.(inputpath := child.config.sourcedir + "/" + Filename(from.inputpath));
    child.config := child.config.(outputpath := child.config.sourcedir + "/" + BuildFile);
  }

  /** `generateChildProject`. */
  method GenerateChild(parent: Bundle, name: string, env: Env) returns (st: Status)
    ensures st == ChildRun(parent.config, name, env)
  {
    var child := ChildBundle(parent, name);
    var parsed := env.parse(child.config);
    if parsed.None? {
      return Failed;
    }
    child.config := child.config.(project := parsed.value);
    child.config := child.config.(generatorname := DefaultGenerator(Some(parsed.value), env.platform));
    st := env.generateChild(child.config);
  }

  /** The body for one child. */
  method EmitSubninja(b: Bundle, name: string, env: Env) returns (st: Status)
    modifies b`output
    ensures b.output == old(b.output) + Subninja(Children(b.config, env))(name).lines
    ensures st == Subninja(Children(b.config, env))(name).status
  {
    var child := GenerateChild(b, name, env);
    assert Children(b.config, env)(name) == child;
    if child == Threw {
      return Threw;
    }
    b.Emit([SubninjaLine(name)]);
    return Succeeded;
  }

  /** Generates every child and writes its `subninja` line. */
  method EmitPackageObjects(b: Bundle, env: Env) returns (st: Status)
    modifies b`output
    ensures b.output == old(b.output) + PackageObjectsRun(b.config, env).lines
    ensures st == PackageObjectsRun(b.config, env).status
  {
    if b.config.project.sources.None? {
      return Threw;
    }
    var names := b.config.project.sources.value;
    var f := Subninja(Children(b.config, env));
    var i := 0;
    while i < |names|
      invariant 0 <= i <= |names|
      invariant f == Subninja(Children(b.config, env))
      invariant Each(names[..i], f).status == Succeeded
      invariant b.output == old(b.output) + Each(names[..i], f).lines
    {
      EachStep(names, i, f);
      ghost var prev := Each(names[..i], f).lines;
      st := EmitSubninja(b, names[i], env);
      Associative(old(b.output), prev, f(names[i]).lines);
      if st != Succeeded {
        EachRest(names, i, f);
        return;
      }
      i := i + 1;
    }
    assert names[..i] == names;
    return Succeeded;
  }

  /** Writes the package edge. */
  method EmitPackage(b: Bundle, p: Project, rule: string) returns (st: Status)
    modifies b`output
    ensures b.output == old(b.output) + PackageRun(p, rule).lines
    ensures st == PackageRun(p, rule).status
  {
    if p.sources.None? {
      return Threw;
    }
    var s := new Statement(rule);
    s.AppendOutput(p.name);
    s.AppendInputs(p.sources.value);
    assert s.Value() == PackageEdge(p, rule);
    b.Emit(s.Text() + [""]);
    return Succeeded;
  }
}
