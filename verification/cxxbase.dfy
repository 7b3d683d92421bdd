/**
 * The C/C++ layer of `src/cxxbase.cpp`, shared by the concrete C/C++
 * backends: object and artifact naming, the header install fan-out, and the
 * objects, application, library, install and targetName steps.
 *
 * A concrete backend supplies its name and the extensions of what it builds
 * as a `Toolchain`. The steps accept only `c_*` and `cxx_*` project types and
 * otherwise return false without writing.
 */
module CxxBase {
  import opened Wrappers
  import opened Strings
  import opened Path
  import opened Statements
  import opened Bundles
  import opened Shinobi

  /** What a concrete C/C++ backend decides: its generator name and the parts
    * of the file names it produces. */
  datatype Toolchain = Toolchain(
    name: string,
    objectExtension: string,
    applicationExtension: string,
    libraryPrefix: string,
    libraryExtension: string)

  /** `isSupportedType`: the type names a C or C++ project. */
  predicate IsSupportedType(t: string) {
    StartsWith(t, "c_") || StartsWith(t, "cxx_")
  }

  /** The object file for a source: its extension replaced, under `$builddir/`. */
  function Object(tc: Toolchain, source: string): string {
    Builddir(ReplaceExtension(source, tc.objectExtension))
  }

  /** `objects`: the object of every source, in order. */
  function Objects(tc: Toolchain, sources: seq<string>): (r: seq<string>)
    ensures |r| == |sources|
  {
    seq(|sources|, i requires 0 <= i < |sources| => Object(tc, sources[i]))
  }

  /** An object lives under `$builddir/` and, for a source with an extension,
    * ends with the object extension. */
  lemma ObjectShape(tc: Toolchain, source: string)
    ensures StartsWith(Object(tc, source), "$builddir/")
    ensures '.' in source ==> |Object(tc, source)| >= |tc.objectExtension|
    ensures '.' in source ==>
      Object(tc, source)[|Object(tc, source)| - |tc.objectExtension|..] == tc.objectExtension
  {
    ReplaceExtensionShape(source, tc.objectExtension);
  }

  /** `executableBase`: `$bindir/<targetName><applicationExtension>`. */
  function ExecutableBase(tc: Toolchain, targetName: string): string {
    "$bindir/" + targetName + tc.applicationExtension
  }

  /** `libraryBase`: `$libdir/`, the prefix unless the target name already starts
    * with it, the target name, the library extension. */
  function LibraryBase(tc: Toolchain, targetName: string): (r: string)
    ensures StartsWith(r, "$libdir/" + tc.libraryPrefix)
    ensures |r| >= |tc.libraryExtension| && r[|r| - |tc.libraryExtension|..] == tc.libraryExtension
  {
    var p := if StartsWith(targetName, tc.libraryPrefix) then "" else tc.libraryPrefix;
    var r := "$libdir/" + p + targetName + tc.libraryExtension;
    assert r == "$libdir/" + (p + targetName) + tc.libraryExtension;
    assert StartsWith(p + targetName, tc.libraryPrefix) by {
      if p == "" { assert p + targetName == targetName; }
      else { assert (p + targetName)[..|p|] == p; }
    }
    assert r[..8 + |tc.libraryPrefix|] == "$libdir/" + (p + targetName)[..|tc.libraryPrefix|];
    r
  }

  /** The library file name always starts with the prefix, exactly once as far as
    * the name is concerned: naming `libfoo` or `foo` gives the same file. */
  lemma LibraryBaseNoDoublePrefix(tc: Toolchain, x: string)
    ensures !StartsWith(x, tc.libraryPrefix) ==>
      LibraryBase(tc, tc.libraryPrefix + x) == LibraryBase(tc, x)
    ensures StartsWith(x, tc.libraryPrefix) ==> LibraryBase(tc, x) == "$libdir/" + x + tc.libraryExtension
    ensures !StartsWith(x, tc.libraryPrefix) ==>
      LibraryBase(tc, x) == "$libdir/" + tc.libraryPrefix + x + tc.libraryExtension
  {
    var p := tc.libraryPrefix;
    assert (p + x)[..|p|] == p;
  }

  // The fixed lines of the C/C++ variables block.
  const CppflagsComment := "# flags for preprocessing C/C++ sources."
  const CflagsComment := "# flags for compiling C objects."
  const CxxflagsComment := "# flags for compiling C++ objects."
  const LdflagsComment := "# flags for linking C/C++ applications and libraries."
  const LdlibsComment := "# libraries to link with."

  /** Each primary flag variable refers to the backend's own: `cxxflags = $<n>_cxxflags`. */
  function FlagVariableLines(n: string): seq<string> {
    [CppflagsComment, "cppflags = $" + n + "_cppflags",
     CflagsComment, "cflags = $" + n + "_cflags",
     CxxflagsComment, "cxxflags = $" + n + "_cxxflags",
     LdflagsComment, "ldflags = $" + n + "_ldflags",
     LdlibsComment, "ldlibs = $" + n + "_ldlibs",
     ""]
  }

  /** `cxxbase::generateVariables`: the base block, then the flag variables. */
  function CxxVariablesRun(tc: Toolchain, cfg: Config, env: Env): Run {
    VariablesRun(cfg, env, tc.name).Then(Ok(FlagVariableLines(tc.name)))
  }

  /** The C/C++ variables fail exactly when the base block does, and then add nothing. */
  lemma CxxVariablesOutcome(tc: Toolchain, cfg: Config, env: Env)
    ensures CxxVariablesRun(tc, cfg, env).status == VariablesRun(cfg, env, tc.name).status
    ensures VariablesRun(cfg, env, tc.name).status != Succeeded ==>
      CxxVariablesRun(tc, cfg, env).lines == VariablesRun(cfg, env, tc.name).lines
    ensures VariablesRun(cfg, env, tc.name).status == Succeeded ==>
      CxxVariablesRun(tc, cfg, env).lines == VariablesRun(cfg, env, tc.name).lines + FlagVariableLines(tc.name)
    ensures |FlagVariableLines(tc.name)| == 11
    ensures FlagVariableLines(tc.name)[5] == "cxxflags = $" + tc.name + "_cxxflags"
  {
  }

  /** The compile edge of one source. */
  function ObjectEdge(tc: Toolchain, source: string, rule: string, deps: seq<string>): Edge {
    Edge(rule, [Object(tc, source)], [], [Sourcedir(source)], [], deps, [])
  }

  function ObjectEdges(tc: Toolchain, p: Project, rule: string): (r: seq<Edge>)
    ensures |r| == |p.sources.GetOr([])|
  {
    var srcs, deps := p.sources.GetOr([]), p.dependencies.GetOr([]);
    seq(|srcs|, i requires 0 <= i < |srcs| => ObjectEdge(tc, srcs[i], rule, deps))
  }

  /** `generateBuildStatementsForObjects`: one compile edge per source, each
    * followed by an empty line. Reading `sources` throws when it is absent. */
  function ObjectsRun(tc: Toolchain, p: Project, t: string, rule: string): (r: Run)
    ensures r.status == Failed <==> !IsSupportedType(t)
    ensures r.status == Threw <==> IsSupportedType(t) && p.sources.None?
    ensures r.status != Succeeded ==> r.lines == []
  {
    if !IsSupportedType(t) then Run([], Failed)
    else if p.sources.None? then Run([], Threw)
    else Ok(Blocks(ObjectEdges(tc, p, rule)))
  }

  /** The names an edge is built from are words, so a reader can split its line. */
  predicate PlainNames(tc: Toolchain, p: Project, rule: string) {
    IsWord(rule) && ' ' !in tc.objectExtension && ' ' !in tc.applicationExtension
    && ' ' !in tc.libraryPrefix && ' ' !in tc.libraryExtension
    && (forall i :: 0 <= i < |p.sources.GetOr([])| ==> ' ' !in p.sources.GetOr([])[i])
    && AllWords(p.dependencies.GetOr([]))
  }

  /** Read back, the objects step has one `build` line per source, in order:
    * the object, the rule, the source under `$sourcedir/`, and the project's
    * dependencies as order-only prerequisites. */
  lemma ObjectsReadBack(tc: Toolchain, p: Project, t: string, rule: string)
    requires IsSupportedType(t) && p.sources.Some? && PlainNames(tc, p, rule)
    ensures ObjectsRun(tc, p, t, rule).status == Succeeded
    ensures |BuildLines(ObjectsRun(tc, p, t, rule).lines)| == |p.sources.value|
    ensures forall i :: 0 <= i < |p.sources.value| ==>
      Tokens(BuildLines(ObjectsRun(tc, p, t, rule).lines)[i])
        == ["build", Object(tc, p.sources.value[i]), ":", rule, Sourcedir(p.sources.value[i])]
           + Marked("||", p.dependencies.GetOr([]))
  {
    var srcs, deps := p.sources.value, p.dependencies.GetOr([]);
    var es := ObjectEdges(tc, p, rule);
    forall i | 0 <= i < |es|
      ensures Wordy(es[i])
      ensures Reading(es[i]) == ["build", Object(tc, srcs[i]), ":", rule, Sourcedir(srcs[i])] + Marked("||", deps)
    {
      ObjectEdgeReads(tc, srcs[i], rule, deps);
    }
    ReadBlocks(es);
  }

  lemma ObjectEdgeReads(tc: Toolchain, source: string, rule: string, deps: seq<string>)
    requires IsWord(rule) && ' ' !in tc.objectExtension && ' ' !in source && AllWords(deps)
    ensures Wordy(ObjectEdge(tc, source, rule, deps))
    ensures Reading(ObjectEdge(tc, source, rule, deps))
      == ["build", Object(tc, source), ":", rule, Sourcedir(source)] + Marked("||", deps)
  {
    ReplaceExtensionSpaceFree(source, tc.objectExtension);
    PathsAreWords(ReplaceExtension(source, tc.objectExtension));
    PathsAreWords(source);
  }

  /** The link edge of an application: every object in, the executable under `$builddir/` out. */
  function ApplicationEdge(tc: Toolchain, p: Project, rule: string): Edge {
    var base := ExecutableBase(tc, TargetName(p, tc.name));
    Edge(rule, [Builddir(base)], [], Objects(tc, p.sources.GetOr([])), [], [], [])
  }

  /** `generateBuildStatementsForApplication`. */
  function ApplicationRun(tc: Toolchain, p: Project, t: string, rule: string): Run {
    if !IsSupportedType(t) then Run([], Failed)
    else if p.sources.None? then Run([], Threw)
    else Ok(Block(ApplicationEdge(tc, p, rule)))
  }

  /** The link edge of a library: every object in, the library under `$builddir/`
    * out, no implicit outputs, and the project's dependencies. */
  function LibraryEdge(tc: Toolchain, p: Project, rule: string): Edge {
    var base := LibraryBase(tc, TargetName(p, tc.name));
    Edge(rule, [Builddir(base)], [], Objects(tc, p.sources.GetOr([])), p.dependencies.GetOr([]), [], [])
  }

  /** `generateBuildStatementsForLibrary`. */
  function LibraryRun(tc: Toolchain, p: Project, t: string, rule: string): Run {
    if !IsSupportedType(t) then Run([], Failed)
    else if p.sources.None? then Run([], Threw)
    else Ok(Block(LibraryEdge(tc, p, rule)))
  }

  /** Read back, the application step writes exactly one `build` line: the
    * executable under `$builddir/`, the rule, then every object in source order. */
  lemma ApplicationReadBack(tc: Toolchain, p: Project, t: string, rule: string)
    requires IsSupportedType(t) && p.sources.Some? && PlainNames(tc, p, rule)
    requires ' ' !in TargetName(p, tc.name)
    ensures ApplicationRun(tc, p, t, rule).status == Succeeded
    ensures |BuildLines(ApplicationRun(tc, p, t, rule).lines)| == 1
    ensures Tokens(BuildLines(ApplicationRun(tc, p, t, rule).lines)[0])
      == ["build", Builddir(ExecutableBase(tc, TargetName(p, tc.name))), ":", rule]
         + Objects(tc, p.sources.value)
  {
    var e := ApplicationEdge(tc, p, rule);
    assert p.sources.GetOr([]) == p.sources.value;
    ObjectsAreWords(tc, p.sources.value);
    assert ' ' !in "$bindir/";
    PathsAreWords(ExecutableBase(tc, TargetName(p, tc.name)));
    SingleEdgeReads(e);
  }

  /** Read back, the library step writes exactly one `build` line: the library
    * under `$builddir/`, the rule, every object in source order, then the
    * project's dependencies after `|`. */
  lemma LibraryReadBack(tc: Toolchain, p: Project, t: string, rule: string)
    requires IsSupportedType(t) && p.sources.Some? && PlainNames(tc, p, rule)
    requires ' ' !in TargetName(p, tc.name)
    ensures LibraryRun(tc, p, t, rule).status == Succeeded
    ensures |BuildLines(LibraryRun(tc, p, t, rule).lines)| == 1
    ensures Tokens(BuildLines(LibraryRun(tc, p, t, rule).lines)[0])
      == ["build", Builddir(LibraryBase(tc, TargetName(p, tc.name))), ":", rule]
         + Objects(tc, p.sources.value) + Marked("|", p.dependencies.GetOr([]))
  {
    var e := LibraryEdge(tc, p, rule);
    assert LibraryRun(tc, p, t, rule) == Ok(Block(e));
    LibraryEdgeWordy(tc, p, rule);
    SingleEdgeReads(e);
    LibraryEdgeReading(tc, p, rule);
  }

  lemma LibraryEdgeReading(tc: Toolchain, p: Project, rule: string)
    requires p.sources.Some?
    ensures Reading(LibraryEdge(tc, p, rule))
      == ["build", Builddir(LibraryBase(tc, TargetName(p, tc.name))), ":", rule]
         + Objects(tc, p.sources.value) + Marked("|", p.dependencies.GetOr([]))
  {
    assert Marked("|", []) == [] && Marked("||", []) == [];
  }

  lemma LibraryEdgeWordy(tc: Toolchain, p: Project, rule: string)
    requires PlainNames(tc, p, rule) && ' ' !in TargetName(p, tc.name)
    ensures Wordy(LibraryEdge(tc, p, rule))
  {
    ObjectsAreWords(tc, p.sources.GetOr([]));
    LibraryBaseSpaceFree(tc, TargetName(p, tc.name));
    PathsAreWords(LibraryBase(tc, TargetName(p, tc.name)));
  }

  lemma LibraryBaseSpaceFree(tc: Toolchain, targetName: string)
    requires ' ' !in tc.libraryPrefix && ' ' !in tc.libraryExtension && ' ' !in targetName
    ensures ' ' !in LibraryBase(tc, targetName)
  {
    assert ' ' !in "$libdir/";
  }

  lemma ObjectsAreWords(tc: Toolchain, sources: seq<string>)
    requires ' ' !in tc.objectExtension
    requires forall i :: 0 <= i < |sources| ==> ' ' !in sources[i]
    ensures AllWords(Objects(tc, sources))
  {
    forall i | 0 <= i < |sources|
      ensures IsWord(Objects(tc, sources)[i])
    {
      ReplaceExtensionSpaceFree(sources[i], tc.objectExtension);
      PathsAreWords(ReplaceExtension(sources[i], tc.objectExtension));
    }
  }

  /** `header(hdr)`: drops the 11 characters of `$sourcedir/`, then the strip
    * prefix and one separator, and places the rest under `$distdir/$includedir/`.
    * Either `substr` throws (None) when the path is too short for its cut. */
  function Header(strip: Option<string>, hdr: string): (r: Option<string>)
    ensures r.Some? <==> |hdr| >= 12 + |strip.GetOr("")|
    ensures r.Some? ==> StartsWith(r.value, "$distdir/$includedir/")
    ensures r.Some? ==> |r.value| == |hdr| - 12 - |strip.GetOr("")| + 21
  {
    var s := strip.GetOr("");
    if |hdr| < 11 then None
    else
      var base := hdr[11..];
      if |s| + 1 > |base| then None else Some(Distdir("$includedir/") + base[|s| + 1..])
  }

  /** A header under `$sourcedir/<strip>/` installs as the rest of its path under
    * `$distdir/$includedir/`, and `header` throws exactly for paths too short to
    * hold the two cuts. */
  lemma HeaderPlacement(strip: Option<string>, sep: char, rest: string, hdr: string)
    ensures Header(strip, Sourcedir(strip.GetOr("") + [sep] + rest)) == Some(Distdir("$includedir/" + rest))
    ensures Header(strip, hdr).None? <==> |hdr| < 11 + |strip.GetOr("")| + 1
  {
    var s := strip.GetOr("");
    var h := Sourcedir(s + [sep] + rest);
    assert h[11..] == s + [sep] + rest;
    assert (s + [sep] + rest)[|s| + 1..] == rest;
    assert Distdir("$includedir/") + rest == Distdir("$includedir/" + rest);
  }

  /** `hdr.substr(top.size() + 1)` rewritten under `$sourcedir/`; the cut throws
    * for a path shorter than the root and its separator. */
  function Relocated(top: string, hdr: string): Option<string> {
    if |hdr| < |top| + 1 then None else Some(Sourcedir(hdr[|top| + 1..]))
  }

  /** Every listed path relocated, or None at the first that throws. */
  function RelocatedAll(top: string, hdrs: seq<string>): (r: Option<seq<string>>)
    ensures r.Some? <==> forall i :: 0 <= i < |hdrs| ==> |hdrs[i]| >= |top| + 1
    ensures r.Some? ==> |r.value| == |hdrs| && forall i :: 0 <= i < |hdrs| ==> StartsWith(r.value[i], "$sourcedir/")
  {
    if hdrs == [] then Some([])
    else
      match RelocatedAll(top, hdrs[..|hdrs| - 1])
      case None => None
      case Some(rs) =>
        match Relocated(top, hdrs[|hdrs| - 1])
        case None => None
        case Some(r) => Some(rs + [r])
  }

  /** The headers under each listed root, root by root; `ls` lists the root's
    * files recursively as paths starting with the root. */
  function HeadersOf(top: string, ls: string -> seq<string>, roots: seq<string>): (r: Option<seq<string>>)
    ensures r.Some? ==> forall i :: 0 <= i < |r.value| ==> StartsWith(r.value[i], "$sourcedir/")
  {
    if roots == [] then Some([])
    else
      match HeadersOf(top, ls, roots[..|roots| - 1])
      case None => None
      case Some(hs) =>
        match RelocatedAll(top, ls(top + "/" + roots[|roots| - 1]))
        case None => None
        case Some(rs) => Some(hs + rs)
  }

  /** `headers()`: nothing without a `headers` key. */
  function Headers(cfg: Config, env: Env): (r: Option<seq<string>>)
    ensures cfg.project.headers.None? ==> r == Some([])
    ensures r.Some? ==> forall i :: 0 <= i < |r.value| ==> StartsWith(r.value[i], "$sourcedir/")
  {
    match cfg.project.headers
    case None => Some([])
    case Some(roots) => HeadersOf(cfg.sourcedir, env.ls, roots)
  }

  /** Files listed beneath the source root are all found, in order, each under
    * `$sourcedir/` with the root and separator removed. */
  lemma {:induction false} RelocatedBeneath(top: string, hdrs: seq<string>)
    requires forall i :: 0 <= i < |hdrs| ==> StartsWith(hdrs[i], top + "/")
    ensures RelocatedAll(top, hdrs).Some?
    ensures |RelocatedAll(top, hdrs).value| == |hdrs|
    ensures forall i :: 0 <= i < |hdrs| ==>
      |top| + 1 <= |hdrs[i]| && RelocatedAll(top, hdrs).value[i] == Sourcedir(hdrs[i][|top| + 1..])
  {
    if hdrs != [] {
      var n := |hdrs| - 1;
      RelocatedBeneath(top, hdrs[..n]);
      assert StartsWith(hdrs[n], top + "/");
    }
  }

  /** A listed path shorter than the root and its separator makes `headers()` throw. */
  lemma {:induction false} RelocatedThrows(top: string, hdrs: seq<string>, k: nat)
    requires k < |hdrs| && |hdrs[k]| < |top| + 1
    ensures RelocatedAll(top, hdrs).None?
  {
    var n := |hdrs| - 1;
    if k < n {
      assert hdrs[..n][k] == hdrs[k];
      RelocatedThrows(top, hdrs[..n], k);
    }
  }

  /** The install path of every header, or None at the first that throws. */
  function HeaderOutputs(strip: Option<string>, hdrs: seq<string>): Option<seq<string>> {
    if hdrs == [] then Some([])
    else
      match HeaderOutputs(strip, hdrs[..|hdrs| - 1])
      case None => None
      case Some(os) =>
        match Header(strip, hdrs[|hdrs| - 1])
        case None => None
        case Some(o) => Some(os + [o])
  }

  /** `extraInputsForTargetName`: the base list, then for a library the install
    * path of every header; a throw in either propagates. */
  function ExtraInputs(cfg: Config, env: Env, t: string): (r: Option<seq<string>>)
    ensures ExtraInputsForTargetName(cfg.project).None? ==> r.None?
    ensures !IsLibraryType(t) ==> r == ExtraInputsForTargetName(cfg.project)
    ensures r.Some? ==> ExtraInputsForTargetName(cfg.project).value <= r.value
  {
    match ExtraInputsForTargetName(cfg.project)
    case None => None
    case Some(base) =>
      if !IsLibraryType(t) then Some(base)
      else
        match Headers(cfg, env)
        case None => None
        case Some(hs) =>
          match HeaderOutputs(cfg.project.headersStripPrefix, hs)
          case None => None
          case Some(os) => Some(base + os)
  }

  /** The header install paths are exactly those `header` gives, in order. */
  lemma {:induction false} HeaderOutputsMap(strip: Option<string>, hdrs: seq<string>)
    requires forall i :: 0 <= i < |hdrs| ==> Header(strip, hdrs[i]).Some?
    ensures HeaderOutputs(strip, hdrs).Some?
    ensures |HeaderOutputs(strip, hdrs).value| == |hdrs|
    ensures forall i :: 0 <= i < |hdrs| ==> HeaderOutputs(strip, hdrs).value[i] == Header(strip, hdrs[i]).value
  {
    if hdrs != [] {
      HeaderOutputsMap(strip, hdrs[..|hdrs| - 1]);
    }
  }

  /** The copy edge of one header. */
  function CopyEdge(hdr: string, out: string): Edge {
    Edge("copy", [out], [], [hdr], [], [], [])
  }

  /** The loop body for one header: its copy edge, or a throw from `header`. */
  function CopyHeader(strip: Option<string>): string -> Run {
    hdr =>
      match Header(strip, hdr)
      case None => Run([], Threw)
      case Some(out) => Ok(Block(CopyEdge(hdr, out)))
  }

  /** The header copies of the install step: only for a library, which is not also an application. */
  function HeaderCopiesRun(cfg: Config, env: Env, t: string): Run {
    if IsApplicationType(t) || !IsLibraryType(t) then Ok([])
    else
      match Headers(cfg, env)
      case None => Run([], Threw)
      case Some(hs) => Each(hs, CopyHeader(cfg.project.headersStripPrefix))
  }

  /** The final `install` edge: build path to dist path of the executable or the
    * library, and an empty edge for any other type. */
  function InstallEdge(tc: Toolchain, p: Project, t: string): Edge {
    var tn := TargetName(p, tc.name);
    if IsApplicationType(t) then
      Edge("install", [Distdir(ExecutableBase(tc, tn))], [], [Builddir(ExecutableBase(tc, tn))], [], [], [])
    else if IsLibraryType(t) then
      Edge("install", [Distdir(LibraryBase(tc, tn))], [], [Builddir(LibraryBase(tc, tn))], [], [], [])
    else NewEdge("install")
  }

  /** `generateBuildStatementsForInstall`: the base install edges, the header
    * copies, then the `install` edge. */
  function CxxInstallRun(tc: Toolchain, cfg: Config, env: Env, t: string, rule: string): Run {
    if !IsSupportedType(t) then Run([], Failed)
    else InstallRun(cfg.project, rule).Then(HeaderCopiesRun(cfg, env, t)).Then(Ok(Block(InstallEdge(tc, cfg.project, t))))
  }

  /** The install step writes the base install edges, then one `copy` edge per
    * header in order, then the `install` edge, which moves the built artifact
    * into the dist tree; when a header path is too short it throws after the
    * copies before it and writes no `install` edge. */
  lemma CxxInstallOrder(tc: Toolchain, cfg: Config, env: Env, t: string, rule: string)
    requires IsSupportedType(t)
    ensures InstallEdge(tc, cfg.project, t).inputs == [] <==> !IsApplicationType(t) && !IsLibraryType(t)
    ensures forall x :: InstallEdge(tc, cfg.project, t).inputs == [Builddir(x)] ==>
              InstallEdge(tc, cfg.project, t).outputs == [Distdir(x)]
    ensures InstallRun(cfg.project, rule).status == Threw ==>
      CxxInstallRun(tc, cfg, env, t, rule) == InstallRun(cfg.project, rule)
    ensures IsLibraryType(t) && !IsApplicationType(t) && Headers(cfg, env).Some?
            && InstallRun(cfg.project, rule).status == Succeeded ==>
      var hs, strip := Headers(cfg, env).value, cfg.project.headersStripPrefix;
      (forall i :: 0 <= i < |hs| ==> Header(strip, hs[i]).Some?) ==>
        CxxInstallRun(tc, cfg, env, t, rule) ==
          Ok(InstallRun(cfg.project, rule).lines
             + Blocks(seq(|hs|, i requires 0 <= i < |hs| => CopyEdge(hs[i], Header(strip, hs[i]).value)))
             + Block(InstallEdge(tc, cfg.project, t)))
  {
    var p := cfg.project;
    var tn := TargetName(p, tc.name);
    forall x | InstallEdge(tc, p, t).inputs == [Builddir(x)]
      ensures InstallEdge(tc, p, t).outputs == [Distdir(x)]
    {
      if IsApplicationType(t) {
        PrefixesDistinct(x, ExecutableBase(tc, tn));
      } else {
        PrefixesDistinct(x, LibraryBase(tc, tn));
      }
    }
    if IsLibraryType(t) && !IsApplicationType(t) && Headers(cfg, env).Some? {
      var hs, strip := Headers(cfg, env).value, p.headersStripPrefix;
      if forall i :: 0 <= i < |hs| ==> Header(strip, hs[i]).Some? {
        var es := seq(|hs|, i requires 0 <= i < |hs| => CopyEdge(hs[i], Header(strip, hs[i]).value));
        CopiesAreBlocks(strip, hs, es);
      }
    }
  }

  /** When no header throws, the copy loop writes the copy edges as blocks. */
  lemma {:induction false} CopiesAreBlocks(strip: Option<string>, hs: seq<string>, es: seq<Edge>)
    requires forall i :: 0 <= i < |hs| ==> Header(strip, hs[i]).Some?
    requires |es| == |hs| && forall i :: 0 <= i < |hs| ==> es[i] == CopyEdge(hs[i], Header(strip, hs[i]).value)
    ensures Each(hs, CopyHeader(strip)) == Ok(Blocks(es))
  {
    if hs != [] {
      var n := |hs| - 1;
      CopiesAreBlocks(strip, hs[..n], es[..n]);
      assert es[..n] == es[..|es| - 1];
    }
  }

  /** The phony edge for the target: the executable's dist path for an
    * application (named `$sourcedir/`), the library's for a library (named by
    * the target name), nothing for another type; then the extra inputs. */
  function TargetNameEdge(tc: Toolchain, p: Project, t: string, rule: string, extra: seq<string>): Edge {
    var tn := TargetName(p, tc.name);
    var e :=
      if IsApplicationType(t) then Edge(rule, [Sourcedir("")], [], [Distdir(ExecutableBase(tc, tn))], [], [], [])
      else if IsLibraryType(t) then Edge(rule, [tn], [], [Distdir(LibraryBase(tc, tn))], [], [], [])
      else NewEdge(rule);
    e.(inputs := e.inputs + extra)
  }

  /** `generateBuildStatementsForTargetName`: the edge between empty lines; the
    * extra inputs are gathered first, so a throw there writes nothing. */
  function CxxTargetNameRun(tc: Toolchain, cfg: Config, env: Env, t: string, rule: string): Run {
    if !IsSupportedType(t) then Run([], Failed)
    else
      match ExtraInputs(cfg, env, t)
      case None => Run([], Threw)
      case Some(extra) => Ok([""] + Render(TargetNameEdge(tc, cfg.project, t, rule, extra)) + [""])
  }

  /** A library's target depends on the installed library, then every installed
    * file, then every installed header, in that order. */
  lemma LibraryTargetInputs(tc: Toolchain, cfg: Config, env: Env, t: string, rule: string)
    requires IsSupportedType(t) && IsLibraryType(t) && !IsApplicationType(t)
    requires Headers(cfg, env).Some?
    requires forall i :: 0 <= i < |Headers(cfg, env).value| ==>
               Header(cfg.project.headersStripPrefix, Headers(cfg, env).value[i]).Some?
    ensures ExtraInputsForTargetName(cfg.project).None? ==> CxxTargetNameRun(tc, cfg, env, t, rule) == Run([], Threw)
    ensures ExtraInputsForTargetName(cfg.project).Some? <==> ExtraInputs(cfg, env, t).Some?
    ensures ExtraInputsForTargetName(cfg.project).Some? ==>
      var hs := Headers(cfg, env).value;
      var e := TargetNameEdge(tc, cfg.project, t, rule, ExtraInputs(cfg, env, t).value);
      CxxTargetNameRun(tc, cfg, env, t, rule).status == Succeeded
      && e.outputs == [TargetName(cfg.project, tc.name)]
      && |e.inputs| == 1 + |cfg.project.installFiles.GetOr([])| + |hs|
      && e.inputs[0] == Distdir(LibraryBase(tc, TargetName(cfg.project, tc.name)))
      && e.inputs[1..1 + |cfg.project.installFiles.GetOr([])|] == ExtraInputsForTargetName(cfg.project).value
      && forall i :: 0 <= i < |hs| ==>
           e.inputs[1 + |cfg.project.installFiles.GetOr([])| + i] == Header(cfg.project.headersStripPrefix, hs[i]).value
  {
    var hs, strip := Headers(cfg, env).value, cfg.project.headersStripPrefix;
    HeaderOutputsMap(strip, hs);
    ExtraInputsAreInstallOutputs(cfg.project, rule);
    if ExtraInputsForTargetName(cfg.project).None? {
      return;
    }
    var base := ExtraInputsForTargetName(cfg.project).value;
    var os := HeaderOutputs(strip, hs).value;
    var e := TargetNameEdge(tc, cfg.project, t, rule, base + os);
    var lib := Distdir(LibraryBase(tc, TargetName(cfg.project, tc.name)));
    assert e.inputs == [lib] + (base + os);
    assert e.inputs[1..1 + |base|] == base;
  }

  /** Every step refuses a type outside `c_*` and `cxx_*` and writes nothing. */
  lemma UnsupportedWritesNothing(tc: Toolchain, cfg: Config, env: Env, t: string, rule: string)
    requires !IsSupportedType(t)
    ensures ObjectsRun(tc, cfg.project, t, rule) == Run([], Failed)
    ensures ApplicationRun(tc, cfg.project, t, rule) == Run([], Failed)
    ensures LibraryRun(tc, cfg.project, t, rule) == Run([], Failed)
    ensures CxxInstallRun(tc, cfg, env, t, rule) == Run([], Failed)
    ensures CxxTargetNameRun(tc, cfg, env, t, rule) == Run([], Failed)
  {
  }

  /** Writes the base variables and the C/C++ flag variables. */
  method EmitCxxVariables(b: Bundle, tc: Toolchain, cfg: Config, env: Env) returns (st: Status)
    modifies b`output
    ensures b.output == old(b.output) + CxxVariablesRun(tc, cfg, env).lines
    ensures st == CxxVariablesRun(tc, cfg, env).status
  {
    ghost var o := b.output;
    st := EmitVariables(b, cfg, env, tc.name);
    if st == Succeeded {
      var flags := FlagVariableLines(tc.name);
      b.Emit(flags);
      Associative(o, VariablesRun(cfg, env, tc.name).lines, flags);
    }
  }

  /** The statement for one source's compile edge. */
  method ObjectStatement(tc: Toolchain, source: string, rule: string, deps: seq<string>) returns (s: Statement)
    ensures fresh(s) && s.Value() == ObjectEdge(tc, source, rule, deps)
  {
    s := new Statement(rule);
    s.AppendInput(Sourcedir(source));
    s.AppendOutput(Object(tc, source));
    s.AppendOrderOnlyDependencies(deps);
  }

  /** Writes one compile edge per source. */
  method EmitObjects(b: Bundle, tc: Toolchain, p: Project, t: string, rule: string) returns (st: Status)
    modifies b`output
    ensures b.output == old(b.output) + ObjectsRun(tc, p, t, rule).lines
    ensures st == ObjectsRun(tc, p, t, rule).status
  {
    if !IsSupportedType(t) {
      return Failed;
    }
    if p.sources.None? {
      return Threw;
    }
    var srcs, deps := p.sources.value, p.dependencies.GetOr([]);
    ghost var es := ObjectEdges(tc, p, rule);
    var i := 0;
    while i < |srcs|
      invariant 0 <= i <= |srcs|
      invariant b.output == old(b.output) + Blocks(es[..i])
    {
      var s := ObjectStatement(tc, srcs[i], rule, deps);
      assert s.Value() == es[i];
      var block := s.Text() + [""];
      b.Emit(block);
      BlocksSnoc(es, i);
      Associative(old(b.output), Blocks(es[..i]), block);
      i := i + 1;
    }
    assert es[..i] == es;
    return Succeeded;
  }

  /** Writes the application's link edge. */
  method EmitApplication(b: Bundle, tc: Toolchain, p: Project, t: string, rule: string) returns (st: Status)
    modifies b`output
    ensures b.output == old(b.output) + ApplicationRun(tc, p, t, rule).lines
    ensures st == ApplicationRun(tc, p, t, rule).status
  {
    if !IsSupportedType(t) {
      return Failed;
    }
    if p.sources.None? {
      return Threw;
    }
    var s := new Statement(rule);
    s.AppendInputs(Objects(tc, p.sources.value));
    s.AppendOutput(Builddir(ExecutableBase(tc, TargetName(p, tc.name))));
    assert s.Value() == ApplicationEdge(tc, p, rule);
    b.Emit(s.Text() + [""]);
    return Succeeded;
  }

  /** Writes the library's link edge. */
  method EmitLibrary(b: Bundle, tc: Toolchain, p: Project, t: string, rule: string) returns (st: Status)
    modifies b`output
    ensures b.output == old(b.output) + LibraryRun(tc, p, t, rule).lines
    ensures st == LibraryRun(tc, p, t, rule).status
  {
    if !IsSupportedType(t) {
      return Failed;
    }
    if p.sources.None? {
      return Threw;
    }
    var s := new Statement(rule);
    s.AppendInputs(Objects(tc, p.sources.value));
    s.AppendOutput(Builddir(LibraryBase(tc, TargetName(p, tc.name))));
    s.AppendImplicitOutputs([]);
    if p.dependencies.Some? {
      s.AppendDependencies(p.dependencies.value);
    }
    assert s.Value() == LibraryEdge(tc, p, rule);
    b.Emit(s.Text() + [""]);
    return Succeeded;
  }

  /** Writes one copy edge per header, stopping with a throw at a header `header` rejects. */
  method EmitHeaderCopies(b: Bundle, cfg: Config, env: Env, t: string) returns (st: Status)
    modifies b`output
    ensures b.output == old(b.output) + HeaderCopiesRun(cfg, env, t).lines
    ensures st == HeaderCopiesRun(cfg, env, t).status
  {
    if IsApplicationType(t) || !IsLibraryType(t) {
      return Succeeded;
    }
    var found := Headers(cfg, env);
    if found.None? {
      return Threw;
    }
    st := EmitCopies(b, found.value, cfg.project.headersStripPrefix);
  }

  /** The loop over the headers. */
  method EmitCopies(b: Bundle, hs: seq<string>, strip: Option<string>) returns (st: Status)
    modifies b`output
    ensures b.output == old(b.output) + Each(hs, CopyHeader(strip)).lines
    ensures st == Each(hs, CopyHeader(strip)).status
  {
    var f := CopyHeader(strip);
    var i := 0;
    while i < |hs|
      invariant 0 <= i <= |hs|
      invariant Each(hs[..i], f).status == Succeeded
      invariant b.output == old(b.output) + Each(hs[..i], f).lines
    {
      EachStep(hs, i, f);
      ghost var prev := Each(hs[..i], f).lines;
      st := EmitCopy(b, hs[i], strip);
      Associative(old(b.output), prev, f(hs[i]).lines);
      if st != Succeeded {
        EachRest(hs, i, f);
        return;
      }
      i := i + 1;
    }
    assert hs[..i] == hs;
    return Succeeded;
  }

  /** The body for one header: its copy edge, or a throw from `header`. */
  method EmitCopy(b: Bundle, hdr: string, strip: Option<string>) returns (st: Status)
    modifies b`output
    ensures b.output == old(b.output) + CopyHeader(strip)(hdr).lines
    ensures st == CopyHeader(strip)(hdr).status
  {
    var out := Header(strip, hdr);
    if out.None? {
      return Threw;
    }
    var s := new Statement("copy");
    s.AppendInput(hdr);
    s.AppendOutput(out.value);
    assert s.Value() == CopyEdge(hdr, out.value);
    b.Emit(s.Text() + [""]);
    return Succeeded;
  }

  /** The statement for the final `install` edge. */
  method InstallStatement(tc: Toolchain, p: Project, t: string) returns (s: Statement)
    ensures fresh(s) && s.Value() == InstallEdge(tc, p, t)
  {
    s := new Statement("install");
    var tn := TargetName(p, tc.name);
    if IsApplicationType(t) {
      var base := ExecutableBase(tc, tn);
      s.AppendInput(Builddir(base));
      s.AppendOutput(Distdir(base));
    } else if IsLibraryType(t) {
      var base := LibraryBase(tc, tn);
      s.AppendInput(Builddir(base));
      s.AppendOutput(Distdir(base));
    }
  }

  /** Writes the install step. */
  method EmitCxxInstall(b: Bundle, tc: Toolchain, cfg: Config, env: Env, t: string, rule: string) returns (st: Status)
    modifies b`output
    ensures b.output == old(b.output) + CxxInstallRun(tc, cfg, env, t, rule).lines
    ensures st == CxxInstallRun(tc, cfg, env, t, rule).status
  {
    if !IsSupportedType(t) {
      return Failed;
    }
    ghost var o := b.output;
    ghost var base := InstallRun(cfg.project, rule).lines;
    ghost var copies := HeaderCopiesRun(cfg, env, t);
    st := EmitInstall(b, cfg.project, rule);
    if st != Succeeded {
      return;
    }
    st := EmitHeaderCopies(b, cfg, env, t);
    Associative(o, base, copies.lines);
    if st != Succeeded {
      return;
    }
    var s := InstallStatement(tc, cfg.project, t);
    var block := s.Text() + [""];
    b.Emit(block);
    Associative(o, base + copies.lines, block);
  }

  /** Writes the phony edge for the target name. */
  method EmitCxxTargetName(b: Bundle, tc: Toolchain, cfg: Config, env: Env, t: string, rule: string) returns (st: Status)
    modifies b`output
    ensures b.output == old(b.output) + CxxTargetNameRun(tc, cfg, env, t, rule).lines
    ensures st == CxxTargetNameRun(tc, cfg, env, t, rule).status
  {
    if !IsSupportedType(t) {
      return Failed;
    }
    var p := cfg.project;
    var tn := TargetName(p, tc.name);
    var s := new Statement(rule);
    if IsApplicationType(t) {
      s.AppendInput(Distdir(ExecutableBase(tc, tn)));
      s.AppendOutput(Sourcedir(""));
    } else if IsLibraryType(t) {
      s.AppendInput(Distdir(LibraryBase(tc, tn)));
      s.AppendOutput(tn);
    }
    var extra := ExtraInputs(cfg, env, t);
    if extra.None? {
      return Threw;
    }
    s.AppendInputs(extra.value);
    assert s.Value() == TargetNameEdge(tc, p, t, rule, extra.value);
    b.Emit([""] + s.Text() + [""]);
    return Succeeded;
  }
}
