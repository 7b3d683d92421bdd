/**
 * The defaults of the front end in `src/main.cpp`: the backend chosen for a
 * project type, the distribution directory layout, and the settings in force
 * before the command line is read.
 */
module Defaults {
  import opened Wrappers
  import opened Strings
  import opened Bundles

  /** `defaultGenerator`: C and C++ projects use the platform's compiler,
    * Java projects `javac`; anything else, and a missing project or type
    * (the lookups that throw and are caught), yield no backend. */
  function DefaultGenerator(project: Option<Project>, platform: Platform): (r: string)
    ensures r in {"msvc", "gcc", "javac", ""}
  {
    if project.None? || project.value.projectType.None? then ""
    else
      var t := project.value.projectType.value;
      if StartsWith(t, "c_") || StartsWith(t, "cxx_") then (if platform == Windows then "msvc" else "gcc")
      else if StartsWith(t, "java_") then "javac"
      else ""
  }

  /** The backend follows the type's prefix: each name is chosen for exactly
    * its prefixes, `msvc` only on Windows and `gcc` only elsewhere. */
  lemma DefaultGeneratorChoice(project: Option<Project>, platform: Platform)
    ensures var r := DefaultGenerator(project, platform);
      var typed := project.Some? && project.value.projectType.Some?;
      var t := if typed then project.value.projectType.value else "";
      && (r == "msvc" <==> typed && (StartsWith(t, "c_") || StartsWith(t, "cxx_")) && platform == Windows)
      && (r == "gcc" <==> typed && (StartsWith(t, "c_") || StartsWith(t, "cxx_")) && platform != Windows)
      && (r == "javac" <==> typed && StartsWith(t, "java_"))
      && (r == "" <==> !typed || !(StartsWith(t, "c_") || StartsWith(t, "cxx_") || StartsWith(t, "java_")))
  {
    if project.Some? && project.value.projectType.Some? {
      var t := project.value.projectType.value;
      if StartsWith(t, "java_") {
        assert t[0] == 'j';
      }
    }
  }

  /** The keys of the default distribution, in the order they are listed. */
  const DistributionKeys := ["archive", "library", "runtime", "prefix", "exec_prefix", "bindir", "sbindir",
    "libexec", "datarootdir", "datadir", "sysconfdir", "sharedstatedir", "localstatedir", "runstatedir",
    "includedir", "docdir", "infodir", "htmldir", "dvidir", "psdir", "libdir", "lispdir", "localedir"]

  /** `defaultDistribution`: GNU-style installation directories, with
    * libraries and executables placed through `libdir` and `bindir`. */
  const DefaultDistribution: map<string, string> := map[
    "archive" := "$libdir", "library" := "$libdir", "runtime" := "$bindir",
    "prefix" := "", "exec_prefix" := "$prefix", "bindir" := "$exec_prefix/bin",
    "sbindir" := "$exec_prefix/sbin", "libexec" := "$exec_prefix/libexec",
    "datarootdir" := "$prefix/share", "datadir" := "$prefix/share", "sysconfdir" := "$prefix/etc",
    "sharedstatedir" := "$prefix/com", "localstatedir" := "$prefix/var", "runstatedir" := "$localstatedir/run",
    "includedir" := "$prefix/include", "docdir" := "$datarootdir/doc/ngen", "infodir" := "$datarootdir/info",
    "htmldir" := "$docdir", "dvidir" := "$docdir", "psdir" := "$psdir", "libdir" := "$exec_prefix/lib",
    "lispdir" := "$datarootdir/emacs/site-lisp", "localedir" := "$datarootdir/locale"]

  predicate Distinct(xs: seq<string>) {
    forall i, j :: 0 <= i < j < |xs| ==> xs[i] != xs[j]
  }

  /** Distinct elements make a set as large as the list. */
  lemma {:induction false} DistinctCard(xs: seq<string>)
    requires Distinct(xs)
    ensures |set x | x in xs| == |xs|
  {
    if xs != [] {
      var n := |xs| - 1;
      DistinctCard(xs[..n]);
      assert (set x | x in xs) == (set x | x in xs[..n]) + {xs[n]};
      assert xs[n] !in (set x | x in xs[..n]);
    }
  }

  lemma DistributionKeysDistinct()
    ensures |DistributionKeys| == 23 && Distinct(DistributionKeys)
  {
  }

  lemma DistributionKeysListed()
    ensures DefaultDistribution.Keys == set k | k in DistributionKeys
  {
  }

  /** The default distribution has exactly the 23 listed directories. */
  lemma DefaultDistributionKeys()
    ensures |DefaultDistribution.Keys| == 23
    ensures forall k :: k in DistributionKeys <==> k in DefaultDistribution
  {
    DistributionKeysDistinct();
    DistributionKeysListed();
    DistinctCard(DistributionKeys);
  }

  /** Executables go to `$exec_prefix/bin`, libraries to `$exec_prefix/lib`,
    * run-time files (executables and Windows shared libraries) to `bindir`. */
  lemma DefaultDistributionLayout()
    ensures DefaultDistribution["bindir"] == "$exec_prefix/bin" && DefaultDistribution["libdir"] == "$exec_prefix/lib"
    ensures DefaultDistribution["runtime"] == "$bindir" && DefaultDistribution["includedir"] == "$prefix/include"
  {
  }

  /** The settings before the command line is read: sources in `.`, build
    * artifacts in `build`, redistributables in `dist`, input `ngen.json`,
    * output `build.ninja`, verbose, and no project read yet. */
  const DefaultConfig := Config(true, [], ".", "build", "dist", DefaultDistribution, EmptyDescriptor(""),
                                "ngen.json", "build.ninja", "", "")
}
