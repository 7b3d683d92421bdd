/**
 * The data the generator works on: the project descriptor read from the
 * input file, the bundle of settings shared by the front end and the
 * backends, and the outcome of a generation step.
 *
 * JSON values are given Dafny types: an absent key is `None`, an array of
 * strings a `seq<string>`, an object of strings a `map`, and a backend's flag
 * block an ordered list of entries (the JSON library iterates objects in key
 * order). A value of the wrong JSON type is excluded by these types rather
 * than modelled as the library's type error.
 */
module Bundles {
  import opened Wrappers

  /** A flag-block value: a string or an array of strings. */
  datatype FlagValue = Str(s: string) | Words(ws: seq<string>) {
    /** What a range-for over the JSON value visits: the array's elements, or
      * the string itself once. */
    function Items(): (r: seq<string>)
      ensures Str? ==> r == [s]
      ensures Words? ==> r == ws
    {
      match this
      case Str(s) => [s]
      case Words(ws) => ws
    }
  }

  datatype Flag = Flag(key: string, value: FlagValue)

  /** An entry of `install_files`: `input`, `output` and `executable`, any of
    * which the entry may lack. */
  datatype InstallFile = InstallFile(input: Option<string>, output: Option<string>, executable: Option<bool>)

  /** The project descriptor: the keys of the input file the generator reads. */
  datatype Descriptor = Descriptor(
    name: string,                              // "project"
    projectType: Option<string>,               // "type"
    version: Option<string>,                   // "version"
    sources: Option<seq<string>>,              // "sources"
    headers: Option<seq<string>>,              // "headers"
    headersStripPrefix: Option<string>,        // "headers_strip_prefix"
    installFiles: Option<seq<InstallFile>>,    // "install_files"
    dependencies: Option<seq<string>>,         // "dependencies"
    distribution: Option<map<string, string>>, // "distribution"
    variables: Option<seq<string>>,            // "variables"
    blocks: map<string, seq<Flag>>)            // one object per backend name, e.g. "msvc", "cmake", "external"

  /** The first entry of a block with the given key. */
  function Lookup(block: seq<Flag>, key: string): (r: Option<FlagValue>)
    ensures r.None? <==> forall i :: 0 <= i < |block| ==> block[i].key != key
    ensures r.Some? ==> exists i :: 0 <= i < |block| && block[i] == Flag(key, r.value)
                                   && forall j :: 0 <= j < i ==> block[j].key != key
  {
    if block == [] then None
    else if block[0].key == key then Some(block[0].value)
    else
      var r := Lookup(block[1..], key);
      if r.Some? then
        var i :| 0 <= i < |block| - 1 && block[1..][i] == Flag(key, r.value)
                 && forall j :: 0 <= j < i ==> block[1..][j].key != key;
        assert block[i + 1] == Flag(key, r.value) && forall j :: 0 <= j < i + 1 ==> block[j].key != key;
        r
      else r
  }

  /** The block for a backend name, if the descriptor has one. */
  function FlagBlock(d: Descriptor, generator: string): Option<seq<Flag>> {
    if generator in d.blocks then Some(d.blocks[generator]) else None
  }

  /** Where the source reads a string out of a block, the value is one:
    * `targetName` in any block, every entry of the `cmake` block. */
  predicate Typed(d: Descriptor) {
    forall g :: g in d.blocks ==>
      !Lookup(d.blocks[g], "targetName").Some?
      || Lookup(d.blocks[g], "targetName").value.Str?
  }

  predicate CmakeTyped(d: Descriptor) {
    "cmake" in d.blocks ==>
      forall i :: 0 <= i < |d.blocks["cmake"]| ==> d.blocks["cmake"][i].value.Str?
  }

  /** The descriptor with no keys but its name. */
  function EmptyDescriptor(name: string): Descriptor {
    Descriptor(name, None, None, None, None, None, None, None, None, None, map[])
  }

  type Project = d: Descriptor | Typed(d) && CmakeTyped(d) witness EmptyDescriptor("")

  /** The platform the program was built for. */
  datatype Platform = Windows | Linux | Unknown

  /** The settings a generator reads from its bundle. */
  datatype Config = Config(
    debug: bool,
    argv: seq<string>,
    sourcedir: string,
    builddir: string,
    distdir: string,
    distribution: map<string, string>,
    project: Project,
    inputpath: string,
    outputpath: string,
    directory: string,
    generatorname: string)

  /**
   * What the generator relies on but does not define: the platform it was
   * built for, the key order of `sortedDistributionKeys()`, the shell text
   * of each rule's `command` binding on that platform, the directory lister
   * `ls`, `std::quoted`, and, for a child project, `parse` and the
   * `generate()` of the generator `makeGenerator` returns for it.
   */
  datatype Env = Env(
    platform: Platform,
    sortedKeys: seq<string>,
    command: string -> string,
    ls: string -> seq<string>,
    quote: string -> string,
    parse: Config -> Option<Project>,
    generateChild: Config -> Status)

  /** How a step ends: `true`, `false`, or an exception. */
  datatype Status = Succeeded | Failed | Threw

  /** The lines a step writes and how it ends. A step that throws keeps what it
    * wrote before the throw. */
  datatype Run = Run(lines: seq<string>, status: Status) {

    /** `if (!this) return false; next`: `next` runs only after success. */
    function Then(next: Run): (r: Run)
      ensures status == Succeeded ==> r == Run(lines + next.lines, next.status)
      ensures status != Succeeded ==> r == this
    {
      if status == Succeeded then Run(lines + next.lines, next.status) else this
    }
  }

  /** Lines written by a step that returns true. */
  function Ok(lines: seq<string>): Run {
    Run(lines, Succeeded)
  }

  /** `if (!step) log(...)`: a `false` is only logged; an exception still propagates. */
  function Ignored(r: Run): (q: Run)
    ensures q.lines == r.lines
    ensures q.status == (if r.status == Threw then Threw else Succeeded)
  {
    Run(r.lines, if r.status == Threw then Threw else Succeeded)
  }

  /** A loop over `xs` whose body for `x` is the step `f(x)`, stopping at the
    * first body that does not succeed. */
  function Each<X>(xs: seq<X>, f: X -> Run): Run {
    if xs == [] then Ok([]) else Each(xs[..|xs| - 1], f).Then(f(xs[|xs| - 1]))
  }

  /** Running one more body after a loop that succeeded. */
  lemma EachStep<X>(xs: seq<X>, i: nat, f: X -> Run)
    requires i < |xs|
    ensures Each(xs[..i + 1], f) == Each(xs[..i], f).Then(f(xs[i]))
  {
    assert xs[..i + 1][..i] == xs[..i];
  }

  /** A loop whose every body succeeds succeeds, and writes the bodies' lines in order. */
  lemma {:induction false} EachAllSucceed<X>(xs: seq<X>, f: X -> Run)
    requires forall i :: 0 <= i < |xs| ==> f(xs[i]).status == Succeeded
    ensures Each(xs, f).status == Succeeded
    ensures |xs| > 0 ==> Each(xs, f).lines == Each(xs[..|xs| - 1], f).lines + f(xs[|xs| - 1]).lines
  {
    if xs != [] {
      EachAllSucceed(xs[..|xs| - 1], f);
    }
  }

  /** A loop whose bodies never return false never returns false, and it
    * succeeds exactly when every body does. */
  lemma {:induction false} EachOutcome<X>(xs: seq<X>, f: X -> Run)
    requires forall x :: f(x).status != Failed
    ensures Each(xs, f).status != Failed
    ensures Each(xs, f).status == Succeeded <==> forall i :: 0 <= i < |xs| ==> f(xs[i]).status == Succeeded
  {
    if xs != [] {
      var n := |xs| - 1;
      EachOutcome(xs[..n], f);
      assert forall i :: 0 <= i < n ==> xs[..n][i] == xs[i];
    }
  }

  /** A loop stops at its first failing body: what it wrote is the bodies before
    * it, then that body's lines, and it ends as that body did. */
  lemma {:induction false} EachStopsAtFirstFailure<X>(xs: seq<X>, f: X -> Run, k: nat)
    requires k < |xs|
    requires forall i :: 0 <= i < k ==> f(xs[i]).status == Succeeded
    requires f(xs[k]).status != Succeeded
    ensures Each(xs, f) == Run(Each(xs[..k], f).lines + f(xs[k]).lines, f(xs[k]).status)
    decreases |xs|
  {
    var n := |xs| - 1;
    if k == n {
      assert xs[..n] == xs[..k];
      EachAllSucceed(xs[..k], f);
    } else {
      assert xs[..n][..k] == xs[..k];
      assert xs[..n][k] == xs[k];
      EachStopsAtFirstFailure(xs[..n], f, k);
    }
  }

  /** A loop that stops at body `i` ends as the whole loop does, without success. */
  lemma {:induction false} EachRest<X>(xs: seq<X>, i: nat, f: X -> Run)
    requires i < |xs|
    requires Each(xs[..i], f).status == Succeeded
    requires f(xs[i]).status != Succeeded
    ensures Each(xs, f) == Each(xs[..i + 1], f)
    ensures Each(xs, f).status != Succeeded
    decreases |xs| - i
  {
    EachStep(xs, i, f);
    if i + 1 < |xs| {
      var n := |xs| - 1;
      assert xs[..n][..i + 1] == xs[..i + 1];
      assert xs[..n][..i] == xs[..i];
      assert xs[..n][i] == xs[i];
      EachRest(xs[..n], i, f);
    } else {
      assert xs[..i + 1] == xs;
    }
  }

  /** The bundle: the settings and the output stream every step writes to.
    * The settings are kept as one record, updated field by field, and the
    * output as the sequence of lines written so far. */
  class Bundle {
    var config: Config
    var output: seq<string>

    /** A bundle holding `cfg`, with nothing written yet. */
    constructor (cfg: Config)
      ensures config == cfg && output == []
    {
      config := cfg;
      output := [];
    }

    /** Writes lines to the output stream. */
    method Emit(lines: seq<string>)
      modifies this`output
      ensures output == old(output) + lines
    {
      output := output + lines;
    }
  }
}
