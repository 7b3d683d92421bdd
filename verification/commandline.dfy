/**
 * The front end of `src/main.cpp`: the option scan over the command line,
 * then the input, the output and the backend its project type selects, and
 * the exit status the program ends with.
 *
 * The scan is a recursive function over the words of the command line (the
 * program name first, as the loop starts at index 0); the loop that fills
 * the bundle field by field is proved to agree with it. Opening and reading
 * the files is left to the host, given as a parameter.
 */
module CommandLine {
  import opened Wrappers
  import opened Bundles
  import opened Defaults
  import Msvc
  import Pipeline

  // The exit statuses, as in BSD's `sysexits.h`.
  const ExUsage := 64
  const ExDataErr := 65
  const ExNoInput := 66
  const ExCantCreate := 73

  /** The settings an option with a value sets. */
  datatype Setting = SourceDir | BuildDir | DistDir | InputPath | OutputPath | GeneratorName | Directory

  /** What a word of the command line means to the scan. */
  datatype Word = Help | Option(setting: Setting) | Verbose | Quiet | EndOfOptions | Plain

  /** The meaning of a word, tested in the order the loop tests it. */
  function Kind(arg: string): (r: Word)
    ensures (arg == [] || arg[0] != '-') ==> r == Plain
    ensures r == EndOfOptions <==> arg == "--"
  {
    if arg == "-h" || arg == "--help" || arg == "-help" then Help
    else if arg == "-S" || arg == "--sourcedir" then Option(SourceDir)
    else if arg == "-B" || arg == "--builddir" then Option(BuildDir)
    else if arg == "-D" || arg == "--distdir" then Option(DistDir)
    else if arg == "-f" || arg == "--file" || arg == "--ngen-file" then Option(InputPath)
    else if arg == "-o" || arg == "--output" then Option(OutputPath)
    else if arg == "-G" || arg == "--generator" then Option(GeneratorName)
    else if arg == "-C" || arg == "--directory" then Option(Directory)
    else if arg == "-v" || arg == "--verbose" then Verbose
    else if arg == "-q" || arg == "--quiet" then Quiet
    else if arg == "--" then EndOfOptions
    else Plain
  }

  /** The value of a setting in the bundle. */
  function Get(c: Config, s: Setting): string {
    match s
    case SourceDir => c.sourcedir
    case BuildDir => c.builddir
    case DistDir => c.distdir
    case InputPath => c.inputpath
    case OutputPath => c.outputpath
    case GeneratorName => c.generatorname
    case Directory => c.directory
  }

  /** The bundle with one setting replaced. */
  function Set(c: Config, s: Setting, v: string): (r: Config)
    ensures Get(r, s) == v
    ensures forall t :: t != s ==> Get(r, t) == Get(c, t)
    ensures r.debug == c.debug && r.argv == c.argv && r.distribution == c.distribution && r.project == c.project
  {
    match s
    case SourceDir => c.(sourcedir := v)
    case BuildDir => c.(builddir := v)
    case DistDir => c.(distdir := v)
    case InputPath => c.(inputpath := v)
    case OutputPath => c.(outputpath := v)
    case GeneratorName => c.(generatorname := v)
    case Directory => c.(directory := v)
  }

  /** How the scan ends: with the bundle it filled, or with an exit status. */
  datatype ScanResult = Scanned(cfg: Config) | Exited(code: int)

  /** What one pass of the loop does: go on at a later index, or stop. */
  datatype Step = Continue(next: nat, cfg: Config) | Stop(result: ScanResult)

  /** One pass of the loop at index `i`: the word is recorded in `argv`, then
    * help exits with 0, an option without a value with 64, an option with
    * one sets it and skips it, `-v`/`-q` switch the verbose flag, `--` ends
    * the scan and any other word is ignored. */
  function ScanStep(args: seq<string>, i: nat, c: Config): (r: Step)
    requires i < |args|
    ensures r.Continue? ==> i < r.next <= |args|
  {
    var pushed := c.(argv := c.argv + [args[i]]);
    match Kind(args[i])
    case Help => Stop(Exited(0))
    case Option(s) => if i + 1 >= |args| then Stop(Exited(ExUsage)) else Continue(i + 2, Set(pushed, s, args[i + 1]))
    case Verbose => Continue(i + 1, pushed.(debug := true))
    case Quiet => Continue(i + 1, pushed.(debug := false))
    case EndOfOptions => Stop(Scanned(pushed))
    case Plain => Continue(i + 1, pushed)
  }

  /** The words the scan records in `argv` from index `i`: each word it reads,
    * skipping the value that follows an option, up to and including `--`. */
  function ScannedWords(args: seq<string>, i: nat): seq<string>
    decreases |args| - i
  {
    if i >= |args| then []
    else
      match Kind(args[i])
      case Option(_) => [args[i]] + (if i + 1 < |args| then ScannedWords(args, i + 2) else [])
      case EndOfOptions => [args[i]]
      case _ => [args[i]] + ScannedWords(args, i + 1)
  }

  /** The scan from index `i`. It exits only with 0, after a help word, or
    * with 64, when the last word is an option missing its value; a finished
    * scan keeps the distribution and project and only adds to `argv`. */
  function Scan(args: seq<string>, i: nat, c: Config): (r: ScanResult)
    ensures r.Exited? ==> r.code == 0 || r.code == ExUsage
    ensures r == Exited(0) ==> exists j :: i <= j < |args| && Kind(args[j]) == Help
    ensures r == Exited(ExUsage) ==> 0 < |args| && Kind(args[|args| - 1]).Option?
    ensures r.Scanned? ==>
      r.cfg.distribution == c.distribution && r.cfg.project == c.project
      && |c.argv| <= |r.cfg.argv| && r.cfg.argv[..|c.argv|] == c.argv
    decreases |args| - i
  {
    if i >= |args| then Scanned(c)
    else
      StepKeeps(args, i, c);
      match ScanStep(args, i, c)
      case Continue(j, d) =>
        var r := Scan(args, j, d);
        assert r.Scanned? ==> r.cfg.argv[..|c.argv|] == d.argv[..|c.argv|];
        r
      case Stop(r) => r
  }

  /** One pass of the loop: it exits with 0 only at a help word and with 64
    * only at an option that is the last word; otherwise it keeps the
    * distribution and project and records the word in `argv`. */
  lemma StepKeeps(args: seq<string>, i: nat, c: Config)
    requires i < |args|
    ensures var s := ScanStep(args, i, c);
      && (s == Stop(Exited(0)) ==> Kind(args[i]) == Help)
      && (s == Stop(Exited(ExUsage)) ==> i == |args| - 1 && Kind(args[i]).Option?)
      && (s.Stop? && s.result.Exited? ==> s.result.code == 0 || s.result.code == ExUsage)
      && (s.Continue? ==>
            s.cfg.distribution == c.distribution && s.cfg.project == c.project && s.cfg.argv == c.argv + [args[i]])
      && (s.Stop? && s.result.Scanned? ==>
            var d := s.result.cfg;
            d.distribution == c.distribution && d.project == c.project && d.argv == c.argv + [args[i]])
  {
  }

  /** A finished scan appends to `argv` exactly the words it read: each word
    * up to `--`, without the values the options consumed. */
  lemma {:induction false} ScanRecordsWords(args: seq<string>, i: nat, c: Config)
    ensures Scan(args, i, c).Scanned? ==> Scan(args, i, c).cfg.argv == c.argv + ScannedWords(args, i)
    decreases |args| - i
  {
    if i < |args| {
      StepRecordsWord(args, i, c);
      match ScanStep(args, i, c)
      case Continue(j, d) => ScanRecordsWords(args, j, d);
      case Stop(r) =>
    }
  }

  /** One pass of the loop records its word, and the words still to be
    * recorded are those from where it goes on. */
  lemma StepRecordsWord(args: seq<string>, i: nat, c: Config)
    requires i < |args|
    ensures ScanStep(args, i, c).Continue? ==>
      ScanStep(args, i, c).cfg.argv == c.argv + [args[i]]
      && ScannedWords(args, i) == [args[i]] + ScannedWords(args, ScanStep(args, i, c).next)
    ensures ScanStep(args, i, c).Stop? && ScanStep(args, i, c).result.Scanned? ==>
      ScanStep(args, i, c).result.cfg.argv == c.argv + ScannedWords(args, i)
  {
    match Kind(args[i])
    case Option(st) =>
      if i + 1 < |args| {
        assert ScanStep(args, i, c).cfg == Set(c.(argv := c.argv + [args[i]]), st, args[i + 1]);
      }
    case _ =>
  }

  /** The scan from index `i` in state `c` gets to index `k` in state `ck`. */
  predicate Reaches(args: seq<string>, i: nat, c: Config, k: nat, ck: Config)
    decreases |args| - i
  {
    (i == k && c == ck)
    || (i < k && i < |args| && ScanStep(args, i, c).Continue?
        && Reaches(args, ScanStep(args, i, c).next, ScanStep(args, i, c).cfg, k, ck))
  }

  /** Where the scan gets to, it goes on from there. */
  lemma {:induction false} ReachedScan(args: seq<string>, i: nat, c: Config, k: nat, ck: Config)
    requires Reaches(args, i, c, k, ck)
    ensures Scan(args, i, c) == Scan(args, k, ck)
    decreases |args| - i
  {
    if i != k {
      var s := ScanStep(args, i, c);
      ReachedScan(args, s.next, s.cfg, k, ck);
    }
  }

  /** A help word the scan reaches ends it with exit code 0. */
  lemma HelpExits(args: seq<string>, c: Config, k: nat, ck: Config)
    requires Reaches(args, 0, c, k, ck) && k < |args| && Kind(args[k]) == Help
    ensures Scan(args, 0, c) == Exited(0)
  {
    ReachedScan(args, 0, c, k, ck);
  }

  /** An option the scan reaches as the last word, with no value after it,
    * ends the scan with exit code 64. */
  lemma MissingValueExits(args: seq<string>, c: Config, ck: Config)
    requires |args| > 0 && Reaches(args, 0, c, |args| - 1, ck) && Kind(args[|args| - 1]).Option?
    ensures Scan(args, 0, c) == Exited(ExUsage)
  {
    ReachedScan(args, 0, c, |args| - 1, ck);
  }

  /** A setting no later word names keeps its value. */
  lemma {:induction false} SettingKept(args: seq<string>, i: nat, c: Config, s: Setting)
    requires forall j :: i <= j < |args| ==> Kind(args[j]) != Option(s)
    ensures Scan(args, i, c).Scanned? ==> Get(Scan(args, i, c).cfg, s) == Get(c, s)
    decreases |args| - i
  {
    if i < |args| {
      match ScanStep(args, i, c)
      case Continue(j, d) => SettingKept(args, j, d, s);
      case Stop(r) =>
    }
  }

  /** The last occurrence of a value option wins: once the scan reaches it,
    * a finished scan holds its value, whatever came before. */
  lemma LastValueWins(args: seq<string>, c: Config, k: nat, ck: Config, s: Setting)
    requires Reaches(args, 0, c, k, ck)
    requires k + 1 < |args| && Kind(args[k]) == Option(s)
    requires forall j :: k + 2 <= j < |args| ==> Kind(args[j]) != Option(s)
    ensures Scan(args, 0, c).Scanned? ==> Get(Scan(args, 0, c).cfg, s) == args[k + 1]
  {
    ReachedScan(args, 0, c, k, ck);
    var d := ScanStep(args, k, ck).cfg;
    SettingKept(args, k + 2, d, s);
  }

  /** The verbose flag no later `-v` or `-q` names keeps its value. */
  lemma {:induction false} DebugKept(args: seq<string>, i: nat, c: Config)
    requires forall j :: i <= j < |args| ==> Kind(args[j]) != Verbose && Kind(args[j]) != Quiet
    ensures Scan(args, i, c).Scanned? ==> Scan(args, i, c).cfg.debug == c.debug
    decreases |args| - i
  {
    if i < |args| {
      match ScanStep(args, i, c)
      case Continue(j, d) => DebugKept(args, j, d);
      case Stop(r) =>
    }
  }

  /** The last of `-v` and `-q` wins. */
  lemma LastSwitchWins(args: seq<string>, c: Config, k: nat, ck: Config)
    requires Reaches(args, 0, c, k, ck)
    requires k < |args| && (Kind(args[k]) == Verbose || Kind(args[k]) == Quiet)
    requires forall j :: k < j < |args| ==> Kind(args[j]) != Verbose && Kind(args[j]) != Quiet
    ensures Scan(args, 0, c).Scanned? ==> Scan(args, 0, c).cfg.debug == (Kind(args[k]) == Verbose)
  {
    ReachedScan(args, 0, c, k, ck);
    var d := ScanStep(args, k, ck).cfg;
    DebugKept(args, k + 1, d);
  }

  /** How the scan gets to `k` depends on the words up to `k` alone. */
  lemma {:induction false} ReachesPrefix(args: seq<string>, other: seq<string>, i: nat, c: Config, k: nat, ck: Config)
    requires Reaches(args, i, c, k, ck)
    requires k < |args| && k < |other| && args[..k + 1] == other[..k + 1]
    ensures Reaches(other, i, c, k, ck)
    decreases |args| - i
  {
    if i != k {
      assert args[i] == args[..k + 1][i] == other[i];
      if i + 1 <= k {
        assert args[i + 1] == args[..k + 1][i + 1] == other[i + 1];
      }
      assert ScanStep(args, i, c) == ScanStep(other, i, c);
      var s := ScanStep(args, i, c);
      ReachesPrefix(args, other, s.next, s.cfg, k, ck);
    }
  }

  /** `--` ends the scan where it is reached: it is the last word recorded,
    * and the words after it change nothing. */
  lemma StopsAtEndOfOptions(args: seq<string>, c: Config, k: nat, ck: Config, rest: seq<string>)
    requires Reaches(args, 0, c, k, ck)
    requires k < |args| && Kind(args[k]) == EndOfOptions
    ensures Scan(args, 0, c) == Scanned(ck.(argv := ck.argv + [args[k]]))
    ensures Scan(args[..k + 1] + rest, 0, c) == Scan(args, 0, c)
  {
    ReachedScan(args, 0, c, k, ck);
    var other := args[..k + 1] + rest;
    assert other[..k + 1] == args[..k + 1];
    ReachesPrefix(args, other, 0, c, k, ck);
    ReachedScan(other, 0, c, k, ck);
  }

  /** Words without a meaning are recorded in `argv` and change nothing else. */
  lemma {:induction false} PlainWordsRecorded(args: seq<string>, i: nat, c: Config)
    requires i <= |args|
    requires forall j :: i <= j < |args| ==> Kind(args[j]) == Plain
    ensures Scan(args, i, c) == Scanned(c.(argv := c.argv + args[i..]))
    decreases |args| - i
  {
    if i < |args| {
      var d := c.(argv := c.argv + [args[i]]);
      PlainWordsRecorded(args, i + 1, d);
      assert args[i..] == [args[i]] + args[i + 1..];
      assert d.argv + args[i + 1..] == c.argv + args[i..];
    }
  }

  /** `next`: the index moves past the option, and there is a value exactly
    * when the new index is still within the command line. */
  method Next(index: nat, args: seq<string>) returns (j: nat, value: Option<string>)
    ensures j == index + 1
    ensures value.Some? <==> j < |args|
    ensures value.Some? ==> value.value == args[j]
  {
    j := index + 1;
    if j >= |args| {
      return j, None;
    }
    return j, Some(args[j]);
  }

  /** Sets one setting of the bundle. */
  method Apply(b: Bundle, s: Setting, v: string)
    modifies b`config
    ensures b.config == Set(old(b.config), s, v)
  {
    match s
    case SourceDir => b.config := b.config.(sourcedir := v);
    case BuildDir => b.config := b.config.(builddir := v);
    case DistDir => b.config := b.config.(distdir := v);
    case InputPath => b.config := b.config.(inputpath := v);
    case OutputPath => b.config := b.config.(outputpath := v);
    case GeneratorName => b.config := b.config.(generatorname := v);
    case Directory => b.config := b.config.(directory := v);
  }

  /** One pass of the option loop over the bundle. */
  method ScanWord(b: Bundle, args: seq<string>, i: nat) returns (next: nat, stop: Option<ScanResult>)
    requires i < |args|
    modifies b`config
    ensures match ScanStep(args, i, old(b.config))
      case Continue(j, d) => next == j && stop.None? && b.config == d
      case Stop(r) => stop == Some(r) && (r.Scanned? ==> b.config == r.cfg)
  {
    var arg := args[i];
    b.config := b.config.(argv := b.config.argv + [arg]);
    match Kind(arg)
    case Help =>
      return i + 1, Some(Exited(0));
    case Option(s) =>
      var j, value := Next(i, args);
      if value.None? {
        return j, Some(Exited(ExUsage));
      }
      Apply(b, s, value.value);
      return j + 1, None;
    case Verbose =>
      b.config := b.config.(debug := true);
      return i + 1, None;
    case Quiet =>
      b.config := b.config.(debug := false);
      return i + 1, None;
    case EndOfOptions =>
      return i + 1, Some(Scanned(b.config));
    case Plain =>
      return i + 1, None;
  }

  /** The option loop: fills the bundle from the command line, or ends with
    * the exit status of help or of a missing value. */
  method ScanArguments(b: Bundle, args: seq<string>) returns (r: ScanResult)
    modifies b`config
    ensures r == Scan(args, 0, old(b.config))
    ensures r.Scanned? ==> b.config == r.cfg
  {
    var i := 0;
    while i < |args|
      invariant 0 <= i <= |args|
      invariant Scan(args, i, b.config) == Scan(args, 0, old(b.config))
    {
      var stop;
      i, stop := ScanWord(b, args, i);
      if stop.Some? {
        return stop.value;
      }
    }
    return Scanned(b.config);
  }

  /** What the program relies on the host for: whether the input file opens,
    * the project its text parses to, and whether the output file can be
    * created. */
  datatype Host = Host(opens: string -> bool, read: string -> Option<Project>, creates: string -> bool)

  /** How the program ends: with an exit status, or by calling through the
    * null generator of a project no backend is instantiated for. */
  datatype Exit = Code(code: int) | Crashed

  /** The exit and the lines written to the output file. */
  datatype Outcome = Outcome(exit: Exit, output: seq<string>)

  /** The backend instantiated for a generator name: only three are. */
  function BackendOf(name: string): (r: Option<Pipeline.Backend>)
    ensures r.Some? <==> name == "msvc" || name == "gcc" || name == "javac"
    ensures r == Some(Pipeline.MsvcGenerator) <==> name == "msvc"
    ensures r == Some(Pipeline.GccGenerator) <==> name == "gcc"
    ensures r == Some(Pipeline.JavacGenerator) <==> name == "javac"
  {
    if name == "msvc" then Some(Pipeline.MsvcGenerator)
    else if name == "gcc" then Some(Pipeline.GccGenerator)
    else if name == "javac" then Some(Pipeline.JavacGenerator)
    else None
  }

  /** A constructed backend and the bundle it generates from. */
  datatype Instance = Instance(backend: Pipeline.Backend, cfg: Config)

  /** Construction: the msvc constructor rewrites the distribution, and
    * throws, outside any handler, where it lacks the keys. */
  function Instantiate(d: Config): Option<Instance> {
    match BackendOf(d.generatorname)
    case None => None
    case Some(g) =>
      if g != Pipeline.MsvcGenerator then Some(Instance(g, d))
      else
        match Msvc.RuntimeLibdir(d.distribution)
        case None => None
        case Some(dist) => Some(Instance(g, d.(distribution := dist)))
  }

  /** After the scan: the input must open (66) and parse (65), the output must
    * be created (73); the backend is then chosen from the project's type,
    * whatever `-G` said. */
  function Launch(c: Config, host: Host, env: Env): (r: Outcome)
    ensures r.exit == Code(ExNoInput) <==> !host.opens(c.inputpath)
    ensures r.exit == Code(ExDataErr) <==> host.opens(c.inputpath) && host.read(c.inputpath).None?
    ensures r.exit == Code(ExCantCreate) <==>
      host.opens(c.inputpath) && host.read(c.inputpath).Some? && !host.creates(c.outputpath)
    ensures r.output != [] ==>
      host.opens(c.inputpath) && host.read(c.inputpath).Some? && host.creates(c.outputpath)
  {
    if !host.opens(c.inputpath) then Outcome(Code(ExNoInput), [])
    else
      match host.read(c.inputpath)
      case None => Outcome(Code(ExDataErr), [])
      case Some(p) =>
        if !host.creates(c.outputpath) then Outcome(Code(ExCantCreate), [])
        else
          Build(c.(project := p, generatorname := DefaultGenerator(Some(p), env.platform)), env)
  }

  /** Constructing the backend the bundle names and running it: a generation
    * that throws exits with 1; one that returns false is only logged. */
  function Build(d: Config, env: Env): Outcome {
    match Instantiate(d)
    case None => Outcome(Crashed, [])
    case Some(inst) => Finish(Pipeline.GenerateRun(inst.backend, inst.cfg, env))
  }

  function Finish(r: Run): Outcome {
    Outcome(if r.status == Threw then Code(1) else Code(0), r.lines)
  }

  /** `main`: the defaults, the scan, then the rest. */
  function MainRun(args: seq<string>, host: Host, env: Env): (r: Outcome)
    ensures r.output != [] ==> Scan(args, 0, DefaultConfig).Scanned?
    ensures r.exit == Code(ExUsage) <==> Scan(args, 0, DefaultConfig) == Exited(ExUsage)
  {
    match Scan(args, 0, DefaultConfig)
    case Exited(code) => Outcome(Code(code), [])
    case Scanned(c) => Launch(c, host, env)
  }

  /** On the default distribution every named backend is constructed: msvc
    * with `libdir` moved to the run-time directory, `$bindir`. */
  lemma InstantiateDefault(d: Config)
    requires d.distribution == DefaultDistribution
    ensures Instantiate(d).Some? <==> d.generatorname in {"msvc", "gcc", "javac"}
    ensures Instantiate(d).Some? && d.generatorname != "msvc" ==> Instantiate(d).value.cfg == d
    ensures d.generatorname == "msvc" ==>
      var e := Instantiate(d).value.cfg;
      e.distribution["libdir"] == "$bindir" && e == d.(distribution := e.distribution)
      && forall k :: k in DistributionKeys && k != "libdir" ==> e.distribution[k] == d.distribution[k]
  {
    DefaultDistributionLayout();
    Msvc.RuntimeLibdirUpdates(DefaultDistribution);
    DefaultDistributionKeys();
  }

  /** The program exits only with the listed statuses; it crashes exactly when
    * the project's type selects no backend; and only a generation writes
    * output, after which it exits with 0 or 1. */
  lemma MainExits(args: seq<string>, host: Host, env: Env)
    ensures var o := MainRun(args, host, env);
      && (o.exit.Code? ==> o.exit.code in {0, 1, ExUsage, ExDataErr, ExNoInput, ExCantCreate})
      && (o.output != [] ==> o.exit == Code(0) || o.exit == Code(1))
      && (o.exit == Crashed <==>
            Scan(args, 0, DefaultConfig).Scanned?
            && var c := Scan(args, 0, DefaultConfig).cfg;
            host.opens(c.inputpath) && host.read(c.inputpath).Some? && host.creates(c.outputpath)
            && DefaultGenerator(host.read(c.inputpath), env.platform) == "")
  {
    var s := Scan(args, 0, DefaultConfig);
    if s.Scanned? {
      var c := s.cfg;
      if host.opens(c.inputpath) && host.read(c.inputpath).Some? && host.creates(c.outputpath) {
        var p := host.read(c.inputpath).value;
        InstantiateDefault(c.(project := p, generatorname := DefaultGenerator(Some(p), env.platform)));
      }
    }
  }

  /** The generator named with `-G` is overwritten: it, and `argv`, have no
    * bearing on what the program does after the scan. */
  lemma GeneratorOptionIgnored(c: Config, name: string, argv: seq<string>, host: Host, env: Env)
    ensures Launch(c.(generatorname := name, argv := argv), host, env) == Launch(c.(argv := argv), host, env)
  {
  }

  /** `main`, over a bundle of its own. */
  method RunMain(args: seq<string>, host: Host, env: Env) returns (o: Outcome)
    ensures o == MainRun(args, host, env)
  {
    var b := new Bundle(DefaultConfig);
    var r := ScanArguments(b, args);
    if r.Exited? {
      return Outcome(Code(r.code), []);
    }
    o := Start(b, host, env);
  }

  /** The rest of `main` once the scan has filled the bundle. */
  method Start(b: Bundle, host: Host, env: Env) returns (o: Outcome)
    modifies b
    ensures o == Launch(old(b.config), host, env)
  {
    if !host.opens(b.config.inputpath) {
      return Outcome(Code(ExNoInput), []);
    }
    var parsed := host.read(b.config.inputpath);
    if parsed.None? {
      return Outcome(Code(ExDataErr), []);
    }
    if !host.creates(b.config.outputpath) {
      return Outcome(Code(ExCantCreate), []);
    }
    b.config := b.config.(project := parsed.value);
    b.config := b.config.(generatorname := DefaultGenerator(Some(b.config.project), env.platform));
    o := Construct(b, env);
  }

  /** Constructs the backend the bundle names and runs it. */
  method Construct(b: Bundle, env: Env) returns (o: Outcome)
    modifies b
    ensures o == Build(old(b.config), env)
  {
    var g := BackendOf(b.config.generatorname);
    if g.None? {
      return Outcome(Crashed, []);
    }
    if g.value == Pipeline.MsvcGenerator {
      var st := Msvc.Setup(b);
      if st != Succeeded {
        return Outcome(Crashed, []);
      }
    }
    o := Execute(b, g.value, env);
  }

  /** Runs a constructed backend and collects what it writes. */
  method Execute(b: Bundle, g: Pipeline.Backend, env: Env) returns (o: Outcome)
    modifies b`output
    ensures o == Finish(Pipeline.GenerateRun(g, b.config, env))
  {
    var before := b.output;
    var st := Pipeline.Generate(b, g, env);
    o := Outcome(if st == Threw then Code(1) else Code(0), b.output[|before|..]);
  }
}
