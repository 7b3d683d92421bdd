# ngen core, modelled in Dafny

ngen reads a JSON project descriptor (`ngen.json`) and writes a Ninja build
file for it. The command line selects the source, build and distribution
trees, the input and output files and a few switches. A default generator is
then picked from the project's `type` and the platform: `msvc` on Windows and
`gcc` elsewhere for C and C++, `javac` for Java. That generator writes the
build file. It starts with a header line and the variables: the three trees,
the version, the distribution directories, the backend's flag block and the
project's own variables. The rules follow. Then come the object edges, the
edges of the type's category (application, library, external script,
package), the install edges and the `phony` target-name edge. The `cmake`,
`external` and `package` backends override single steps of this sequence;
the package backend generates a child project for each directory it lists and
includes that child's build file with `subninja`.

The model keeps the program's structure:

- `Statements` (`statement.dfy`): the `Statement` class, which accumulates the
  lists of a build edge and serialises them. An edge is a value (`Edge`), and
  its text is a sequence of lines. The lemmas read a `build` line back the way
  a Ninja lexer does: outputs, `:`, the rule, inputs, then ` | ` and the
  dependencies.
- `Path` (`path.dfy`): `filename`, `extension` and `replace_extension`.
- `Bundles` (`bundle.dfy`): the descriptor, the `Bundle` class (its settings,
  held as one `Config` record that the methods update field by field, and the
  output stream, a sequence of lines the methods append to), and
  `Run`, which is the lines a step writes together with how it ends (`true`,
  `false` or an exception).
- `Shinobi` (`shinobi.dfy`): the base generator's tables, its variables, its
  rules and its install and target-name steps.
- `CxxBase`, `Msvc`, `Gcc`, `Javac`, `Cmake`, `External`, `Package`: the
  backends.
- `Pipeline` (`pipeline.dfy`): `generateProject`, with every backend's
  overrides dispatched.
- `Defaults` (`defaults.dfy`) and `CommandLine` (`commandline.dfy`): `main`,
  meaning the defaults, the argument scan, the exit codes and the choice and
  construction of the generator.

Every step that writes output is a method on a `Bundle`. It is proved to
append exactly the lines of a specification function of the step and to
return that function's status. The properties of those functions are proved
as lemmas.

## Model

| member | source | states |
|---|---|---|
| Statements.Statement.constructor | src/Statement.cpp:19-26 | a new statement has the given rule and every list empty |
| Statements.Statement.AppendInput | src/Statement.cpp:29-33 | the input is added at the end of the inputs; nothing else changes |
| Statements.Statement.AppendInputs | src/Statement.cpp:36-40 | the inputs are added at the end, in order; nothing else changes |
| Statements.Statement.AppendOutput | src/Statement.cpp:43-47 | the output is added at the end of the outputs; nothing else changes |
| Statements.Statement.AppendOutputs | src/Statement.cpp:50-54 | the outputs are added at the end, in order; nothing else changes |
| Statements.Statement.AppendDependency | src/Statement.hpp:49 | the dependency is added at the end of the dependencies; nothing else changes |
| Statements.Statement.AppendDependencies | src/Statement.hpp:50 | the dependencies are added at the end, in order; nothing else changes |
| Statements.Statement.AppendImplicitOutputs | src/cxxbase.cpp:130 | the implicit outputs are added at the end; nothing else changes |
| Statements.Statement.AppendOrderOnlyDependencies | src/cxxbase.cpp:84 | the order-only dependencies are added at the end; nothing else changes |
| Statements.Statement.AppendVariable | src/Statement.cpp:57-61 | a line `name = value` is added after the earlier bindings; a repeated name adds a line and replaces nothing |
| Statements.RenderLayout | src/Statement.cpp:64-96 | the text is the `build` line, then one line per variable indented by four spaces in insertion order, then one empty line |
| Statements.Indented | src/Statement.cpp:89-91 | each variable line is the binding indented by four spaces, in order |
| Statements.DependencySeparator | src/Statement.cpp:80-85 | ` \| ` is written exactly when there are dependencies, and every dependency then follows one space |
| Statements.EdgeLineReadsBack | src/Statement.cpp:68-86 | when every path is a space-free word, a lexer reads the `build` line as `build`, the outputs, `:`, the rule, the inputs, then `\|` and the dependencies |
| Statements.SingleEdgeReads | src/Statement.cpp:64-96 | the text of one edge holds exactly one `build` line, and that line reads back as its edge |
| Statements.ReadBlocks | src/Statement.cpp:64-96 | statements written one after another give one `build` line per edge, in order, each reading back as its edge |
| Statements.BuildLinesOfBlocks | src/Statement.cpp:87-93 | the variable lines and the empty line after each edge add no `build` line |
| Statements.BuildLinesOfFramedBlocks | src/Statement.cpp:87-93 | edges with an empty line before each also hold exactly their own `build` lines |
| Statements.BuildLinesOfRender | src/Statement.cpp:64-96 | one edge's text holds only its own `build` line |
| Statements.BuildLinesOfBlock | src/Statement.cpp:64-96 | an edge's text followed by `endl` holds only its own `build` line |
| Statements.BlocksSnoc | src/Statement.cpp:64-96 | writing one more statement adds that statement's text at the end |
| Path.LastIndex | src/path.cpp:33-45 | the last position of the character, or -1 exactly when it does not occur |
| Path.Filename | src/path.cpp:33-45 | the file name contains no `/`, and a path without `/` is its own file name |
| Path.FilenameSplits | src/path.cpp:33-45 | the file name has no `/`; with no `/` it is the whole path, otherwise the path is the directory, `/`, then the file name |
| Path.FilenameOfJoin | src/path.cpp:33-45 | the file name of `dir/name` is `name` |
| Path.Extension | src/path.cpp:47-59 | the extension is a tail of the path, and has no `.` when the path has one |
| Path.ExtensionSplits | src/path.cpp:47-59 | with no `.` the whole path is returned; otherwise the path is the stem, `.`, then a dot-free extension |
| Path.ReplaceExtension | src/path.cpp:61-73 | a path without `.` is unchanged; otherwise the result ends with the new extension and is shorter than the path and extension together |
| Path.ReplaceExtensionShape | src/path.cpp:61-73 | with no `.` the path is unchanged; otherwise the text after the last `.`, the dot included, is replaced by the new extension, and the result ends with it |
| Path.ReplaceExtensionRoundTrip | src/path.cpp:47-73 | putting back a path's own extension gives the path again |
| Path.ReplaceExtensionIdempotent | src/path.cpp:61-73 | replacing with the same dot-free extension twice is the same as once |
| Path.ReplaceExtensionSpaceFree | src/path.cpp:61-73 | a path and extension without spaces give a result without spaces |
| Bundles.Lookup | src/Shinobi.cpp:261-262 | the value of the first entry with the key (no entry before it has the key), found exactly when some entry has it |
| Bundles.FlagValue.Items | src/Shinobi.cpp:243-250 | a range-for visits the elements of an array, or a string once |
| Bundles.Ignored | src/Shinobi.cpp:151-183 | a logged `false` counts as done, while an exception still propagates; the lines are kept |
| Bundles.Run.Then | src/Shinobi.cpp:123-147 | the next step runs only after success, and a failure ends the sequence as it is |
| Bundles.EachStep | src/cxxbase.cpp:167-182 | one more loop body after a loop that succeeded |
| Bundles.EachAllSucceed | src/cxxbase.cpp:167-182 | a loop whose bodies all succeed succeeds, with their lines in order |
| Bundles.EachStopsAtFirstFailure | src/cxxbase.cpp:167-182 | a loop ends at its first body that does not succeed, with the lines written before it and as that body ended |
| Bundles.EachRest | src/package.cpp:49-58 | the bodies after the one that stops the loop change nothing |
| Bundles.Bundle.constructor | src/Bundle.hpp:25-90 | a bundle holding the settings, with nothing written |
| Bundles.Bundle.Emit | src/Shinobi.cpp:118-121 | the lines are written after everything already written |
| Shinobi.CompileRule | src/Shinobi.cpp:513-521 | the compile rule of a listed type; the empty name exactly when the type is not listed |
| Shinobi.LinkRule | src/Shinobi.cpp:524-532 | the link rule of a listed type; the empty name exactly when the type is not listed |
| Shinobi.RuleTablesAgree | src/Shinobi.cpp:30-54 | the link table lists every compiled type plus `cs_library`; cmake compiles with `cmake` and links with `ninja`; the other types that are neither C, C++, C# application nor Java use one rule for both |
| Shinobi.CategoryOrder | src/Shinobi.cpp:151-173 | each type gets exactly one category: application, library, external, package or cmake, tested in that order (so `x_application_library` is an application) |
| Shinobi.CategoryOfSuffixed | src/Shinobi.cpp:151-158 | `*_application` is an application, and `*_library` is a library unless its stem says application |
| Shinobi.ContainsOfLibrary | src/Shinobi.cpp:535-544 | appending `_library` never makes a name contain `_application` |
| Shinobi.PrefixesDistinct | src/Shinobi.cpp:495-510 | `$sourcedir/`, `$builddir/` and `$distdir/` paths never coincide, and each prefix is injective |
| Shinobi.PathsAreWords | src/Shinobi.cpp:495-510 | a prefixed path is never empty and has no spaces when its suffix has none |
| Shinobi.TargetName | src/Shinobi.cpp:430-435 | the backend block's `targetName` if it has one, the project name otherwise |
| Shinobi.KeyLines | src/Shinobi.cpp:223-230 | one `key = value` line per distribution key, in key order |
| Shinobi.DistributionMerges | src/Shinobi.cpp:211-235 | when every key is present, the lines show the project's distribution values over the bundle's |
| Shinobi.DistributionThrowsAtMissingKey | src/Shinobi.cpp:222-230 | a key missing from the distribution makes `at` throw, after the lines of the keys before it |
| Shinobi.FlagLines | src/Shinobi.cpp:240-253 | one `<backend>_<key> = <value>` line per entry of the flag block, in order |
| Shinobi.BlockTargetName | src/Shinobi.cpp:237-263 | no block writes nothing; a block writes one line per entry, then `<backend>_targetName = <project>` when it has no `targetName` |
| Shinobi.VariablesRun | src/Shinobi.cpp:189-282 | the variables never return false, and whatever happens they start with the directory, version and distribution-comment lines |
| Shinobi.VariablesOutcome | src/Shinobi.cpp:189-282 | the variables never return false, and they throw exactly when a distribution is in use and some listed key is missing from it |
| Shinobi.VariablesEnd | src/Shinobi.cpp:266-279 | the variables end with `targetName = $<backend>_targetName`, a blank line, then the project's own variables |
| Shinobi.RuleLines | src/Shinobi.cpp:285-305 | a rule stanza is its comment, `rule <name>`, then its bindings |
| Shinobi.StanzasDefine | src/Shinobi.cpp:285-327 | a `rule` line for a name is written exactly when some stanza has that name |
| Shinobi.StanzaDefines | src/Shinobi.cpp:285-327 | every stanza's `rule` line is written |
| Shinobi.BaseRules | src/Shinobi.cpp:285-327 | the base rules are `exec` and `ninja`, both in the console pool, followed by an empty line |
| Shinobi.InstallFileEdges | src/Shinobi.cpp:362-376 | one edge per complete `install_files` entry, in order |
| Shinobi.InstallsWritten | src/Shinobi.cpp:362-376 | while every entry has `input` and `output`, the loop writes each entry's edge between empty lines, in order |
| Shinobi.InstallRun | src/Shinobi.cpp:355-382 | the install step never returns false, and it succeeds exactly when every `install_files` entry has both `input` and `output` |
| Shinobi.InstallOutcome | src/Shinobi.cpp:355-382 | with every entry complete the step succeeds with one edge per entry; otherwise it throws at the first entry lacking `input` or `output`, keeping the edges of the entries before it |
| Shinobi.InstallFileEdgeShape | src/Shinobi.cpp:363-375 | a complete entry is installed with `install` exactly when `executable` is true, otherwise with `copy`, from `$sourcedir/<input>` to `$distdir/<output>` |
| Shinobi.ExtraInputsForTargetName | src/Shinobi.cpp:556-571 | the list throws exactly when some `install_files` entry lacks `output`; otherwise it has one path per entry, each under `$distdir/` |
| Shinobi.ExtraInputsAreInstallOutputs | src/Shinobi.cpp:556-571 | the extra inputs of the target name are exactly the outputs of the install-file edges, in order; they throw exactly when an entry lacks `output`, and then the install step has thrown already |
| Shinobi.EmitVariables | src/Shinobi.cpp:189-282 | writes the variables block and returns its outcome |
| Shinobi.EmitVariablesTail | src/Shinobi.cpp:266-279 | writes the target-name line and the project's variables |
| Shinobi.EmitDistribution | src/Shinobi.cpp:211-235 | writes the distribution lines, throwing at the first missing key |
| Shinobi.EmitFlags | src/Shinobi.cpp:240-253 | the loop writes one `<gen>_<key> =` line per entry of the block, in order |
| Shinobi.EmitBlock | src/Shinobi.cpp:237-263 | writes the flag block of the backend |
| Shinobi.EmitStanzas | src/Shinobi.cpp:285-327 | writes the rule stanzas in order |
| Shinobi.EmitRules | src/Shinobi.cpp:285-327 | writes the base rules |
| Shinobi.InstallFileStatement | src/Shinobi.cpp:365-375 | builds the edge of one complete install-file entry |
| Shinobi.EmitInstall | src/Shinobi.cpp:355-382 | the loop writes one install edge per entry, in order, and throws at the first entry lacking `input` or `output` |
| CxxBase.Objects | src/cxxbase.cpp:256-265 | one object per source, in order |
| CxxBase.ObjectShape | src/cxxbase.cpp:250-253 | an object lies under `$builddir/` and, for a source with an extension, ends with the backend's object extension |
| CxxBase.LibraryBase | src/cxxbase.cpp:274-287 | the library file starts with `$libdir/` and the library prefix, and ends with the library extension |
| CxxBase.LibraryBaseNoDoublePrefix | src/cxxbase.cpp:274-287 | the library file is `$libdir/` + name + extension, with the library prefix added only when the name lacks it |
| CxxBase.CxxVariablesOutcome | src/cxxbase.cpp:32-58 | the C/C++ variables end as the base ones do, and on success add eleven lines such as `cxxflags = $<backend>_cxxflags` |
| CxxBase.ObjectEdges | src/cxxbase.cpp:61-90 | one compile edge per source |
| CxxBase.ObjectsRun | src/cxxbase.cpp:61-90 | the step returns false exactly for an unsupported type and throws exactly for a supported type without sources, writing nothing in both cases |
| CxxBase.ObjectsReadBack | src/cxxbase.cpp:61-90 | for a supported type, one `build` line per source: object, rule, `$sourcedir/<source>`, then `\|\|` and the dependencies |
| CxxBase.ObjectEdgeReads | src/cxxbase.cpp:79-86 | one object edge reads back as object, rule, source, and the order-only dependencies |
| CxxBase.ApplicationReadBack | src/cxxbase.cpp:93-112 | the application edge links every object into `$builddir/<target><.exe>` |
| CxxBase.LibraryReadBack | src/cxxbase.cpp:115-139 | the library edge links every object into `$builddir/<library file>`, with the dependencies after `\|` |
| CxxBase.ObjectsAreWords | src/cxxbase.cpp:256-265 | objects are space-free words |
| CxxBase.Header | src/cxxbase.cpp:325-349 | the install path exists exactly when the path is long enough for `$sourcedir/`, the strip prefix and a separator; it then lies under `$distdir/$includedir/` and keeps the rest of the path |
| CxxBase.HeaderPlacement | src/cxxbase.cpp:325-349 | a header under the strip prefix is copied to `$distdir/$includedir/<rest>`, and a path too short for the prefix makes `substr` throw |
| CxxBase.Headers | src/cxxbase.cpp:290-322 | no `headers` key gives no headers; every header found lies under `$sourcedir/` |
| CxxBase.RelocatedBeneath | src/cxxbase.cpp:290-322 | listed headers are relocated beneath `$sourcedir/`, relative to the header directory |
| CxxBase.RelocatedThrows | src/cxxbase.cpp:299-319 | a listed path shorter than the header directory makes the listing throw |
| CxxBase.HeaderOutputsMap | src/cxxbase.cpp:240-243 | the headers' install paths, one per header, in order |
| CxxBase.CxxInstallOrder | src/cxxbase.cpp:142-191 | the install edge has an input exactly for applications and libraries, and then copies `$builddir/x` to `$distdir/x`; a throw of the base install step ends the step there; otherwise a library writes the install files, then a copy per header, then its own edge |
| CxxBase.CopiesAreBlocks | src/cxxbase.cpp:167-182 | when every header has an install path, the copy loop writes one copy edge per header |
| CxxBase.ExtraInputs | src/cxxbase.cpp:194-247 | a throw of the base list propagates; other than for a library the base list is returned unchanged, and a library's list starts with it |
| CxxBase.LibraryTargetInputs | src/cxxbase.cpp:194-247 | the library's target name depends on the installed library, then the install files, then every installed header; an install entry without `output` makes it throw with nothing written |
| CxxBase.UnsupportedWritesNothing | src/cxxbase.cpp:225-233 | a type that is not C or C++ makes every C/C++ step return false with nothing written |
| CxxBase.EmitCxxVariables | src/cxxbase.cpp:32-58 | writes the C/C++ variables |
| CxxBase.ObjectStatement | src/cxxbase.cpp:80-84 | builds one compile edge |
| CxxBase.EmitObjects | src/cxxbase.cpp:61-90 | writes the compile edges |
| CxxBase.EmitApplication | src/cxxbase.cpp:93-112 | writes the link edge of an application |
| CxxBase.EmitLibrary | src/cxxbase.cpp:115-139 | writes the link edge of a library |
| CxxBase.EmitHeaderCopies | src/cxxbase.cpp:158-184 | writes the header copies of a library |
| CxxBase.EmitCopies | src/cxxbase.cpp:167-182 | writes one copy per header, stopping at the first that throws |
| CxxBase.EmitCopy | src/cxxbase.cpp:174-181 | writes the copy of one header |
| CxxBase.InstallStatement | src/cxxbase.cpp:142-191 | builds the install edge of the target |
| CxxBase.EmitCxxInstall | src/cxxbase.cpp:142-191 | writes the install edges |
| CxxBase.EmitCxxTargetName | src/cxxbase.cpp:194-222 | writes the `phony` target-name edge |
| Msvc.RuntimeLibdir | src/msvc.cpp:26-41 | construction succeeds exactly when `libdir` and `runtime` both exist; it then keeps the keys and gives `libdir` the value of `runtime` |
| Msvc.RuntimeLibdirUpdates | src/msvc.cpp:26-41 | construction succeeds exactly when `libdir` and `runtime` both exist, then changes `libdir` alone to the value of `runtime`; repeating it changes nothing |
| Msvc.Setup | src/msvc.cpp:26-41 | updates the bundle's distribution in place, or throws and leaves it unchanged |
| Msvc.MsvcVariablesOutcome | src/msvc.cpp:50-70 | the msvc variables end as the C/C++ ones do, and on success name `cl.exe` and the program database after the project |
| Msvc.MsvcDepsOnCompile | src/msvc.cpp:122-158 | only the `c_compile` and `cxx_compile` rules track headers with `deps = msvc` |
| Msvc.MsvcRulesNamed | src/msvc.cpp:73-177 | the msvc rules, in order: make, install, copy, then compile, application and library for C and for C++ |
| Msvc.MsvcDefinesRules | src/msvc.cpp:73-177 | every msvc rule has its `rule` line in the generated rules |
| Msvc.MsvcCoversCxxTypes | src/msvc.cpp:122-174 | every rule an edge of a C or C++ project uses is defined by the msvc backend |
| Msvc.DefinedAt | src/msvc.cpp:73-177 | a listed stanza is defined whatever comes before it |
| Msvc.EmitMsvcVariables | src/msvc.cpp:50-70 | writes the msvc variables |
| Msvc.EmitMsvcRules | src/msvc.cpp:73-177 | writes the base rules and the msvc stanzas |
| Gcc.GccEdges | src/gcc.cpp:37-45 | one compile edge per source |
| Gcc.GccRun | src/gcc.cpp:28-48 | the backend never succeeds, passes on a base that did not succeed unchanged, and keeps the base output at its head |
| Gcc.GccOutcome | src/gcc.cpp:28-48 | the backend never succeeds; after a successful base it adds one `build` line per source (`.obj` beside the source, `cxx_compile`, the source itself) and returns false |
| Gcc.GccKeepsBase | src/gcc.cpp:28-48 | the base generator's output stays at the head, and the result is never success |
| Gcc.GccEdgesRead | src/gcc.cpp:37-45 | the edges read back as object, rule, source, in source order |
| Gcc.EmitGccEdges | src/gcc.cpp:37-45 | writes the compile edges in order |
| Javac.Klass | src/javac.cpp:108-111 | a class file lies under `$builddir/`, and ends with `.class` when the source has an extension |
| Javac.KlassShape | src/javac.cpp:108-111 | a class file lies under `$builddir/`, is the source with its extension replaced by `.class`, and is unchanged by an earlier replacement |
| Javac.JavacVariablesOutcome | src/javac.cpp:30-42 | the javac variables end as the base ones do, and on success end with `javac = javac` and a blank line |
| Javac.JavacDefinesRules | src/javac.cpp:45-75 | the javac stanzas define exactly `java_compile` and `java_library` |
| Javac.JavaEdges | src/javac.cpp:84-91 | one compile edge per source |
| Javac.JavacObjectsRun | src/javac.cpp:78-105 | the step returns false exactly for a type outside `java_*` and throws exactly for a Java type without sources, writing nothing in both cases |
| Javac.JavacObjectsReadBack | src/javac.cpp:78-105 | a type outside `java_*` is refused with nothing written; otherwise one `build` line per source: its class file, the rule, the source |
| Javac.EmitJavacVariables | src/javac.cpp:30-42 | writes the javac variables |
| Javac.EmitJavacRules | src/javac.cpp:45-75 | writes the base and javac rules |
| Javac.EmitJavacObjects | src/javac.cpp:78-94 | writes the compile edges |
| Cmake.DefinitionsLead | src/cmake.cpp:53-55 | every definition is preceded by a space |
| Cmake.DefinitionsRead | src/cmake.cpp:53-55 | read back, the definitions are one `-D<key>=<value>` word per block entry, in order |
| Cmake.FlagsLineReads | src/cmake.cpp:46-57 | the flags line reads as `cmake_flags`, `=`, then the definitions |
| Cmake.FlagsHead | src/cmake.cpp:47 | a flags line with no definitions reads as `cmake_flags =` |
| Cmake.CmakeVariablesOutcome | src/cmake.cpp:37-63 | the cmake variables end as the base ones do; with no block the flags line has no definitions and no newline of its own; with one it holds each entry in order |
| Cmake.CmakeEdgesChain | src/cmake.cpp:96-132 | the generator edge makes `$builddir/build.ninja` from the first source, the `ninja` edge consumes it and makes the target name with `ninja_targets = install`, and both rules are defined |
| Cmake.CmakeListsTxt | src/cmake.cpp:135-151 | the lists file exists exactly when there is a first source, and lies under `$sourcedir/` |
| Cmake.CmakeIgnoresLaterSources | src/cmake.cpp:135-151 | sources after the first change nothing, and no source makes `at(0)` throw |
| Cmake.FlagsLine | src/cmake.cpp:46-57 | builds the flags line one definition at a time |
| Cmake.EmitCmakeVariables | src/cmake.cpp:37-63 | writes the cmake variables |
| Cmake.EmitCmakeRules | src/cmake.cpp:66-93 | writes the base rules and the `cmake` rule |
| Cmake.EmitCmakeObjects | src/cmake.cpp:96-111 | writes the generator edge |
| Cmake.EmitCmakeTargetName | src/cmake.cpp:114-132 | writes the `ninja` edge |
| External.ArgsOf | src/external.cpp:45-50 | no sources give empty arguments; otherwise the arguments end with the last source |
| External.ArgsReadBack | src/external.cpp:45-50 | the arguments read back as the sources in order, are empty exactly when there are none, and neither start nor end with a space |
| External.ArgsOfEmptySource | src/external.cpp:45-50 | an empty source adds a space unless the arguments are still empty |
| External.JoinArgs | src/external.cpp:45-50 | the joining loop computes the arguments |
| External.OperatingSystemName | src/external.cpp:90-99 | the name is `windows`, `linux` or `unknown` |
| External.OperatingSystem | src/external.cpp:102-118 | without an `external` block nothing is found; found scripts are the values of an entry for this platform |
| External.OperatingSystemFound | src/external.cpp:102-118 | the scripts are found exactly when the `external` block has an entry for this platform, and they are that entry's values |
| External.ScriptEdges | src/external.cpp:52-64 | one edge per script |
| External.ExternalRun | src/external.cpp:37-67 | the step never returns false, and throws, with nothing written, exactly when the sources or the platform's entry are missing |
| External.ExternalReadBack | src/external.cpp:37-67 | no sources or no entry for the platform throws with nothing written; otherwise one `build` line per script (target name, rule, `$sourcedir/<script>`), each with `args` set to the joined sources |
| External.ScriptsRead | src/external.cpp:52-64 | the script edges read back in order |
| External.ExternalTargetChain | src/external.cpp:69-87 | the `phony` edge from the source directory consumes what every script edge produces |
| External.ScriptStatement | src/external.cpp:55-61 | builds the edge of one script |
| External.EmitScript | src/external.cpp:52-64 | writes the edge of one script |
| External.EmitScripts | src/external.cpp:52-64 | the loop over the scripts writes their edges in order, each after the ones before it |
| External.EmitExternal | src/external.cpp:37-67 | writes the script edges |
| External.EmitExternalTargetName | src/external.cpp:69-87 | writes the `phony` edge |
| Package.ChildPaths | src/package.cpp:111-112 | the child reads the input file of the same name from its own source directory, and writes `build.ninja` there, the path the `subninja` line names |
| Package.BuildFileName | src/package.cpp:112 | the child's build file is named `build.ninja` |
| Package.ChildConfig | src/package.cpp:94-112 | the child's source and build trees lie beneath the parent's; it keeps the parent's distribution directory and table, debug flag and arguments, and has no type |
| Package.ChildBeneath | src/package.cpp:94-112 | the child's trees lie beneath the parent's, and it has no type, so no generator, until its descriptor is read |
| Package.SubninjaLines | src/package.cpp:57 | one `subninja <child>/build.ninja` line per child, in order |
| Package.SubninjasWritten | src/package.cpp:49-58 | while no child throws, one `subninja` line per child, whatever the child returned |
| Package.PackageObjectsOutcome | src/package.cpp:38-61 | no sources throws; otherwise a line per child in order, stopping at the first child that throws |
| Package.PackageReadBack | src/package.cpp:64-80 | the package edge reads back as the package name, the rule, then every child directory |
| Package.ChildBundle | src/package.cpp:92-112 | the child's bundle is built field by field from the parent's |
| Package.ChildRun | src/package.cpp:83-126 | a descriptor that fails to parse gives false |
| Package.GenerateChild | src/package.cpp:83-126 | a descriptor that fails to parse gives false; otherwise the child is generated with the generator its type selects |
| Package.EmitSubninja | src/package.cpp:55-57 | generates one child and writes its `subninja` line |
| Package.EmitPackageObjects | src/package.cpp:38-61 | writes the `subninja` lines |
| Package.EmitPackage | src/package.cpp:64-80 | writes the package edge |
| Pipeline.GeneratorName | src/Shinobi.cpp:412-415 | the gcc and javac classes keep the base class's name |
| Pipeline.ChainOutcome | src/Shinobi.cpp:118-185 | a variables or objects step that does not succeed ends generation with its status; after both succeed the result is never false, and throws exactly when a later step throws |
| Pipeline.ChainHeader | src/Shinobi.cpp:118-121 | whatever the steps do, the output starts with the header |
| Pipeline.ProjectRun | src/Shinobi.cpp:82-186 | no type returns false and no sources returns true, both writing nothing; otherwise the output starts with the header |
| Pipeline.ProjectOutcome | src/Shinobi.cpp:82-186 | no type returns false and no sources returns true, both writing nothing; otherwise the header and the backend's steps follow in order |
| Pipeline.CategoryStepOwners | src/Shinobi.cpp:149-173 | only msvc applications and libraries, external scripts and packages write in the category step; cmake writes nothing there |
| Pipeline.EmitVariablesStep | src/Shinobi.cpp:123-126 | writes the variables of the backend |
| Pipeline.EmitRulesStep | src/Shinobi.cpp:128-131 | writes the rules of the backend |
| Pipeline.EmitObjectsStep | src/Shinobi.cpp:139-147 | writes the object edges of the backend |
| Pipeline.EmitCategoryStep | src/Shinobi.cpp:149-173 | writes the edges of the type's category |
| Pipeline.EmitInstallStep | src/Shinobi.cpp:175-178 | writes the install edges |
| Pipeline.EmitTargetNameStep | src/Shinobi.cpp:180-183 | writes the target-name edge |
| Pipeline.EmitHead | src/Shinobi.cpp:118-126 | writes the header and the variables |
| Pipeline.EmitBody | src/Shinobi.cpp:128-147 | writes the rules and the objects |
| Pipeline.EmitFront | src/Shinobi.cpp:118-147 | writes the steps that must succeed |
| Pipeline.EmitBack | src/Shinobi.cpp:149-183 | writes the steps whose false is only logged |
| Pipeline.EmitChain | src/Shinobi.cpp:118-185 | writes every step of a typed project with sources |
| Pipeline.EmitProject | src/Shinobi.cpp:82-186 | writes the project |
| Pipeline.GenerateRun | src/Shinobi.cpp:59-79 | other than for gcc it is the project's generation; gcc never succeeds; the project's output always stays at the head |
| Pipeline.Generate | src/Shinobi.cpp:59-79 | generates the project, the gcc class adding its edges |
| Defaults.DefaultGenerator | src/main.cpp:53-75 | the default generator is one of `msvc`, `gcc`, `javac` or none |
| Defaults.DefaultGeneratorChoice | src/main.cpp:53-75 | `c_*` and `cxx_*` types get `msvc` on Windows and `gcc` elsewhere, `java_*` types get `javac`, and anything else, or no type, gets none |
| Defaults.DistributionKeysDistinct | src/main.cpp:78-111 | the default distribution lists 23 distinct keys |
| Defaults.DistributionKeysListed | src/main.cpp:78-111 | the default distribution holds exactly the listed keys |
| Defaults.DefaultDistributionKeys | src/main.cpp:78-111 | 23 keys, each listed one present |
| Defaults.DefaultDistributionLayout | src/main.cpp:78-111 | `bindir` and `libdir` lie under `$exec_prefix`, `runtime` is `$bindir` and `includedir` is under `$prefix` |
| CommandLine.Kind | src/main.cpp:175-234 | a word not starting with `-` is a plain word, and only `--` ends the options |
| CommandLine.Set | src/main.cpp:183-224 | an option changes its own setting to the value and nothing else |
| CommandLine.ScanStep | src/main.cpp:175-234 | each step of the scan moves forward without passing the end |
| CommandLine.ScanRecordsWords | src/main.cpp:175-177 | a completed scan appends to argv exactly the words it read, up to `--`, without the values the options consumed |
| CommandLine.StepRecordsWord | src/main.cpp:116-126 | one pass records its own word, and an option's value is skipped rather than recorded |
| CommandLine.Scan | src/main.cpp:175-234 | the scan exits 0 only after a help word and 64 only when a value option is last; a completed scan keeps the distribution and the project and extends argv; the converses are `HelpExits` and `MissingValueExits` |
| CommandLine.ReachedScan | src/main.cpp:175-234 | the scan's result is the result from any point it passes through |
| CommandLine.HelpExits | src/main.cpp:175-182 | a help word the scan reaches makes it exit with 0 |
| CommandLine.MissingValueExits | src/main.cpp:116-126 | an option the scan reaches as the last word, missing its value, makes it exit with 64 |
| CommandLine.SettingKept | src/main.cpp:183-224 | a setting that no later option names keeps its value |
| CommandLine.LastValueWins | src/main.cpp:183-224 | the last occurrence of an option decides its setting |
| CommandLine.DebugKept | src/main.cpp:225-230 | with no later `-v` or `-q`, the debug switch is unchanged |
| CommandLine.LastSwitchWins | src/main.cpp:225-230 | the last `-v` or `-q` decides the debug switch |
| CommandLine.ReachesPrefix | src/main.cpp:175-234 | the scan's progress depends only on the words already read |
| CommandLine.StopsAtEndOfOptions | src/main.cpp:231-233 | `--` ends the scan with everything up to it recorded, and the words after it are never read |
| CommandLine.PlainWordsRecorded | src/main.cpp:175-234 | words that are not options are recorded in argv, in order, and change nothing else |
| CommandLine.Next | src/main.cpp:116-126 | the next index, with the value found exactly when it lies within the arguments |
| CommandLine.Apply | src/main.cpp:183-224 | the bundle's settings become those of the option applied |
| CommandLine.ScanWord | src/main.cpp:175-234 | one word of the loop does to the bundle what the scan step says |
| CommandLine.ScanArguments | src/main.cpp:175-234 | the scan loop returns the scan's result and leaves the bundle with its settings |
| CommandLine.BackendOf | src/main.cpp:279-285 | a backend is constructed exactly for `msvc`, `gcc` and `javac`, each the one named |
| CommandLine.InstantiateDefault | src/main.cpp:277-285 | on the default distribution every named backend is constructed; msvc's `libdir` becomes `$bindir` and nothing else changes |
| CommandLine.MainRun | src/main.cpp:148-320 | output is written only after a completed scan, and the exit code is 64 exactly when the scan exits with 64 |
| CommandLine.MainExits | src/main.cpp:170-320 | the exit code is one of 0, 1, 64, 65, 66 or 73; output is written only with 0 or 1; the program crashes exactly when the files are fine but the project gets no default generator |
| CommandLine.GeneratorOptionIgnored | src/main.cpp:277 | the `-G` option has no effect, since the generator name is always replaced by the default |
| CommandLine.RunMain | src/main.cpp:148-320 | `main` runs to the outcome the model of the program gives |
| CommandLine.Launch | src/main.cpp:246-320 | exit 66 exactly when the input does not open, 65 exactly when it opens but does not parse, 73 exactly when it parses but the output cannot be created; output is written only past all three |
| CommandLine.Start | src/main.cpp:246-320 | opens the files, reads the descriptor and goes on |
| CommandLine.Construct | src/main.cpp:277-285 | chooses and constructs the generator |
| CommandLine.Execute | src/main.cpp:309-319 | generates and maps an exception to exit 1 and everything else to 0 |

## Left out

- File and stream I/O. The input file opening, parsing and the output file creation in `main` are parameters (`Host`): whether the input opens, the descriptor it parses to or none, and whether the output can be created. The repeated open of the output file inside `generate` is not modelled; the stream is taken to be the one `main` created. As written, that second `open` on an already open `std::ofstream` fails and sets the stream's failbit, so `generate` would return false before writing anything; the model follows the evident intent of writing to the stream `main` opened. The `-` placeholders for the standard streams are covered by the same oracle.
- Logging, warnings, error messages and the usage text: nothing written to the log or standard error is modelled, only the build file's lines and exit codes.
- The debug dump of `main`: it only logs, and its "nothing to do" return cannot happen because `main` always adds one project before it.
- `chdir` with `-C`: the directory is recorded in the bundle, but changing the working directory is left out. Its failure is only logged.
- The JSON library: values are typed Dafny data. A value of the wrong JSON type, which would make `get<string>` throw, is excluded by the types rather than modelled.
- `parse`, `makeGenerator`, `ls`, `sortedDistributionKeys` and `std::quoted` are parameters (`Env`), not definitions; they are not part of this model.
- The platform-specific shell text of the `exec` and `ninja` rules' `command` bindings is the parameter `env.command`.
- Package recursion is one level deep: a child's generation is the oracle `env.generateChild`, not the model applied again.
- The filesystem branch of `src/path.cpp` (built on `std::filesystem`) is not modelled; the string branch is.
- Statement.appendImplicitOutputs, appendOrderOnlyDependencies, appendDependency and appendDependencies have no definition in `src/Statement.cpp`, and the first two are not declared in `src/Statement.hpp` either. Their text is modelled in Ninja's syntax, by analogy with the outputs and dependencies.
- `util.cpp`'s helpers, such as `has` and `logBundle`, are used only through their effect: key presence is `Option`, logging is left out.
- A project whose descriptor has no `project` name is excluded by the type; `at("project")` throwing is not modelled.
- Crashes: a missing default generator (a null generator called) and an msvc construction whose `at` throws outside any handler are both the outcome `Crashed`, without further detail.
- `src/Bundle.hpp` declares `distribution` and `project` fields, while `src/main.cpp` and `src/package.cpp` use a `data` object holding `distribution` and `projects`. The model follows the fields. The bundle's settings are one `Config` record in a single class field, updated one setting at a time; reading or writing one setting is the same as on separate fields, but aliasing of individual settings is not modelled.
- Javac.JavacVariablesRun: `src/javac.cpp` defines `generateVariables()` without the project parameter that `generateProject` passes, so as written it overrides nothing that is called; the model treats it as the override, reading the files as coming from revisions in which the signatures agreed.
- Only one project is generated, the one `main` reads; the list of projects in the bundle is that one project.
