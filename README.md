# Android Gradle build descriptor: exporter and test oracle

This project models two files of CMake's Android Gradle support.

- `cmAndroidGradleBuild` reads a configured build graph and writes
  `android_gradle_build.json`. The descriptor has these members:
  - `buildFiles`: the CMakeLists.txt of every directory.
  - `cleanCommands`: one `cmake --build <home> --target clean` command.
  - `toolchains`: one toolchain, keyed by a hash of the two compiler paths.
  - `libraries`: one entry per exported target, keyed by name, configuration
    and ABI.
  - `cFileExtensions` and `cppFileExtensions`: the extensions of the C and
    C++ sources.

  Each library entry holds the build command, build type, artifact name,
  ABI, output, toolchain and per-source `files`. For each source the
  exporter rebuilds the compile flags from the language's compile-rule
  template. It erases the first occurrence of six positional tokens, lets
  CMake expand the rule variables, and then replaces the first flags,
  defines and includes placeholders with the target's real values.
- `check_android_gradle_build` is the test that reads this document back
  and compares it with the test project's CMake cache:
  - exact member sets of objects;
  - string arrays that must list an expected set, each element once;
  - the expected build commands, working directories, sources, flags and
    output paths of the project's `c_*`/`cpp_*` targets and of its
    imported library.

The build graph is input data. The modules are:

- `BuildGraph`: contexts (one per local generator and makefile), targets and
  sources.
- `Text`, `JsonValue`: strings and the JSON values the exporter builds.
- `RuleSurgery`: ExportFlags.
- `GradleBuild`: the exporter, written imperatively as the source is, with
  each method proved against a specification function.
- `ExportedDocument`: what the exported document contains.
- `GradleCheck`: the test's checks. Each is a method that returns `Success`
  exactly when a declarative predicate holds.
- `Agreement`: how the document the exporter writes meets the test's
  checks.

CMake services the code calls are fields of `Host`, a fixed function each:
- output-path conversion and `Convert(FULL)`;
- IsNOTFOUND and `std::hash`;
- case conversion;
- AppendFlags/AppendDefines/JoinDefines;
- rule expansion;
- the target's GetFlags/GetDefines/GetIncludes.

The two files disagree on object libraries, and the model keeps each as
written:
- The exporter stores an entry for an object library, and that entry never
  has `output`.
- The test expects no object-library key.

`Agreement.ObjectLibraryKeyUnrecognized` states what the test then does.
The object library's key is none of the keys checkLibraries expects, so its
key check ("Unrecognized library"), checkLibraries and checkProject fail.
`Agreement.ObjectLibraryRecordRefused` adds that the entry also lacks the
members checkLibrary would demand of it.

What the code does, and does not do:
- A target without a known output still gets an entry, without `output`.
- An object library gets an entry of its own and is not folded into the
  targets that use it. The header comment of ExportTarget
  (Source/cmAndroidGradleBuild.h:68-69) says `files` includes the sources
  of dependent object libraries. The code takes only what GetSourceFiles
  returns for the target, and the model does the same.
- The only rule surgery is the token erasure before expansion.
- `files` is absent, not empty, when a non-imported target has no C or C++
  source.

## Model

| member | source | states |
|---|---|---|
| Text.Find | Source/cmAndroidGradleBuild.cxx:335 | std::string::find: NPOS exactly when the needle does not occur, otherwise the least position where it occurs |
| Text.EraseFirstUnchangedIffAbsent | Source/cmAndroidGradleBuild.cxx:335-337 | erasing the first occurrence leaves the string unchanged iff the token is absent, and otherwise shortens it by the token's length |
| Text.EraseFirstKeepsLaterOccurrences | Source/cmAndroidGradleBuild.cxx:335-337 | only the first occurrence is erased: every later occurrence that does not overlap the first survives, shifted left by the token's length |
| Text.EraseFirstIsSubsequence | Source/cmAndroidGradleBuild.cxx:337 | the characters that remain after an erase keep their relative order |
| Text.ReplaceFirstShape | Source/cmAndroidGradleBuild.cxx:341-346 | a replace at the first occurrence keeps the prefix before it and the suffix after the placeholder, with the value in between |
| Text.SortedSeq | Source/cmAndroidGradleBuild.cxx:133-139 | std::set iteration order: strictly increasing, and holding exactly the set's elements |
| Text.SortedSeqNoDuplicates | Source/cmAndroidGradleBuild.cxx:133-139 | the enumeration of a set has no repeated element |
| Text.SortedElements | Tests/CMakeLib/check_android_gradle_build.cxx:253 | iterating a member-name list visits the set in increasing order |
| RuleSurgery.EraseEachIsSubsequence | Source/cmAndroidGradleBuild.cxx:328-338 | after all the token erasures, every other character keeps its relative order |
| RuleSurgery.EraseEachAbsent | Source/cmAndroidGradleBuild.cxx:333-338 | a template that holds none of the tokens comes out unchanged |
| RuleSurgery.EraseEachLength | Source/cmAndroidGradleBuild.cxx:333-338 | erasing never lengthens the template; each token still present when its turn in the list comes (after the earlier erases) shortens the result by at least its length |
| RuleSurgery.EraseUnusedRules | Source/cmAndroidGradleBuild.cxx:328-338 | the erase loop over the six tokens, in list order, yields the template with the first occurrence of each erased in turn |
| RuleSurgery.CompileFlagsSteps | Source/cmAndroidGradleBuild.cxx:340-348 | each of the three placeholders is found in its turn, and the flags string is the third replacement applied to the second applied to the first |
| RuleSurgery.ExportFlags | Source/cmAndroidGradleBuild.cxx:279-349 | the returned flags are the expanded, stripped template with the flags, defines and includes placeholders replaced by the target's values |
| GradleBuild.ExportSource | Source/cmAndroidGradleBuild.cxx:234-262 | the source entry holds exactly src, workingDirectory and flags; workingDirectory is the home output directory under Ninja and the current binary directory otherwise |
| GradleBuild.NativeSourcesExactly | Source/cmAndroidGradleBuild.cxx:222-228 | a source goes into `files` iff its language is C or CXX |
| GradleBuild.NativeSourcesInOrder | Source/cmAndroidGradleBuild.cxx:222-228 | the sources kept for `files` keep their order in the target's source list |
| GradleBuild.NativeSourcesEmpty | Source/cmAndroidGradleBuild.cxx:218-229 | no C or C++ source is kept iff the target has none |
| GradleBuild.FilesUpToIsSourceRecords | Source/cmAndroidGradleBuild.cxx:220-228 | after any number of sources, the array built so far holds the entries of the C and C++ sources among them |
| GradleBuild.NativeFilesDescribeSources | Source/cmAndroidGradleBuild.cxx:222-228 | the i-th `files` entry is ExportSource's entry for the i-th C or C++ source of the target |
| GradleBuild.ExportNativeFiles | Source/cmAndroidGradleBuild.cxx:218-229 | the append loop leaves `files` null if no source is C or C++, and otherwise an array of the entries of those sources |
| GradleBuild.ExportExtensions | Source/cmAndroidGradleBuild.cxx:144-168 | an extension is returned iff the target is not imported and some source whose language equals the tag exactly has that extension |
| GradleBuild.LibraryKeyInjective | Source/cmAndroidGradleBuild.cxx:96-108 | within one configuration and ABI, distinct target names get distinct keys |
| GradleBuild.LibraryHeadFields | Source/cmAndroidGradleBuild.cxx:178-215 | buildCommand iff not imported, and it is the cmake --build command; buildType iff config is non-empty, lower-cased; artifactName is always the unsuffixed name; abi iff abi is non-empty; output iff not an object library and the location is non-empty and not NOTFOUND, and it is that location; toolchain is always the shared id |
| GradleBuild.LibraryRecordFields | Source/cmAndroidGradleBuild.cxx:170-232 | the whole entry: the fields above plus `files` iff the target is not imported and has C or C++ sources, holding their entries; no other member |
| GradleBuild.ExportTarget | Source/cmAndroidGradleBuild.cxx:170-232 | the entry built field by field is the record whose members LibraryRecordFields describes |
| GradleBuild.ContextVisitsExactly | Source/cmAndroidGradleBuild.cxx:81-129 | within one makefile, a target is exported iff it is owned or imported and its type is one of the five exportable ones |
| GradleBuild.VisitsExactly | Source/cmAndroidGradleBuild.cxx:72-131 | across the project, a target is exported iff its context is one of the local generators, it is one of that context's targets, and its type is exportable |
| GradleBuild.LibraryMapSnoc | Source/cmAndroidGradleBuild.cxx:110-112 | exporting one more target sets its key to its entry, overwriting an earlier entry under that key |
| GradleBuild.ExtensionUnionSnoc | Source/cmAndroidGradleBuild.cxx:113-124 | exporting one more target adds its C and C++ extensions to the running sets |
| GradleBuild.ExportToolchains | Source/cmAndroidGradleBuild.cxx:56-68 | returns the hash of the first makefile's compilers as the id, and the table ToolchainTable describes |
| GradleBuild.ExportLibrary | Source/cmAndroidGradleBuild.cxx:95-124 | one exportable target stores its entry under its key and merges its extensions; nothing else of `libraries` changes |
| GradleBuild.ExportLibraries | Source/cmAndroidGradleBuild.cxx:80-130 | after one makefile's targets, `libraries` and the extension sets are those of all targets exported so far |
| GradleBuild.ExtensionArray | Source/cmAndroidGradleBuild.cxx:133-139 | the appended extension array is null for no extension, and otherwise the set in increasing order |
| GradleBuild.ExportProject | Source/cmAndroidGradleBuild.cxx:24-142 | no document without local generators, otherwise the document that ProjectDocumentShape describes |
| ExportedDocument.LibraryMapKeys | Source/cmAndroidGradleBuild.cxx:96-112 | `libraries` has a key iff some exported target gets that key |
| ExportedDocument.LibraryMapLastWins | Source/cmAndroidGradleBuild.cxx:110-112 | a key holds the entry of the last target exported under it |
| ExportedDocument.LibraryMapEntries | Source/cmAndroidGradleBuild.cxx:110-112 | every entry is the record of some exported target with that key |
| ExportedDocument.EveryLibraryUsesToolchain | Source/cmAndroidGradleBuild.cxx:62-215 | every entry names the one toolchain id, and its artifactName is the unsuffixed name of a target whose key it is stored under |
| ExportedDocument.ExtensionUnionExactly | Source/cmAndroidGradleBuild.cxx:113-167 | the published extensions of a language are exactly those of the sources in that language of the non-imported exported targets |
| ExportedDocument.ToolchainTable | Source/cmAndroidGradleBuild.cxx:56-68 | toolchains is null iff both compilers are empty; otherwise it has the single id key, with cCompilerExecutable iff the C compiler is non-empty and cppCompilerExecutable iff the C++ compiler is non-empty, each holding that path |
| ExportedDocument.ToolchainInputInjective | Source/cmAndroidGradleBuild.cxx:62-63 | a C compiler path without NUL is recovered with the C++ path from the hashed string, so distinct compiler pairs hash distinct inputs |
| ExportedDocument.DocumentMembers | Source/cmAndroidGradleBuild.cxx:39-139 | cleanCommands and toolchains are always members; the other four are members exactly when something was written to them |
| ExportedDocument.LibraryMapNonEmpty | Source/cmAndroidGradleBuild.cxx:110-112 | `libraries` is empty iff no target was exported |
| ExportedDocument.ProjectDocumentShape | Source/cmAndroidGradleBuild.cxx:24-142 | the document members and values: cleanCommands holds exactly one command; buildFiles holds one CMakeLists.txt per context in order; libraries is present iff a target was exported, and then it is the library map; each extension array is present iff non-empty, and then strictly increasing with exactly the union's elements |
| GradleCheck.EraseDone | Tests/CMakeLib/check_android_gradle_build.cxx:24-32 | when the erase loop ends, nothing remains expected iff the strings listed the expected set, each once |
| GradleCheck.EraseRejects | Tests/CMakeLib/check_android_gradle_build.cxx:26-28 | a string that is no longer expected (never expected, or seen before) means the strings do not list the set |
| GradleCheck.CheckEnumeration | Tests/CMakeLib/check_android_gradle_build.cxx:24-32 | the count/erase loop succeeds iff the strings are distinct and their set is the expected set |
| GradleCheck.CheckMemberNames | Tests/CMakeLib/check_android_gradle_build.cxx:133-141 | the member-name check succeeds iff the value is an object whose keys are exactly the expected set |
| GradleCheck.CheckStringArray | Tests/CMakeLib/check_android_gradle_build.cxx:17-34 | succeeds iff the member is an array of string-convertible values, pairwise distinct, whose set equals the expected set |
| GradleCheck.StringArrayRejectsDuplicates | Tests/CMakeLib/check_android_gradle_build.cxx:26-29 | a second copy of any element makes checkStringArray fail |
| GradleCheck.CheckFlagsFound | Tests/CMakeLib/check_android_gradle_build.cxx:100-103 | succeeds iff every expected flag occurs somewhere in the flags string |
| GradleCheck.CheckFile | Tests/CMakeLib/check_android_gradle_build.cxx:73-103 | one `files` entry passes iff it has exactly flags, src and workingDirectory; its workingDirectory is the expected one; and its flags contain every expected flag |
| GradleCheck.CheckFileList | Tests/CMakeLib/check_android_gradle_build.cxx:71-106 | the loop over `files` succeeds iff every entry passes and the src values list the expected sources, each once |
| GradleCheck.CheckFiles | Tests/CMakeLib/check_android_gradle_build.cxx:36-108 | succeeds iff `files` is an array that passes against the artifact's sources (main, exe and object/object for exe; `<artifact>/<artifact>` otherwise), its flags, and binary_dir, extended by `/<artifact>` only under Unix Makefiles for a non-exe artifact |
| GradleCheck.CheckLibraryFields | Tests/CMakeLib/check_android_gradle_build.cxx:143-160 | succeeds iff abi, artifactName, buildCommand and buildType are the expected strings |
| GradleCheck.CheckLibraryOutput | Tests/CMakeLib/check_android_gradle_build.cxx:163-185 | succeeds iff output is the artifact's path in the binary directory, with the platform's prefix and suffix, and toolchain is the expected id |
| GradleCheck.CheckLibrary | Tests/CMakeLib/check_android_gradle_build.cxx:110-187 | succeeds iff the entry under `<lang>_<artifact>-<buildType>-<abi>` is an object with exactly {abi, artifactName, buildCommand, buildType, files, output, toolchain}, and its fields, files and output all pass |
| GradleCheck.CheckImportedLibrary | Tests/CMakeLib/check_android_gradle_build.cxx:189-231 | succeeds iff the entry is an object with exactly {abi, artifactName, buildType, toolchain}, plus output only for "imported"; the values must match, and "imported"'s output must be the fake location |
| GradleCheck.BuiltKeysNextLanguage | Tests/CMakeLib/check_android_gradle_build.cxx:248-251 | the keys of one more language are the old keys plus that language's keys |
| GradleCheck.BuiltKeysNextArtifact | Tests/CMakeLib/check_android_gradle_build.cxx:249-251 | the keys of one more artifact are the old keys plus that artifact's key |
| GradleCheck.ExpectedLibraries | Tests/CMakeLib/check_android_gradle_build.cxx:243-252 | the nested loops yield {c,cpp} × {exe,shared,static,module} suffixed with `-<buildType>-<abi>`, plus `imported-<buildType>-<abi>` |
| GradleCheck.CheckLibraryKeys | Tests/CMakeLib/check_android_gradle_build.cxx:243-260 | succeeds iff the keys of `libraries` are exactly the expected library keys |
| GradleCheck.CheckLanguageLibraries | Tests/CMakeLib/check_android_gradle_build.cxx:262-265 | succeeds iff checkLibrary passes for the language and each of the four artifacts |
| GradleCheck.CheckBuiltLibraries | Tests/CMakeLib/check_android_gradle_build.cxx:261-265 | succeeds iff checkLibrary passes for every language and artifact |
| GradleCheck.CheckLibraryEntries | Tests/CMakeLib/check_android_gradle_build.cxx:261-268 | succeeds iff every built library passes and the imported library passes |
| GradleCheck.CheckLibraryTable | Tests/CMakeLib/check_android_gradle_build.cxx:239-269 | succeeds iff the keys are exactly the expected ones and every entry passes against the toolchain id |
| GradleCheck.CheckLibraries | Tests/CMakeLib/check_android_gradle_build.cxx:233-270 | succeeds iff `libraries` is an object, `toolchains` has a least member name to take as the id, and the table passes against it |
| GradleCheck.CheckToolchains | Tests/CMakeLib/check_android_gradle_build.cxx:272-303 | succeeds iff `toolchains` is an object with exactly one member, which has exactly cCompilerExecutable and cppCompilerExecutable, equal to the cached compilers |
| GradleCheck.CheckStringArrays | Tests/CMakeLib/check_android_gradle_build.cxx:332-346 | succeeds iff buildFiles lists the five CMakeLists.txt, the extensions are {c} and {cpp}, and cleanCommands is the one clean command |
| GradleCheck.CheckLibrariesAndToolchains | Tests/CMakeLib/check_android_gradle_build.cxx:347-348 | succeeds iff checkLibraries and checkToolchains both succeed |
| GradleCheck.CheckMembers | Tests/CMakeLib/check_android_gradle_build.cxx:331-348 | succeeds iff every check of the `||` chain succeeds |
| GradleCheck.CheckProject | Tests/CMakeLib/check_android_gradle_build.cxx:305-349 | succeeds iff the document is an object with exactly the six top-level members and every array, library and toolchain check succeeds |
| Agreement.KeysAgree | Source/cmAndroidGradleBuild.cxx:96-108 | with a configuration and an ABI, the exporter's key is the key checkLibrary looks the entry up by |
| Agreement.BuiltRecordKeysAgree | Source/cmAndroidGradleBuild.cxx:170-232 | a non-imported, non-object target with non-empty configuration and ABI gets exactly checkLibrary's seven members iff its location is known and it has C or C++ sources |
| Agreement.BuiltRecordHasCheckedKeys | Tests/CMakeLib/check_android_gradle_build.cxx:123-141 | such a target, with a non-empty location that is not NOTFOUND and with C or C++ sources, passes checkLibrary's member-name check |
| Agreement.ObjectLibraryRecordRefused | Source/cmAndroidGradleBuild.cxx:94-212 | an object library's entry has no output, so its member set is not the seven checkLibrary demands |
| Agreement.CheckedKeyCancels | Tests/CMakeLib/check_android_gradle_build.cxx:250-252 | two names with the same build type and ABI appended give the same key only if they are the same name |
| Agreement.ExpectedKeyNames | Tests/CMakeLib/check_android_gradle_build.cxx:243-252 | a key built from the cached build type and ABI is among the expected keys iff its name is one of the eight language_artifact names or "imported" |
| Agreement.ExportedKeyStored | Source/cmAndroidGradleBuild.cxx:96-108 | every exported target's key is a member of the document's `libraries` object |
| Agreement.UnrecognizedKeyFails | Tests/CMakeLib/check_android_gradle_build.cxx:253-257 | a key of `libraries` that is not expected makes checkLibraries and checkProject fail |
| Agreement.ObjectLibraryKeyUnrecognized | Tests/CMakeLib/check_android_gradle_build.cxx:243-257 | an exported object library whose name is none of the expected names puts an unexpected key into `libraries`, so checkLibraries and checkProject fail |
| Agreement.ImportedRecordKeysAgree | Tests/CMakeLib/check_android_gradle_build.cxx:198-215 | an imported target's entry has checkImportedLibrary's members iff it has an output exactly when it is the one named "imported" |
| Agreement.BuiltRecordFieldsAgree | Tests/CMakeLib/check_android_gradle_build.cxx:143-160 | when the cache agrees with the makefile's definitions, a built entry's abi, artifactName, buildCommand and buildType pass checkLibrary, and its toolchain is the exporter's id |
| Agreement.ToolchainsAgree | Tests/CMakeLib/check_android_gradle_build.cxx:272-303 | checkToolchains passes the exporter's table iff both compilers are non-empty and are the cached ones |
| Agreement.FirstToolchainIsId | Tests/CMakeLib/check_android_gradle_build.cxx:238 | the toolchain id checkLibraries takes is the id the exporter writes into every entry |
| Agreement.SortedArrayAccepted | Tests/CMakeLib/check_android_gradle_build.cxx:17-34 | on an array written from a std::set, checkStringArray passes iff the set is the expected set |
| Agreement.ExtensionArraysAgree | Tests/CMakeLib/check_android_gradle_build.cxx:339-340 | the extension checks pass the exporter's document iff the C extensions are exactly {c} and the C++ extensions exactly {cpp} |
| Agreement.CleanCommandAgrees | Tests/CMakeLib/check_android_gradle_build.cxx:341-346 | the clean-command check passes iff the exporter's command is the one the test builds from the cache |
| Agreement.DocumentKeysAgree | Tests/CMakeLib/check_android_gradle_build.cxx:307-324 | the document has exactly the six members checkProject demands iff some target was exported and both extension unions are non-empty |

## Left out

- Strings are sequences of characters, while `std::string` is a sequence
  of bytes. The positions and lengths that Text.Find,
  Text.EraseFirstUnchangedIffAbsent and RuleSurgery.EraseEachLength state
  count characters, not bytes. Presence and order of substrings are the
  same either way for valid UTF-8.
- Text.EraseFirstKeepsLaterOccurrences speaks only of later occurrences
  that do not overlap the first. An overlapping one can be destroyed by the
  erase: "aaa" with "aa" erased becomes "a".
- Writing the file and the JSON text (`cmGeneratedFileStream`, the
  serialisation), and the test's `main` (cache loading, file reading and
  parsing), are I/O. The exporter returns the document as a value. The
  test's checks take the parsed document and the cache as values.
- The test project's build graph and cache are not modelled. The checks
  work on any cache, and on documents whose scalars are strings or null.
- GradleCheck.StringArrayAccepted and GradleCheck.FileAccepted: the JSON
  value has no booleans or numbers. jsoncpp's `asString` converts those to
  text in checkStringArray and in the `src`, `workingDirectory` and `flags`
  reads. Its `!=` in the value comparisons of checkLibrary,
  checkImportedLibrary and checkToolchains never finds a number or boolean
  equal to the expected string. The model states these checks only for
  documents built from null, strings, arrays and objects, which is all the
  exporter writes.
- The failure messages the checks print are console text. A check returns
  only its status.
- `GetRequiredDefinition` reports a fatal error when a definition is
  missing. The model reads a missing definition as "", like
  `GetSafeDefinition`, and leaves the error report out.
- `GetConfigName` is read as the makefile's CMAKE_BUILD_TYPE.
- A missing cache value is read as "".
- GetSourceFiles, GetLocation, IsNOTFOUND, ExpandRuleVariables, AppendFlags,
  AppendDefines, JoinDefines, GetFlags/GetDefines/GetIncludes, Convert,
  ConvertToOutputPath, LowerCase/UpperCase and `std::hash` belong to CMake.
  They are uninterpreted functions of `Host` or fields of the input, so
  the source list of a target is whatever GetSourceFiles returns.
  AddIncludeFlags only delegates to these and is not modelled.
- RuleSurgery.ExportFlags requires the three placeholders to be found after
  expansion. In the source, `replace` at npos throws; that path is a
  precondition here, not an error result.
- GradleBuild.VisitRecord puts null for a target whose flags cannot be
  exported. ExportProject's precondition excludes such targets, so the
  value is never used.
- GradleBuild.ExportProject: a makefile vector that is empty while local
  generators exist (`makefiles.empty()`) is not modelled. Both lists come
  from the same generators. The output stream failing to open is I/O.
- GradleCheck.CheckFlagsFound checks the expected flags in an unspecified
  order, not std::set order. Only the message of the first missing flag
  depends on the order, and messages are not modelled.
- GradleCheck.CheckFile reads an entry's src before its workingDirectory
  and flags, but the src erase is made by CheckFileList after CheckFile
  passes. A failing entry fails either way, so the outcome is the same.
- jsoncpp's throwing calls count as the test failing: `asString` on an
  array or object, and `getMemberNames` on a value that is neither an
  object nor null. The test has no handler for them.
- GradleCheck.CheckLibraries: `front()` on the empty member list of a
  missing or empty `toolchains`
  (Tests/CMakeLib/check_android_gradle_build.cxx:238) is undefined
  behaviour, not a jsoncpp exception. The model counts it as a failure.
- Source/cmAndroidGradleBuild.h holds declarations and doc comments.
  Source/cmExtraAndroidGradleGenerator.cxx/.h is a superseded variant and is
  not part of this model. kokoro/build.py is not part of this model either.
