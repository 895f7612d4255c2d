/** check_android_gradle_build: the test that reads the
    android_gradle_build.json of the AndroidGradleBuild test project back
    and compares it with what the project's CMake cache says it must hold.
    Each check answers EXIT_SUCCESS only when every comparison holds. A
    call that jsoncpp refuses by throwing (asString on an array or object,
    getMemberNames on a string or array) ends the test without success, so
    it counts as a failure here. The front() of an empty member list is
    undefined behaviour in the source; it too counts as a failure. */
module GradleCheck {
  import opened Text
  import opened JsonValue
  import opened BuildGraph

  /** The exit status of a check. The message a failing check prints is
      not modelled. */
  datatype Status = Success | Failure

  /** The CMake cache of the test project's build tree. */
  datatype Cache = Cache(entries: map<string, string>)

  /** cmCacheManager::GetInitializedCacheValue, read as "" for an entry
      that is not in the cache. */
  function CacheValue(cache: Cache, name: string): string {
    if name in cache.entries then cache.entries[name] else ""
  }

  // ------------------------------------------------------ expected sets

  /** No string occurs twice. */
  predicate Distinct(xs: seq<string>) {
    forall i, j :: 0 <= i < j < |xs| ==> xs[i] != xs[j]
  }

  /** xs lists the expected set, each element exactly once. */
  predicate Enumerates(xs: seq<string>, expected: set<string>) {
    && Distinct(xs)
    && (forall x :: x in xs ==> x in expected)
    && (forall x :: x in expected ==> x in xs)
  }

  /** Where the checks' erase loop stands after the strings `seen`: each was
      expected, none repeats, and `remaining` holds the expected strings not
      seen yet. */
  ghost predicate ErasedSoFar(seen: seq<string>, expected: set<string>, remaining: set<string>) {
    && Distinct(seen)
    && (forall x :: x in seen ==> x in expected)
    && (forall x :: x in remaining <==> x in expected && x !in seen)
  }

  lemma ErasedNothing(expected: set<string>)
    ensures ErasedSoFar([], expected, expected)
  {
  }

  /** The next string is erased when it is still expected ... */
  lemma EraseStep(seen: seq<string>, x: string, expected: set<string>, remaining: set<string>)
    requires ErasedSoFar(seen, expected, remaining) && x in remaining
    ensures ErasedSoFar(seen + [x], expected, remaining - {x})
  {
    var next := seen + [x];
    forall i, j | 0 <= i < j < |next| ensures next[i] != next[j] {
      if j == |seen| {
        assert next[i] == seen[i];
        assert seen[i] in seen;
      } else {
        assert next[i] == seen[i] && next[j] == seen[j];
      }
    }
  }

  /** ... and otherwise it is either unexpected or a second copy, so the
      whole list cannot enumerate the expected set. */
  lemma EraseRejects(xs: seq<string>, k: int, expected: set<string>, remaining: set<string>)
    requires 0 <= k < |xs| && ErasedSoFar(xs[..k], expected, remaining) && xs[k] !in remaining
    ensures !Enumerates(xs, expected)
  {
    if xs[k] in expected {
      assert xs[k] in xs[..k];
      var i :| 0 <= i < k && xs[..k][i] == xs[k];
      assert xs[i] == xs[k];
    } else {
      assert xs[k] in xs;
    }
  }

  /** After the last string: nothing left to see exactly when the list
      enumerates the expected set. */
  lemma EraseDone(xs: seq<string>, expected: set<string>, remaining: set<string>)
    requires ErasedSoFar(xs, expected, remaining)
    ensures remaining == {} <==> Enumerates(xs, expected)
  {
    if remaining != {} {
      var x :| x in remaining;
      assert x in expected && x !in xs;
    }
  }

  /** The loop every check runs over a list of strings: erase each from a
      copy of the expected set, failing on one that is not (or no longer)
      there, then fail if anything is left. */
  method CheckEnumeration(xs: seq<string>, expected: set<string>) returns (status: Status)
    ensures status == Success <==> Enumerates(xs, expected)
  {
    var remaining := expected;
    ErasedNothing(expected);
    for k := 0 to |xs|
      invariant ErasedSoFar(xs[..k], expected, remaining)
    {
      var x := xs[k];
      if x !in remaining {
        EraseRejects(xs, k, expected, remaining);
        return Failure;
      }
      EraseStep(xs[..k], x, expected, remaining);
      assert xs[..k + 1] == xs[..k] + [x];
      remaining := remaining - {x};
    }
    assert xs[..|xs|] == xs;
    EraseDone(xs, expected, remaining);
    if remaining != {} {
      return Failure;
    }
    return Success;
  }

  /** The member-name check of an object: getMemberNames (in sorted order,
      each name once) run through the erase loop. The check succeeds
      exactly when the value is an object with exactly the expected members
      (null has none, and any other value makes jsoncpp refuse). */
  method CheckMemberNames(value: Json, expected: set<string>) returns (status: Status)
    ensures status == Success <==> MemberNames(value) == Some(expected)
  {
    var names := MemberNames(value);
    if names.None? {
      return Failure;
    }
    var members := SortedElements(names.value);
    SortedSeqNoDuplicates(names.value);
    status := CheckEnumeration(members, expected);
    if status == Success {
      assert names.value == expected;
    }
  }

  // ------------------------------------------------------ checkStringArray

  /** The strings of the array's elements, each as asString gives it. */
  function Strings(items: seq<Json>): (r: seq<string>)
    requires forall i :: 0 <= i < |items| ==> Convertible(items[i])
    ensures |r| == |items|
    ensures forall i :: 0 <= i < |items| ==> r[i] == AsString(items[i])
  {
    seq(|items|, i requires 0 <= i < |items| => AsString(items[i]))
  }

  /** checkStringArray succeeds: the member is an array, its elements are
      strings (or null), and they are the expected strings, each once. */
  predicate StringArrayAccepted(project: Json, name: string, expected: set<string>) {
    var values := Get(project, name);
    && values.JArray?
    && (forall i :: 0 <= i < |values.items| ==> Convertible(values.items[i]))
    && Enumerates(Strings(values.items), expected)
  }

  method CheckStringArray(project: Json, name: string, expectedMembers: set<string>) returns (status: Status)
    ensures status == Success <==> StringArrayAccepted(project, name, expectedMembers)
  {
    var values := Get(project, name);
    if !values.JArray? {
      return Failure;
    }
    var items := values.items;
    var remaining := expectedMembers;
    ghost var seen: seq<string> := [];
    ErasedNothing(expectedMembers);
    for k := 0 to |items|
      invariant forall i :: 0 <= i < k ==> Convertible(items[i])
      invariant |seen| == k && forall i :: 0 <= i < k ==> seen[i] == AsString(items[i])
      invariant ErasedSoFar(seen, expectedMembers, remaining)
    {
      if !Convertible(items[k]) {
        return Failure;
      }
      var str := AsString(items[k]);
      if str !in remaining {
        if forall i :: 0 <= i < |items| ==> Convertible(items[i]) {
          assert Strings(items)[..k] == seen;
          EraseRejects(Strings(items), k, expectedMembers, remaining);
        }
        return Failure;
      }
      EraseStep(seen, str, expectedMembers, remaining);
      seen := seen + [str];
      remaining := remaining - {str};
    }
    assert seen == Strings(items);
    EraseDone(seen, expectedMembers, remaining);
    if remaining != {} {
      return Failure;
    }
    return Success;
  }

  /** A second copy of an expected string makes checkStringArray fail. */
  lemma StringArrayRejectsDuplicates(project: Json, name: string, expected: set<string>, i: int, j: int)
    requires Get(project, name).JArray? && 0 <= i < j < |Get(project, name).items|
    requires forall k :: 0 <= k < |Get(project, name).items| ==> Convertible(Get(project, name).items[k])
    requires AsString(Get(project, name).items[i]) == AsString(Get(project, name).items[j])
    ensures !StringArrayAccepted(project, name, expected)
  {
    var strs := Strings(Get(project, name).items);
    assert strs[i] == strs[j];
  }

  // ------------------------------------------------------------ checkFiles

  function SourceDir(cache: Cache): string {
    CacheValue(cache, "AndroidGradleBuild_SOURCE_DIR")
  }

  function BinaryDir(cache: Cache): string {
    CacheValue(cache, "AndroidGradleBuild_BINARY_DIR")
  }

  /** The sources of an artifact of the test project: the exe target is
      built from main, exe and the object library's source; every other
      artifact from the one source in its own directory. */
  function ExpectedSources(cache: Cache, language: string, artifact: string): set<string> {
    var sourceDir := SourceDir(cache);
    if artifact == "exe" then
      {sourceDir + "/main." + language,
       sourceDir + "/" + artifact + "." + language,
       sourceDir + "/object/object." + language}
    else
      {sourceDir + "/" + artifact + "/" + artifact + "." + language}
  }

  /** The flags every source of the artifact must be compiled with. */
  function ExpectedFlags(host: Host, cache: Cache, language: string, buildType: string): set<string> {
    var sourceDir := SourceDir(cache);
    {"-DDEFINITION",
     "-I" + host.outputPath(sourceDir + "/shared"),
     "-I" + host.outputPath(sourceDir + "/static"),
     "-I" + host.outputPath(sourceDir + "/module"),
     "-I" + host.outputPath(sourceDir + "/object"),
     "-D" + host.upperCase(language) + "_FLAGS",
     "-D" + host.upperCase(language) + "_" + host.upperCase(buildType) + "_FLAGS"}
  }

  /** The binary directory, with the artifact's own subdirectory under the
      Unix Makefiles generator for every artifact but exe. */
  function ExpectedWorkingDirectory(cache: Cache, artifact: string): string {
    var binaryDir := BinaryDir(cache);
    if CacheValue(cache, "CMAKE_GENERATOR") == "Unix Makefiles" && artifact != "exe"
    then binaryDir + "/" + artifact
    else binaryDir
  }

  const FileMembers: set<string> := {"flags", "src", "workingDirectory"}

  /** One `files` entry passes the per-entry checks: exactly the three
      members, a readable src, the expected working directory, and each
      expected flag somewhere in its flags. */
  predicate FileAccepted(file: Json, workingDirectory: string, flags: set<string>) {
    && MemberNames(file) == Some(FileMembers)
    && Convertible(Get(file, "src"))
    && Convertible(Get(file, "workingDirectory"))
    && AsString(Get(file, "workingDirectory")) == workingDirectory
    && Convertible(Get(file, "flags"))
    && forall flag :: flag in flags ==> Contains(AsString(Get(file, "flags")), flag)
  }

  /** `file["src"].asString()`, read as "" where jsoncpp would refuse;
      the oracle only reads it once the entry has passed. */
  function Src(file: Json): string {
    var src := Get(file, "src");
    if Convertible(src) then AsString(src) else ""
  }

  /** The src strings of the entries. */
  function Srcs(files: seq<Json>): (r: seq<string>)
    ensures |r| == |files|
    ensures forall i :: 0 <= i < |files| ==> r[i] == Src(files[i])
  {
    seq(|files|, i requires 0 <= i < |files| => Src(files[i]))
  }

  /** The entries of `files` are accepted and their sources are the
      expected ones, each once. */
  predicate FileListAccepted(items: seq<Json>, workingDirectory: string, flags: set<string>, sources: set<string>) {
    && (forall i :: 0 <= i < |items| ==> FileAccepted(items[i], workingDirectory, flags))
    && Enumerates(Srcs(items), sources)
  }

  /** checkFiles succeeds: `files` is an array whose entries pass against
      the artifact's working directory, flags and sources. */
  predicate FilesAccepted(library: Json, host: Host, cache: Cache, language: string, artifact: string,
                          buildType: string) {
    var files := Get(library, "files");
    && files.JArray?
    && FileListAccepted(files.items, ExpectedWorkingDirectory(cache, artifact),
         ExpectedFlags(host, cache, language, buildType), ExpectedSources(cache, language, artifact))
  }

  /** The flags loop of checkFiles: every expected flag, in set order, must
      be found in the entry's flags. */
  method CheckFlagsFound(flags: string, expectedFlags: set<string>) returns (status: Status)
    ensures status == Success <==> forall flag :: flag in expectedFlags ==> Contains(flags, flag)
  {
    var remaining := expectedFlags;
    while remaining != {}
      invariant remaining <= expectedFlags
      invariant forall flag :: flag in expectedFlags && flag !in remaining ==> Contains(flags, flag)
      decreases |remaining|
    {
      var flag :| flag in remaining;
      if Find(flags, flag) == NPOS {
        return Failure;
      }
      remaining := remaining - {flag};
    }
    return Success;
  }

  /** The checks on one `files` entry, up to the erase of its src. */
  method CheckFile(file: Json, workingDirectory: string, expectedFlags: set<string>) returns (status: Status)
    ensures status == Success <==> FileAccepted(file, workingDirectory, expectedFlags)
  {
    status := CheckMemberNames(file, FileMembers);
    if status == Failure {
      return;
    }
    if !Convertible(Get(file, "src")) || !Convertible(Get(file, "workingDirectory")) {
      return Failure;
    }
    if AsString(Get(file, "workingDirectory")) != workingDirectory {
      return Failure;
    }
    if !Convertible(Get(file, "flags")) {
      return Failure;
    }
    status := CheckFlagsFound(AsString(Get(file, "flags")), expectedFlags);
  }

  method CheckFiles(library: Json, host: Host, cache: Cache, language: string, artifact: string,
                    buildType: string) returns (status: Status)
    ensures status == Success <==> FilesAccepted(library, host, cache, language, artifact, buildType)
  {
    var files := Get(library, "files");
    if !files.JArray? {
      return Failure;
    }
    var expectedSources := ExpectedSources(cache, language, artifact);
    var expectedFlags := ExpectedFlags(host, cache, language, buildType);
    var expectedWorkingDirectory := BinaryDir(cache);
    if CacheValue(cache, "CMAKE_GENERATOR") == "Unix Makefiles" && artifact != "exe" {
      expectedWorkingDirectory := expectedWorkingDirectory + "/" + artifact;
    }
    status := CheckFileList(files.items, expectedWorkingDirectory, expectedFlags, expectedSources);
  }

  /** The loop of checkFiles: each entry is checked and its source erased
      from the expected ones, which must all be gone at the end. */
  method CheckFileList(items: seq<Json>, workingDirectory: string, flags: set<string>, sources: set<string>)
    returns (status: Status)
    ensures status == Success <==> FileListAccepted(items, workingDirectory, flags, sources)
  {
    var expectedSources := sources;
    ghost var seen: seq<string> := [];
    ErasedNothing(sources);
    for k := 0 to |items|
      invariant forall i :: 0 <= i < k ==> FileAccepted(items[i], workingDirectory, flags)
      invariant |seen| == k && forall i :: 0 <= i < k ==> seen[i] == Src(items[i])
      invariant ErasedSoFar(seen, sources, expectedSources)
    {
      var file := items[k];
      status := CheckFile(file, workingDirectory, flags);
      if status == Failure {
        return;
      }
      var src := Src(file);
      if src !in expectedSources {
        if forall i :: 0 <= i < |items| ==> FileAccepted(items[i], workingDirectory, flags) {
          assert Srcs(items)[..k] == seen;
          EraseRejects(Srcs(items), k, sources, expectedSources);
        }
        return Failure;
      }
      EraseStep(seen, src, sources, expectedSources);
      seen := seen + [src];
      expectedSources := expectedSources - {src};
    }
    assert seen == Srcs(items);
    EraseDone(seen, sources, expectedSources);
    if expectedSources != {} {
      return Failure;
    }
    return Success;
  }

  // ---------------------------------------------------------- checkLibrary

  /** The test project's target for a language and an artifact, "c_exe" and
      so on. */
  function LibraryName(language: string, artifact: string): string {
    language + "_" + artifact
  }

  /** The key the test looks a library up by. */
  function CheckedKey(name: string, buildType: string, abi: string): string {
    name + "-" + buildType + "-" + abi
  }

  /** The members a built library must have, no more and no fewer. */
  const BuiltLibraryMembers: set<string> :=
    {"abi", "artifactName", "buildCommand", "buildType", "files", "output", "toolchain"}

  function ExpectedBuildCommand(host: Host, cache: Cache, name: string): string {
    host.outputPath(CacheValue(cache, "CMAKE_COMMAND")) + " --build "
      + host.outputPath(BinaryDir(cache)) + " --target " + name
  }

  /** Where the artifact is built: the executable at the top of the binary
      directory, each library in its own subdirectory with the platform's
      prefix and suffix; nothing for an artifact of another kind. */
  function ExpectedOutput(cache: Cache, name: string, artifact: string): string {
    var binaryDir := BinaryDir(cache);
    if artifact == "exe" then
      binaryDir + "/" + name + CacheValue(cache, "CMAKE_EXECUTABLE_SUFFIX")
    else if artifact == "shared" then
      binaryDir + "/" + artifact + "/" + CacheValue(cache, "CMAKE_SHARED_LIBRARY_PREFIX")
        + name + CacheValue(cache, "CMAKE_SHARED_LIBRARY_SUFFIX")
    else if artifact == "static" then
      binaryDir + "/" + artifact + "/" + CacheValue(cache, "CMAKE_STATIC_LIBRARY_PREFIX")
        + name + CacheValue(cache, "CMAKE_STATIC_LIBRARY_SUFFIX")
    else if artifact == "module" then
      binaryDir + "/" + artifact + "/" + CacheValue(cache, "CMAKE_SHARED_MODULE_PREFIX")
        + name + CacheValue(cache, "CMAKE_SHARED_MODULE_SUFFIX")
    else ""
  }

  /** The four plain members of a built library checkLibrary compares
      before its files. */
  predicate LibraryFieldsAccepted(library: Json, host: Host, cache: Cache, name: string, buildType: string,
                                  abi: string) {
    && Get(library, "abi") == JString(abi)
    && Get(library, "artifactName") == JString(name)
    && Get(library, "buildCommand") == JString(ExpectedBuildCommand(host, cache, name))
    && Get(library, "buildType") == JString(host.lowerCase(buildType))
  }

  /** The two members checkLibrary compares after the files. */
  predicate LibraryOutputAccepted(library: Json, cache: Cache, name: string, artifact: string, toolchain: string) {
    && Get(library, "output") == JString(ExpectedOutput(cache, name, artifact))
    && Get(library, "toolchain") == JString(toolchain)
  }

  /** The checks checkLibrary makes once the entry is an object with the
      seven member names, in the order it makes them. */
  datatype LibraryCheck = FieldsCheck | FilesCheck | OutputCheck

  predicate LibraryCheckPasses(check: LibraryCheck, library: Json, host: Host, cache: Cache, language: string,
                               artifact: string, buildType: string, abi: string, toolchain: string) {
    var name := LibraryName(language, artifact);
    match check
    case FieldsCheck => LibraryFieldsAccepted(library, host, cache, name, buildType, abi)
    case FilesCheck => FilesAccepted(library, host, cache, language, artifact, buildType)
    case OutputCheck => LibraryOutputAccepted(library, cache, name, artifact, toolchain)
  }

  /** checkLibrary succeeds: the entry is an object with exactly the seven
      members, and every check of its members passes. */
  predicate LibraryAccepted(libraries: Json, host: Host, cache: Cache, language: string, artifact: string,
                            buildType: string, abi: string, toolchain: string) {
    var library := Get(libraries, CheckedKey(LibraryName(language, artifact), buildType, abi));
    && library.JObject?
    && library.members.Keys == BuiltLibraryMembers
    && forall check :: LibraryCheckPasses(check, library, host, cache, language, artifact, buildType, abi, toolchain)
  }

  method CheckLibrary(libraries: Json, host: Host, cache: Cache, language: string, artifact: string,
                      buildType: string, abi: string, toolchain: string) returns (status: Status)
    ensures status == Success <==> LibraryAccepted(libraries, host, cache, language, artifact, buildType, abi, toolchain)
  {
    var name := language + "_" + artifact;
    var library := Get(libraries, name + "-" + buildType + "-" + abi);
    if !library.JObject? {
      return Failure;
    }
    status := CheckMemberNames(library, BuiltLibraryMembers);
    if status == Failure {
      return;
    }
    status := CheckLibraryFields(library, host, cache, name, buildType, abi);
    if status == Failure {
      assert !LibraryCheckPasses(FieldsCheck, library, host, cache, language, artifact, buildType, abi, toolchain);
      return;
    }
    status := CheckFiles(library, host, cache, language, artifact, buildType);
    if status == Failure {
      assert !LibraryCheckPasses(FilesCheck, library, host, cache, language, artifact, buildType, abi, toolchain);
      return;
    }
    status := CheckLibraryOutput(library, cache, name, artifact, toolchain);
    if status == Failure {
      assert !LibraryCheckPasses(OutputCheck, library, host, cache, language, artifact, buildType, abi, toolchain);
    }
  }

  method CheckLibraryFields(library: Json, host: Host, cache: Cache, name: string, buildType: string, abi: string)
    returns (status: Status)
    ensures status == Success <==> LibraryFieldsAccepted(library, host, cache, name, buildType, abi)
  {
    if Get(library, "abi") != JString(abi) || Get(library, "artifactName") != JString(name) {
      return Failure;
    }
    var cmake := CacheValue(cache, "CMAKE_COMMAND");
    var binaryDir := CacheValue(cache, "AndroidGradleBuild_BINARY_DIR");
    var buildCommand := host.outputPath(cmake) + " --build " + host.outputPath(binaryDir) + " --target " + name;
    if Get(library, "buildCommand") != JString(buildCommand) {
      return Failure;
    }
    if Get(library, "buildType") != JString(host.lowerCase(buildType)) {
      return Failure;
    }
    return Success;
  }

  method CheckLibraryOutput(library: Json, cache: Cache, name: string, artifact: string, toolchain: string)
    returns (status: Status)
    ensures status == Success <==> LibraryOutputAccepted(library, cache, name, artifact, toolchain)
  {
    var binaryDir := CacheValue(cache, "AndroidGradleBuild_BINARY_DIR");
    var output := "";
    if artifact == "exe" {
      output := binaryDir + "/" + name + CacheValue(cache, "CMAKE_EXECUTABLE_SUFFIX");
    } else if artifact == "shared" {
      output := binaryDir + "/" + artifact + "/" + CacheValue(cache, "CMAKE_SHARED_LIBRARY_PREFIX")
        + name + CacheValue(cache, "CMAKE_SHARED_LIBRARY_SUFFIX");
    } else if artifact == "static" {
      output := binaryDir + "/" + artifact + "/" + CacheValue(cache, "CMAKE_STATIC_LIBRARY_PREFIX")
        + name + CacheValue(cache, "CMAKE_STATIC_LIBRARY_SUFFIX");
    } else if artifact == "module" {
      output := binaryDir + "/" + artifact + "/" + CacheValue(cache, "CMAKE_SHARED_MODULE_PREFIX")
        + name + CacheValue(cache, "CMAKE_SHARED_MODULE_SUFFIX");
    }
    if Get(library, "output") != JString(output) {
      return Failure;
    }
    if Get(library, "toolchain") != JString(toolchain) {
      return Failure;
    }
    return Success;
  }

  /** The members an imported library must have: output only for the one
      named "imported". */
  function ImportedLibraryMembers(name: string): set<string> {
    {"abi", "artifactName", "buildType", "toolchain"} + (if name == "imported" then {"output"} else {})
  }

  /** The location the test project gives its imported library. */
  const ImportedLocation: string := "/fake/location/libimported.so"

  predicate ImportedLibraryAccepted(libraries: Json, host: Host, name: string, buildType: string, abi: string,
                                    toolchain: string) {
    var library := Get(libraries, CheckedKey(name, buildType, abi));
    && library.JObject?
    && library.members.Keys == ImportedLibraryMembers(name)
    && Get(library, "abi") == JString(abi)
    && Get(library, "artifactName") == JString(name)
    && Get(library, "buildType") == JString(host.lowerCase(buildType))
    && (name == "imported" ==> Get(library, "output") == JString(ImportedLocation))
    && Get(library, "toolchain") == JString(toolchain)
  }

  method CheckImportedLibrary(libraries: Json, host: Host, name: string, buildType: string, abi: string,
                              toolchain: string) returns (status: Status)
    ensures status == Success <==> ImportedLibraryAccepted(libraries, host, name, buildType, abi, toolchain)
  {
    var library := Get(libraries, name + "-" + buildType + "-" + abi);
    if !library.JObject? {
      return Failure;
    }
    var expectedMembers := {"abi", "artifactName", "buildType", "toolchain"};
    if name == "imported" {
      expectedMembers := expectedMembers + {"output"};
    }
    assert expectedMembers == ImportedLibraryMembers(name);
    status := CheckMemberNames(library, expectedMembers);
    if status == Failure {
      return;
    }
    if Get(library, "abi") != JString(abi) || Get(library, "artifactName") != JString(name) {
      return Failure;
    }
    if Get(library, "buildType") != JString(host.lowerCase(buildType)) {
      return Failure;
    }
    if name == "imported" && Get(library, "output") != JString("/fake/location/libimported.so") {
      return Failure;
    }
    if Get(library, "toolchain") != JString(toolchain) {
      return Failure;
    }
    return Success;
  }

  // -------------------------------------------------------- checkLibraries

  const Languages: seq<string> := ["c", "cpp"]
  const Artifacts: seq<string> := ["exe", "shared", "static", "module"]

  /** The keys `libraries` must have: one per language and artifact, and
      the imported library's, all for the cached build type and ABI. */
  function ExpectedLibraryKeys(buildType: string, abi: string): set<string> {
    BuiltKeys(Languages, Artifacts, buildType, abi) + {"imported-" + buildType + "-" + abi}
  }

  /** The keys of the built libraries of the given languages and artifacts. */
  function BuiltKeys(languages: seq<string>, artifacts: seq<string>, buildType: string, abi: string): set<string> {
    set language, artifact | language in languages && artifact in artifacts ::
      CheckedKey(LibraryName(language, artifact), buildType, abi)
  }

  lemma BuiltKeysNextLanguage(languages: seq<string>, language: string, artifacts: seq<string>,
                              buildType: string, abi: string)
    ensures BuiltKeys(languages + [language], artifacts, buildType, abi)
         == BuiltKeys(languages, artifacts, buildType, abi) + BuiltKeys([language], artifacts, buildType, abi)
  {
    var key := (l: string, a: string) => CheckedKey(LibraryName(l, a), buildType, abi);
    forall x | x in BuiltKeys(languages + [language], artifacts, buildType, abi)
      ensures x in BuiltKeys(languages, artifacts, buildType, abi) + BuiltKeys([language], artifacts, buildType, abi)
    {
      var l, a :| l in languages + [language] && a in artifacts && x == key(l, a);
      if l == language {
        assert l in [language];
      }
    }
  }

  lemma BuiltKeysNextArtifact(language: string, artifacts: seq<string>, artifact: string,
                              buildType: string, abi: string)
    ensures BuiltKeys([language], artifacts + [artifact], buildType, abi)
         == BuiltKeys([language], artifacts, buildType, abi)
            + {CheckedKey(LibraryName(language, artifact), buildType, abi)}
  {
    var key := (l: string, a: string) => CheckedKey(LibraryName(l, a), buildType, abi);
    forall x | x in BuiltKeys([language], artifacts + [artifact], buildType, abi)
      ensures x in BuiltKeys([language], artifacts, buildType, abi) + {key(language, artifact)}
    {
      var l, a :| l in [language] && a in artifacts + [artifact] && x == key(l, a);
      if a != artifact {
        assert a in artifacts;
      }
    }
    assert artifact in artifacts + [artifact] && language in [language];
  }

  /** The nested loops of checkLibraries that fill expectedLibraries. */
  method ExpectedLibraries(buildType: string, abi: string) returns (expectedLibraries: set<string>)
    ensures expectedLibraries == ExpectedLibraryKeys(buildType, abi)
  {
    expectedLibraries := {};
    for i := 0 to |Languages|
      invariant expectedLibraries == BuiltKeys(Languages[..i], Artifacts, buildType, abi)
    {
      ghost var before := expectedLibraries;
      var language := Languages[i];
      for j := 0 to |Artifacts|
        invariant expectedLibraries == before + BuiltKeys([language], Artifacts[..j], buildType, abi)
      {
        var artifact := Artifacts[j];
        BuiltKeysNextArtifact(language, Artifacts[..j], artifact, buildType, abi);
        assert Artifacts[..j + 1] == Artifacts[..j] + [artifact];
        expectedLibraries := expectedLibraries + {language + "_" + artifact + "-" + buildType + "-" + abi};
      }
      assert Artifacts[..|Artifacts|] == Artifacts;
      BuiltKeysNextLanguage(Languages[..i], language, Artifacts, buildType, abi);
      assert Languages[..i + 1] == Languages[..i] + [language];
    }
    assert Languages[..|Languages|] == Languages;
    expectedLibraries := expectedLibraries + {"imported-" + buildType + "-" + abi};
  }

  /** `project["toolchains"].getMemberNames().front()`: the least toolchain
      id; none when there is no toolchain (front() of an empty list, which
      is undefined behaviour in the source) or the member is not an object. */
  ghost function FirstToolchain(project: Json): Option<string> {
    match MemberNames(Get(project, "toolchains"))
    case None => None
    case Some(names) => if names == {} then None else Some(SortedSeq(names)[0])
  }

  function BuildType(cache: Cache): string {
    CacheValue(cache, "CMAKE_BUILD_TYPE")
  }

  function CachedAbi(cache: Cache): string {
    CacheValue(cache, "CMAKE_ANDROID_ARCH_ABI")
  }

  /** The checks checkLibraries makes of the library table once the
      toolchain id is known, in the order it makes them. */
  datatype TableCheck = LibraryKeysCheck | BuiltLibrariesCheck | ImportedLibrariesCheck

  predicate TableCheckPasses(check: TableCheck, libraries: Json, host: Host, cache: Cache, toolchain: string) {
    match check
    case LibraryKeysCheck =>
      MemberNames(libraries) == Some(ExpectedLibraryKeys(BuildType(cache), CachedAbi(cache)))
    case BuiltLibrariesCheck =>
      BuiltLibrariesAccepted(libraries, host, cache, BuildType(cache), CachedAbi(cache), toolchain)
    case ImportedLibrariesCheck =>
      ImportedLibraryAccepted(libraries, host, "imported", BuildType(cache), CachedAbi(cache), toolchain)
  }

  /** The library table passes: exactly the expected keys, every built
      library passes checkLibrary against the toolchain id, and the
      imported one passes checkImportedLibrary. */
  predicate LibraryTableAccepted(libraries: Json, host: Host, cache: Cache, toolchain: string) {
    && libraries.JObject?
    && forall check :: TableCheckPasses(check, libraries, host, cache, toolchain)
  }

  predicate BuiltLibrariesAccepted(libraries: Json, host: Host, cache: Cache, buildType: string, abi: string,
                                   toolchain: string) {
    forall i, j :: 0 <= i < |Languages| && 0 <= j < |Artifacts| ==>
      LibraryAccepted(libraries, host, cache, Languages[i], Artifacts[j], buildType, abi, toolchain)
  }

  /** checkLibraries succeeds: `libraries` is an object, `toolchains` has a
      first id, and the table passes against it. */
  ghost predicate LibrariesAccepted(project: Json, host: Host, cache: Cache) {
    var libraries := Get(project, "libraries");
    var toolchain := FirstToolchain(project);
    && libraries.JObject?
    && toolchain.Some?
    && LibraryTableAccepted(libraries, host, cache, toolchain.value)
  }

  /** The checkLibrary calls for one language, artifact by artifact,
      stopping at the first failure. */
  method CheckLanguageLibraries(libraries: Json, host: Host, cache: Cache, language: string,
                                buildType: string, abi: string, toolchain: string) returns (status: Status)
    ensures status == Success <==> forall j :: 0 <= j < |Artifacts| ==>
      LibraryAccepted(libraries, host, cache, language, Artifacts[j], buildType, abi, toolchain)
  {
    for j := 0 to |Artifacts|
      invariant forall j' :: 0 <= j' < j ==>
        LibraryAccepted(libraries, host, cache, language, Artifacts[j'], buildType, abi, toolchain)
    {
      status := CheckLibrary(libraries, host, cache, language, Artifacts[j], buildType, abi, toolchain);
      if status == Failure {
        return;
      }
    }
    return Success;
  }

  /** The checkLibrary calls of checkLibraries, language by language,
      stopping at the first failure. */
  method CheckBuiltLibraries(libraries: Json, host: Host, cache: Cache, buildType: string, abi: string,
                             toolchain: string) returns (status: Status)
    ensures status == Success <==> BuiltLibrariesAccepted(libraries, host, cache, buildType, abi, toolchain)
  {
    for i := 0 to |Languages|
      invariant forall i', j :: 0 <= i' < i && 0 <= j < |Artifacts| ==>
        LibraryAccepted(libraries, host, cache, Languages[i'], Artifacts[j], buildType, abi, toolchain)
    {
      status := CheckLanguageLibraries(libraries, host, cache, Languages[i], buildType, abi, toolchain);
      if status == Failure {
        return;
      }
    }
    return Success;
  }

  method CheckLibraries(project: Json, host: Host, cache: Cache) returns (status: Status)
    ensures status == Success <==> LibrariesAccepted(project, host, cache)
  {
    var libraries := Get(project, "libraries");
    if !libraries.JObject? {
      return Failure;
    }
    var toolchainNames := MemberNames(Get(project, "toolchains"));
    if toolchainNames.None? {
      return Failure;
    }
    var names := SortedElements(toolchainNames.value);
    if |names| == 0 {
      return Failure;
    }
    var toolchain := names[0];
    status := CheckLibraryTable(libraries, host, cache, toolchain);
  }

  /** The key check of checkLibraries: the expected keys are built, then
      compared with the member names of `libraries`. */
  method CheckLibraryKeys(libraries: Json, buildType: string, abi: string) returns (status: Status)
    ensures status == Success <==> MemberNames(libraries) == Some(ExpectedLibraryKeys(buildType, abi))
  {
    var expectedLibraries := ExpectedLibraries(buildType, abi);
    status := CheckMemberNames(libraries, expectedLibraries);
  }

  /** The rest of checkLibraries once the toolchain id is known. */
  method CheckLibraryTable(libraries: Json, host: Host, cache: Cache, toolchain: string) returns (status: Status)
    requires libraries.JObject?
    ensures status == Success <==> LibraryTableAccepted(libraries, host, cache, toolchain)
  {
    var buildType := CacheValue(cache, "CMAKE_BUILD_TYPE");
    var abi := CacheValue(cache, "CMAKE_ANDROID_ARCH_ABI");
    status := CheckLibraryKeys(libraries, buildType, abi);
    if status == Failure {
      assert !TableCheckPasses(LibraryKeysCheck, libraries, host, cache, toolchain);
      return;
    }
    status := CheckLibraryEntries(libraries, host, cache, toolchain);
    if status == Success {
      assert forall check :: check != LibraryKeysCheck ==>
        TableCheckPasses(check, libraries, host, cache, toolchain);
    }
  }

  /** The checkLibrary calls, then the checkImportedLibrary call. */
  method CheckLibraryEntries(libraries: Json, host: Host, cache: Cache, toolchain: string) returns (status: Status)
    ensures status == Success <==>
      && TableCheckPasses(BuiltLibrariesCheck, libraries, host, cache, toolchain)
      && TableCheckPasses(ImportedLibrariesCheck, libraries, host, cache, toolchain)
  {
    var buildType := CacheValue(cache, "CMAKE_BUILD_TYPE");
    var abi := CacheValue(cache, "CMAKE_ANDROID_ARCH_ABI");
    status := CheckBuiltLibraries(libraries, host, cache, buildType, abi, toolchain);
    if status == Failure {
      return;
    }
    status := CheckImportedLibrary(libraries, host, "imported", buildType, abi, toolchain);
  }

  // ------------------------------------------------------- checkToolchains

  const ToolchainMembers: set<string> := {"cCompilerExecutable", "cppCompilerExecutable"}

  /** One toolchain names exactly the two cached compilers. */
  predicate ToolchainAccepted(toolchain: Json, cache: Cache) {
    && MemberNames(toolchain) == Some(ToolchainMembers)
    && Get(toolchain, "cCompilerExecutable") == JString(CacheValue(cache, "CMAKE_C_COMPILER"))
    && Get(toolchain, "cppCompilerExecutable") == JString(CacheValue(cache, "CMAKE_CXX_COMPILER"))
  }

  /** checkToolchains succeeds: `toolchains` is an object with exactly one
      member, and that toolchain is accepted. */
  predicate ToolchainsAccepted(project: Json, cache: Cache) {
    var toolchains := Get(project, "toolchains");
    && toolchains.JObject?
    && exists id :: id in toolchains.members && toolchains.members.Keys == {id}
         && ToolchainAccepted(toolchains.members[id], cache)
  }

  method CheckToolchains(project: Json, cache: Cache) returns (status: Status)
    ensures status == Success <==> ToolchainsAccepted(project, cache)
  {
    var toolchains := Get(project, "toolchains");
    if !toolchains.JObject? {
      return Failure;
    }
    var members := SortedElements(toolchains.members.Keys);
    if |members| != 1 {
      return Failure;
    }
    var id := members[0];
    assert id in toolchains.members;
    assert toolchains.members.Keys == {id} by {
      forall other | other in toolchains.members ensures other == id {
        assert other in members;
      }
    }
    var toolchain := toolchains.members[id];
    status := CheckMemberNames(toolchain, ToolchainMembers);
    if status == Failure {
      return;
    }
    var cc := CacheValue(cache, "CMAKE_C_COMPILER");
    var cxx := CacheValue(cache, "CMAKE_CXX_COMPILER");
    if Get(toolchain, "cCompilerExecutable") != JString(cc) {
      return Failure;
    }
    if Get(toolchain, "cppCompilerExecutable") != JString(cxx) {
      return Failure;
    }
    return Success;
  }

  // ---------------------------------------------------------- checkProject

  /** The members the document must have, no more and no fewer. */
  const ProjectMembers: set<string> :=
    {"buildFiles", "cFileExtensions", "cppFileExtensions", "cleanCommands", "libraries", "toolchains"}

  /** The CMakeLists.txt files of the test project's five directories. */
  function ExpectedBuildFiles(cache: Cache): set<string> {
    var sourceDir := SourceDir(cache);
    {sourceDir + "/CMakeLists.txt",
     sourceDir + "/shared/CMakeLists.txt",
     sourceDir + "/static/CMakeLists.txt",
     sourceDir + "/module/CMakeLists.txt",
     sourceDir + "/object/CMakeLists.txt"}
  }

  function ExpectedCleanCommand(host: Host, cache: Cache): string {
    host.outputPath(CacheValue(cache, "CMAKE_COMMAND")) + " --build "
      + host.outputPath(BinaryDir(cache)) + " --target clean"
  }

  /** The four string arrays of the document hold the expected strings. */
  predicate StringArraysAccepted(project: Json, host: Host, cache: Cache) {
    && StringArrayAccepted(project, "buildFiles", ExpectedBuildFiles(cache))
    && StringArrayAccepted(project, "cFileExtensions", {"c"})
    && StringArrayAccepted(project, "cppFileExtensions", {"cpp"})
    && StringArrayAccepted(project, "cleanCommands", {ExpectedCleanCommand(host, cache)})
  }

  /** The checks checkProject makes once the member names are right, in
      the order it makes them. */
  datatype MemberCheck = StringArraysCheck | LibrariesCheck | ToolchainsCheck

  ghost predicate Passes(check: MemberCheck, project: Json, host: Host, cache: Cache) {
    match check
    case StringArraysCheck => StringArraysAccepted(project, host, cache)
    case LibrariesCheck => LibrariesAccepted(project, host, cache)
    case ToolchainsCheck => ToolchainsAccepted(project, cache)
  }

  /** checkProject succeeds: the document is an object with exactly the six
      members, and every check passes. */
  ghost predicate ProjectAccepted(project: Json, host: Host, cache: Cache) {
    && project.JObject?
    && project.members.Keys == ProjectMembers
    && forall check :: Passes(check, project, host, cache)
  }

  /** The four checkStringArray calls of checkProject, in order. */
  method CheckStringArrays(project: Json, host: Host, cache: Cache) returns (status: Status)
    ensures status == Success <==> StringArraysAccepted(project, host, cache)
  {
    var cmake := CacheValue(cache, "CMAKE_COMMAND");
    var sourceDir := CacheValue(cache, "AndroidGradleBuild_SOURCE_DIR");
    var binaryDir := CacheValue(cache, "AndroidGradleBuild_BINARY_DIR");
    status := CheckStringArray(project, "buildFiles",
      {sourceDir + "/CMakeLists.txt",
       sourceDir + "/shared/CMakeLists.txt",
       sourceDir + "/static/CMakeLists.txt",
       sourceDir + "/module/CMakeLists.txt",
       sourceDir + "/object/CMakeLists.txt"});
    if status == Failure {
      return;
    }
    status := CheckStringArray(project, "cFileExtensions", {"c"});
    if status == Failure {
      return;
    }
    status := CheckStringArray(project, "cppFileExtensions", {"cpp"});
    if status == Failure {
      return;
    }
    status := CheckStringArray(project, "cleanCommands",
      {host.outputPath(cmake) + " --build " + host.outputPath(binaryDir) + " --target clean"});
  }

  /** The checks of checkProject after the member names, in order, the
      first failure deciding the result. */
  method CheckMembers(project: Json, host: Host, cache: Cache) returns (status: Status)
    ensures status == Success <==> forall check :: Passes(check, project, host, cache)
  {
    status := CheckStringArrays(project, host, cache);
    if status == Failure {
      assert !Passes(StringArraysCheck, project, host, cache);
      return;
    }
    status := CheckLibrariesAndToolchains(project, host, cache);
    if status == Failure {
      return;
    }
    assert forall check :: check != StringArraysCheck ==> Passes(check, project, host, cache);
  }

  method CheckLibrariesAndToolchains(project: Json, host: Host, cache: Cache) returns (status: Status)
    ensures status == Success <==> Passes(LibrariesCheck, project, host, cache) && Passes(ToolchainsCheck, project, host, cache)
  {
    status := CheckLibraries(project, host, cache);
    if status == Failure {
      return;
    }
    status := CheckToolchains(project, cache);
  }

  /** checkProject: the document must be an object with the six member
      names; then its members are checked. */
  method CheckProject(project: Json, host: Host, cache: Cache) returns (status: Status)
    ensures status == Success <==> ProjectAccepted(project, host, cache)
  {
    if !project.JObject? {
      return Failure;
    }
    status := CheckMemberNames(project, ProjectMembers);
    if status == Failure {
      return;
    }
    status := CheckMembers(project, host, cache);
  }
}
