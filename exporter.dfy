/** cmAndroidGradleBuild: derives the android_gradle_build.json document
    from the configured build graph. ExportSource describes one source
    file, ExportTarget one target, ExportExtensions the file extensions of
    one language in one target, and ExportProject the whole document. */
module GradleBuild {
  import opened Text
  import opened JsonValue
  import opened BuildGraph
  import opened RuleSurgery

  /** The target types ExportProject gives a `libraries` entry. */
  predicate Exportable(kind: TargetType) {
    match kind
    case Executable | StaticLibrary | SharedLibrary | ModuleLibrary | ObjectLibrary => true
    case _ => false
  }

  /** The languages whose sources go into `files`. */
  predicate IsNativeLanguage(language: string) {
    language == "C" || language == "CXX"
  }

  function Config(ctx: Context): string {
    Definition(ctx, "CMAKE_BUILD_TYPE")
  }

  function Abi(ctx: Context): string {
    Definition(ctx, "CMAKE_ANDROID_ARCH_ABI")
  }

  // ---------------------------------------------------------------- sources

  /** The compiler's working directory: the top of the build tree for the
      Ninja generator, the makefile's own binary directory otherwise. */
  function WorkingDirectory(generatorName: string, host: Host, ctx: Context): string {
    host.fullPath(if generatorName == "Ninja" then ctx.homeOutputDir else ctx.currentBinaryDir)
  }

  /** The entry ExportSource makes for one source file. */
  function SourceRecord(generatorName: string, host: Host, ctx: Context, t: Target, src: Source): Json
    requires FlagsResolvable(host, ctx, t, src)
  {
    JObject(map[
      "src" := JString(src.fullPath),
      "workingDirectory" := JString(WorkingDirectory(generatorName, host, ctx)),
      "flags" := JString(CompileFlags(host, ctx, t, src).value)])
  }

  method ExportSource(generatorName: string, host: Host, ctx: Context, t: Target, src: Source)
    returns (record: Json)
    requires FlagsResolvable(host, ctx, t, src)
    ensures record == SourceRecord(generatorName, host, ctx, t, src)
  {
    var nativeSourceFile: map<string, Json> := map[];
    nativeSourceFile := nativeSourceFile["src" := JString(src.fullPath)];

    var workingDirectory: string;
    if generatorName == "Ninja" {
      workingDirectory := ctx.homeOutputDir;
    } else {
      workingDirectory := ctx.currentBinaryDir;
    }
    workingDirectory := host.fullPath(workingDirectory);
    nativeSourceFile := nativeSourceFile["workingDirectory" := JString(workingDirectory)];

    var flags := ExportFlags(host, ctx, t, src);
    nativeSourceFile := nativeSourceFile["flags" := JString(flags)];
    record := JObject(nativeSourceFile);
  }

  /** The C and C++ sources of a list, in list order. */
  function NativeSources(srcs: seq<Source>): seq<Source>
    decreases |srcs|
  {
    if srcs == [] then []
    else
      var last := srcs[|srcs| - 1];
      NativeSources(srcs[..|srcs| - 1]) + (if IsNativeLanguage(last.language) then [last] else [])
  }

  /** `files` draws on exactly the sources whose language is "C" or "CXX". */
  lemma {:induction false} NativeSourcesExactly(srcs: seq<Source>)
    ensures forall s :: s in NativeSources(srcs) <==> s in srcs && IsNativeLanguage(s.language)
    decreases |srcs|
  {
    if srcs != [] {
      var init := srcs[..|srcs| - 1];
      NativeSourcesExactly(init);
      assert srcs == init + [srcs[|srcs| - 1]];
    }
  }

  /** ... and keeps them in source order. */
  lemma {:induction false} NativeSourcesInOrder(srcs: seq<Source>)
    ensures IsSubsequence(NativeSources(srcs), srcs)
    decreases |srcs|
  {
    if srcs == [] {
    } else {
      var init := srcs[..|srcs| - 1];
      var last := srcs[|srcs| - 1];
      NativeSourcesInOrder(init);
      assert srcs == init + [last];
      if IsNativeLanguage(last.language) {
        SubsequenceAppendBoth(NativeSources(init), init, last);
      } else {
        assert NativeSources(srcs) == NativeSources(init) + [] == NativeSources(init);
        SubsequenceAppendRight(NativeSources(init), init, last);
      }
    }
  }

  /** Every C and C++ source of a non-imported target has flags that can be
      exported (the three placeholders survive the rule expansion). */
  predicate TargetResolvable(host: Host, ctx: Context, t: Target) {
    !t.imported ==>
      forall s {:trigger FlagsResolvable(host, ctx, t, s)} ::
        s in t.sources && IsNativeLanguage(s.language) ==> FlagsResolvable(host, ctx, t, s)
  }

  /** The records of the given sources, in order. */
  function SourceRecords(generatorName: string, host: Host, ctx: Context, t: Target, srcs: seq<Source>): (r: seq<Json>)
    requires forall s :: s in srcs ==> FlagsResolvable(host, ctx, t, s)
    ensures |r| == |srcs|
  {
    seq(|srcs|, i requires 0 <= i < |srcs| => SourceRecord(generatorName, host, ctx, t, srcs[i]))
  }

  /** The `files` array of a non-imported target: the records of its C and
      C++ sources, in source order. */
  function NativeFiles(generatorName: string, host: Host, ctx: Context, t: Target): seq<Json>
    requires !t.imported && TargetResolvable(host, ctx, t)
  {
    NativeSourcesExactly(t.sources);
    SourceRecords(generatorName, host, ctx, t, NativeSources(t.sources))
  }

  /** The `files` array as ExportTarget builds it, after the first n
      sources. */
  ghost function FilesUpTo(generatorName: string, host: Host, ctx: Context, t: Target, n: nat): seq<Json>
    requires !t.imported && TargetResolvable(host, ctx, t) && n <= |t.sources|
  {
    if n == 0 then []
    else
      var src := t.sources[n - 1];
      FilesUpTo(generatorName, host, ctx, t, n - 1)
        + (if IsNativeLanguage(src.language) then [SourceRecord(generatorName, host, ctx, t, src)] else [])
  }

  /** The C and C++ sources among the first n all have exportable flags. */
  lemma NativePrefixResolvable(host: Host, ctx: Context, t: Target, n: nat)
    requires !t.imported && TargetResolvable(host, ctx, t) && n <= |t.sources|
    ensures forall s :: s in NativeSources(t.sources[..n]) ==> FlagsResolvable(host, ctx, t, s)
  {
    NativeSourcesExactly(t.sources[..n]);
    assert forall s :: s in t.sources[..n] ==> s in t.sources;
  }

  /** Building `files` source by source yields the records of the C and C++
      sources. */
  lemma {:induction false} FilesUpToIsSourceRecords(generatorName: string, host: Host, ctx: Context, t: Target, n: nat)
    requires !t.imported && TargetResolvable(host, ctx, t) && n <= |t.sources|
    ensures forall s :: s in NativeSources(t.sources[..n]) ==> FlagsResolvable(host, ctx, t, s)
    ensures FilesUpTo(generatorName, host, ctx, t, n)
         == SourceRecords(generatorName, host, ctx, t, NativeSources(t.sources[..n]))
  {
    NativePrefixResolvable(host, ctx, t, n);
    if n > 0 {
      FilesUpToIsSourceRecords(generatorName, host, ctx, t, n - 1);
      NativeSourcesStep(t.sources, n - 1);
      var before := NativeSources(t.sources[..n - 1]);
      var src := t.sources[n - 1];
      if IsNativeLanguage(src.language) {
        SourceRecordsSnoc(generatorName, host, ctx, t, before, src);
      } else {
        assert before + [] == before;
      }
    } else {
      assert t.sources[..0] == [];
    }
  }

  // ------------------------------------------------------------- extensions

  /** The extensions of a target's sources in one language; none for an
      imported target. */
  function TargetExtensions(t: Target, language: string): set<string> {
    if t.imported then {}
    else set s | s in t.sources && s.language == language :: s.extension
  }

  method ExportExtensions(language: string, t: Target) returns (extensions: set<string>)
    ensures forall e :: e in extensions <==>
      !t.imported && exists s :: s in t.sources && s.language == language && s.extension == e
    ensures extensions == TargetExtensions(t, language)
  {
    if t.imported {
      return {};
    }
    extensions := {};
    for k := 0 to |t.sources|
      invariant extensions == set s | s in t.sources[..k] && s.language == language :: s.extension
    {
      var source := t.sources[k];
      assert t.sources[..k + 1] == t.sources[..k] + [source];
      if language == source.language {
        extensions := extensions + {source.extension};
      }
    }
    assert t.sources[..|t.sources|] == t.sources;
  }

  // ---------------------------------------------------------------- targets

  /** The storage key of a target's entry: its name, then "-" and the
      configuration if there is one, then "-" and the ABI if there is one. */
  function LibraryKey(name: string, config: string, abi: string): string {
    name + (if config != "" then "-" + config else "") + (if abi != "" then "-" + abi else "")
  }

  /** Within one configuration and ABI, distinct targets get distinct keys;
      two entries can only collide across contexts. */
  lemma LibraryKeyInjective(n1: string, n2: string, config: string, abi: string)
    requires LibraryKey(n1, config, abi) == LibraryKey(n2, config, abi)
    ensures n1 == n2
  {
    var suffix := (if config != "" then "-" + config else "") + (if abi != "" then "-" + abi else "");
    assert LibraryKey(n1, config, abi) == n1 + suffix;
    assert LibraryKey(n2, config, abi) == n2 + suffix;
    assert |n1| == |n2|;
    assert n1 == (n1 + suffix)[..|n1|];
    assert n2 == (n2 + suffix)[..|n2|];
  }

  /** `cmake --build <home> --target <name>`, both paths in output form. */
  function BuildCommand(host: Host, ctx: Context, name: string): string {
    host.outputPath(Definition(ctx, "CMAKE_COMMAND")) + " --build "
      + host.outputPath(ctx.homeOutputDir) + " --target " + name
  }

  predicate OutputKnown(host: Host, location: string) {
    location != "" && !host.isNotFound(location)
  }

  /** The fields ExportTarget sets before it adds `files`, in the order it
      sets them. */
  function LibraryHead(host: Host, ctx: Context, t: Target, toolchain: string, config: string, abi: string): map<string, Json> {
    var m0 := Put(map[], !t.imported, "buildCommand", JString(BuildCommand(host, ctx, t.name)));
    var m1 := Put(m0, config != "", "buildType", JString(host.lowerCase(config)));
    var m2 := Put(m1, true, "artifactName", JString(t.name));
    var m3 := Put(m2, abi != "", "abi", JString(abi));
    var m4 := Put(m3, t.kind != ObjectLibrary && OutputKnown(host, t.location), "output", JString(t.location));
    Put(m4, true, "toolchain", JString(toolchain))
  }

  /** The entry ExportTarget makes for one target. */
  function LibraryRecord(generatorName: string, host: Host, ctx: Context, t: Target,
                         toolchain: string, config: string, abi: string): Json
    requires TargetResolvable(host, ctx, t)
  {
    var files := if t.imported then [] else NativeFiles(generatorName, host, ctx, t);
    JObject(Put(LibraryHead(host, ctx, t, toolchain, config, abi), files != [], "files", JArray(files)))
  }

  /** A target has C or C++ sources. */
  predicate HasNativeSources(t: Target) {
    exists s :: s in t.sources && IsNativeLanguage(s.language)
  }

  lemma NativeSourcesEmpty(t: Target)
    ensures NativeSources(t.sources) != [] <==> HasNativeSources(t)
  {
    NativeSourcesExactly(t.sources);
    if HasNativeSources(t) {
      var s :| s in t.sources && IsNativeLanguage(s.language);
      assert s in NativeSources(t.sources);
    }
    if NativeSources(t.sources) != [] {
      assert NativeSources(t.sources)[0] in NativeSources(t.sources);
    }
  }

  /** Which members ExportTarget sets before `files`, and to what. */
  lemma LibraryHeadFields(host: Host, ctx: Context, t: Target, toolchain: string, config: string, abi: string)
    ensures var r := LibraryHead(host, ctx, t, toolchain, config, abi);
      && r.Keys <= {"buildCommand", "buildType", "artifactName", "abi", "output", "toolchain"}
      && ("buildCommand" in r <==> !t.imported)
      && ("buildType" in r <==> config != "")
      && ("abi" in r <==> abi != "")
      && ("output" in r <==> t.kind != ObjectLibrary && OutputKnown(host, t.location))
      && ("buildCommand" in r ==> r["buildCommand"] == JString(BuildCommand(host, ctx, t.name)))
      && ("buildType" in r ==> r["buildType"] == JString(host.lowerCase(config)))
      && ("artifactName" in r && r["artifactName"] == JString(t.name))
      && ("abi" in r ==> r["abi"] == JString(abi))
      && ("output" in r ==> r["output"] == JString(t.location))
      && ("toolchain" in r && r["toolchain"] == JString(toolchain))
  {
  }

  /** Which members the record of a target has, and what each holds. */
  lemma LibraryRecordFields(generatorName: string, host: Host, ctx: Context, t: Target,
                            toolchain: string, config: string, abi: string)
    requires TargetResolvable(host, ctx, t)
    ensures var r := LibraryRecord(generatorName, host, ctx, t, toolchain, config, abi).members;
      && r.Keys <= {"buildCommand", "buildType", "artifactName", "abi", "output", "toolchain", "files"}
      && ("buildCommand" in r <==> !t.imported)
      && ("buildType" in r <==> config != "")
      && ("abi" in r <==> abi != "")
      && ("output" in r <==> t.kind != ObjectLibrary && OutputKnown(host, t.location))
      && ("files" in r <==> !t.imported && HasNativeSources(t))
      && ("buildCommand" in r ==> r["buildCommand"] == JString(BuildCommand(host, ctx, t.name)))
      && ("buildType" in r ==> r["buildType"] == JString(host.lowerCase(config)))
      && ("artifactName" in r && r["artifactName"] == JString(t.name))
      && ("abi" in r ==> r["abi"] == JString(abi))
      && ("output" in r ==> r["output"] == JString(t.location))
      && ("toolchain" in r && r["toolchain"] == JString(toolchain))
      && ("files" in r ==> !t.imported && r["files"] == JArray(NativeFiles(generatorName, host, ctx, t)))
  {
    var head := LibraryHead(host, ctx, t, toolchain, config, abi);
    LibraryHeadFields(host, ctx, t, toolchain, config, abi);
    var files := if t.imported then [] else NativeFiles(generatorName, host, ctx, t);
    NativeSourcesEmpty(t);
    assert files != [] <==> !t.imported && HasNativeSources(t);
    assert LibraryRecord(generatorName, host, ctx, t, toolchain, config, abi).members
      == Put(head, files != [], "files", JArray(files));
  }

  /** Each `files` entry describes the matching C or C++ source, in source
      order. */
  lemma NativeFilesDescribeSources(generatorName: string, host: Host, ctx: Context, t: Target, i: int)
    requires !t.imported && TargetResolvable(host, ctx, t)
    requires 0 <= i < |NativeSources(t.sources)|
    ensures var src := NativeSources(t.sources)[i];
      && |NativeFiles(generatorName, host, ctx, t)| == |NativeSources(t.sources)|
      && IsNativeLanguage(src.language) && src in t.sources
      && NativeFiles(generatorName, host, ctx, t)[i] == SourceRecord(generatorName, host, ctx, t, src)
  {
    NativeSourcesExactly(t.sources);
    assert NativeSources(t.sources)[i] in NativeSources(t.sources);
  }

  /** One more source considered: it joins the native ones exactly when
      its language is C or C++. */
  lemma NativeSourcesStep(srcs: seq<Source>, k: int)
    requires 0 <= k < |srcs|
    ensures NativeSources(srcs[..k + 1])
         == NativeSources(srcs[..k]) + (if IsNativeLanguage(srcs[k].language) then [srcs[k]] else [])
  {
    assert srcs[..k + 1][..k] == srcs[..k];
  }

  lemma SourceRecordsSnoc(generatorName: string, host: Host, ctx: Context, t: Target, srcs: seq<Source>, src: Source)
    requires forall s :: s in srcs + [src] ==> FlagsResolvable(host, ctx, t, s)
    ensures SourceRecords(generatorName, host, ctx, t, srcs + [src])
         == SourceRecords(generatorName, host, ctx, t, srcs) + [SourceRecord(generatorName, host, ctx, t, src)]
  {
    assert forall s :: s in srcs ==> s in srcs + [src];
  }

  /** FilesUpTo grows by the record of the next source when it is a C or
      C++ source, and stays as it is otherwise. */
  lemma FilesUpToStep(generatorName: string, host: Host, ctx: Context, t: Target, k: nat)
    requires !t.imported && TargetResolvable(host, ctx, t) && k < |t.sources|
    ensures IsNativeLanguage(t.sources[k].language) ==>
      FlagsResolvable(host, ctx, t, t.sources[k]) &&
      FilesUpTo(generatorName, host, ctx, t, k + 1)
        == FilesUpTo(generatorName, host, ctx, t, k) + [SourceRecord(generatorName, host, ctx, t, t.sources[k])]
    ensures !IsNativeLanguage(t.sources[k].language) ==>
      FilesUpTo(generatorName, host, ctx, t, k + 1) == FilesUpTo(generatorName, host, ctx, t, k)
  {
    assert FilesUpTo(generatorName, host, ctx, t, k) + [] == FilesUpTo(generatorName, host, ctx, t, k);
  }

  /** The `files` part of ExportTarget: one entry appended per C or C++
      source, in source order, to a value that starts as null. ExportTarget
      appends to the record's `files` member itself; as the record has no
      such member before the loop, building the value apart and storing it
      once it is no longer null gives the same record. */
  method ExportNativeFiles(generatorName: string, host: Host, ctx: Context, t: Target)
    returns (files: Json)
    requires !t.imported && TargetResolvable(host, ctx, t)
    ensures files == ArrayOrNull(NativeFiles(generatorName, host, ctx, t))
  {
    files := JNull;
    for k := 0 to |t.sources|
      invariant files == ArrayOrNull(FilesUpTo(generatorName, host, ctx, t, k))
    {
      var source := t.sources[k];
      var language := source.language;
      FilesUpToStep(generatorName, host, ctx, t, k);
      if language == "C" || language == "CXX" {
        var entry := ExportSource(generatorName, host, ctx, t, source);
        AppendToArrayOrNull(FilesUpTo(generatorName, host, ctx, t, k), entry);
        files := Append(files, entry);
      }
    }
    FilesUpToIsSourceRecords(generatorName, host, ctx, t, |t.sources|);
    assert t.sources[..|t.sources|] == t.sources;
  }

  method ExportTarget(generatorName: string, host: Host, ctx: Context, t: Target,
                      toolchain: string, config: string, abi: string)
    returns (library: Json)
    requires TargetResolvable(host, ctx, t)
    ensures library == LibraryRecord(generatorName, host, ctx, t, toolchain, config, abi)
  {
    var nativeLibrary: map<string, Json> := map[];

    if !t.imported {
      var cmakeCommand := host.outputPath(Definition(ctx, "CMAKE_COMMAND"));
      var homeOutputDirectory := host.outputPath(ctx.homeOutputDir);
      var buildCommand := cmakeCommand + " --build " + homeOutputDirectory + " --target " + t.name;
      nativeLibrary := nativeLibrary["buildCommand" := JString(buildCommand)];
    }
    ghost var m0 := Put(map[], !t.imported, "buildCommand", JString(BuildCommand(host, ctx, t.name)));
    assert nativeLibrary == m0;
    if config != "" {
      nativeLibrary := nativeLibrary["buildType" := JString(host.lowerCase(config))];
    }
    nativeLibrary := nativeLibrary["artifactName" := JString(t.name)];
    ghost var m2 := Put(Put(m0, config != "", "buildType", JString(host.lowerCase(config))),
      true, "artifactName", JString(t.name));
    assert nativeLibrary == m2;
    if abi != "" {
      nativeLibrary := nativeLibrary["abi" := JString(abi)];
    }
    ghost var m3 := Put(m2, abi != "", "abi", JString(abi));
    assert nativeLibrary == m3;
    if t.kind != ObjectLibrary {
      var output := t.location;
      if output != "" && !host.isNotFound(output) {
        nativeLibrary := nativeLibrary["output" := JString(output)];
      }
    }
    ghost var m4 := Put(m3, t.kind != ObjectLibrary && OutputKnown(host, t.location), "output", JString(t.location));
    assert nativeLibrary == m4;
    nativeLibrary := nativeLibrary["toolchain" := JString(toolchain)];
    ghost var head := nativeLibrary;
    assert head == LibraryHead(host, ctx, t, toolchain, config, abi);
    assert "files" !in head;

    if !t.imported {
      var files := ExportNativeFiles(generatorName, host, ctx, t);
      if files != JNull {
        nativeLibrary := nativeLibrary["files" := files];
      }
    }
    library := JObject(nativeLibrary);
  }

  // ---------------------------------------------------------------- project

  /** One target ExportProject exports, with the context it comes from. */
  datatype Visit = Visit(ctx: Context, target: Target)

  /** The exportable targets among `ts`, in order, paired with their context. */
  function ContextVisits(ctx: Context, ts: seq<Target>): seq<Visit>
    decreases |ts|
  {
    if ts == [] then []
    else
      var last := ts[|ts| - 1];
      ContextVisits(ctx, ts[..|ts| - 1]) + (if Exportable(last.kind) then [Visit(ctx, last)] else [])
  }

  /** The targets ExportProject exports, in the order it visits them:
      context by context, owned targets before imported ones. */
  function Visits(cs: seq<Context>): seq<Visit>
    decreases |cs|
  {
    if cs == [] then []
    else
      var last := cs[|cs| - 1];
      Visits(cs[..|cs| - 1]) + ContextVisits(last, TargetsOf(last))
  }

  lemma {:induction false} ContextVisitsExactly(ctx: Context, ts: seq<Target>)
    ensures forall v :: v in ContextVisits(ctx, ts) <==> v.ctx == ctx && v.target in ts && Exportable(v.target.kind)
    decreases |ts|
  {
    if ts != [] {
      var init := ts[..|ts| - 1];
      ContextVisitsExactly(ctx, init);
      assert ts == init + [ts[|ts| - 1]];
    }
  }

  /** A target is exported exactly when it belongs to one of the contexts
      (owned or imported) and its type is one of the five exportable ones. */
  lemma {:induction false} VisitsExactly(cs: seq<Context>)
    ensures forall v :: v in Visits(cs) <==>
      v.ctx in cs && v.target in TargetsOf(v.ctx) && Exportable(v.target.kind)
    decreases |cs|
  {
    if cs != [] {
      var init := cs[..|cs| - 1];
      var last := cs[|cs| - 1];
      VisitsExactly(init);
      ContextVisitsExactly(last, TargetsOf(last));
      assert cs == init + [last];
    }
  }

  lemma ContextVisitsStep(ctx: Context, ts: seq<Target>, j: int)
    requires 0 <= j < |ts|
    ensures Exportable(ts[j].kind) ==> ContextVisits(ctx, ts[..j + 1]) == ContextVisits(ctx, ts[..j]) + [Visit(ctx, ts[j])]
    ensures !Exportable(ts[j].kind) ==> ContextVisits(ctx, ts[..j + 1]) == ContextVisits(ctx, ts[..j])
  {
    assert ts[..j + 1][..j] == ts[..j];
    assert ContextVisits(ctx, ts[..j]) + [] == ContextVisits(ctx, ts[..j]);
  }

  lemma SnocAssociates(visited: seq<Visit>, current: seq<Visit>, v: Visit)
    ensures visited + current + [v] == visited + (current + [v])
  {
  }

  lemma VisitsStep(cs: seq<Context>, i: int)
    requires 0 <= i < |cs|
    ensures Visits(cs[..i + 1]) == Visits(cs[..i]) + ContextVisits(cs[i], TargetsOf(cs[i]))
  {
    assert cs[..i + 1][..i] == cs[..i];
  }

  /** Every target ExportProject exports can have its flags exported. */
  predicate ProjectResolvable(p: Project, host: Host) {
    forall ctx, t {:trigger TargetResolvable(host, ctx, t)} ::
      ctx in p.contexts && t in TargetsOf(ctx) && Exportable(t.kind) ==> TargetResolvable(host, ctx, t)
  }

  /** The storage key of a visit's entry. */
  function VisitKey(v: Visit): string {
    LibraryKey(v.target.name, Config(v.ctx), Abi(v.ctx))
  }

  /** The entry of a visit. A target whose flags cannot be exported has no
      entry, since ExportTarget does not return for it; ExportProject's
      precondition excludes such targets, and null stands in for them. */
  function VisitRecord(generatorName: string, host: Host, toolchain: string, v: Visit): Json {
    if TargetResolvable(host, v.ctx, v.target)
    then LibraryRecord(generatorName, host, v.ctx, v.target, toolchain, Config(v.ctx), Abi(v.ctx))
    else JNull
  }

  /** The `libraries` object: one entry per visit, a later visit with the
      same key overwriting the earlier one. */
  function LibraryMap(generatorName: string, host: Host, toolchain: string, vs: seq<Visit>): map<string, Json>
    decreases |vs|
  {
    if vs == [] then map[]
    else
      var last := vs[|vs| - 1];
      LibraryMap(generatorName, host, toolchain, vs[..|vs| - 1])[VisitKey(last) := VisitRecord(generatorName, host, toolchain, last)]
  }

  /** The C or C++ extensions of the visited targets, merged. */
  function ExtensionUnion(vs: seq<Visit>, language: string): set<string>
    decreases |vs|
  {
    if vs == [] then {}
    else ExtensionUnion(vs[..|vs| - 1], language) + TargetExtensions(vs[|vs| - 1].target, language)
  }

  /** `buildFiles`: the CMakeLists.txt of every context, in context order. */
  function BuildFiles(cs: seq<Context>): (r: seq<string>)
    ensures |r| == |cs|
  {
    seq(|cs|, i requires 0 <= i < |cs| => cs[i].currentSourceDir + "/CMakeLists.txt")
  }

  /** `cmake --build <home> --target clean` for the first context. */
  function CleanCommand(host: Host, ctx: Context): string {
    host.outputPath(Definition(ctx, "CMAKE_COMMAND")) + " --build "
      + host.outputPath(ctx.homeOutputDir) + " --target " + "clean"
  }

  function CCompiler(ctx: Context): string {
    Definition(ctx, "CMAKE_C_COMPILER")
  }

  function CxxCompiler(ctx: Context): string {
    Definition(ctx, "CMAKE_CXX_COMPILER")
  }

  /** The toolchain identifier: the decimal hash of the two compiler paths
      joined by a NUL character. */
  function ToolchainInput(ctx: Context): string {
    CCompiler(ctx) + "\0" + CxxCompiler(ctx)
  }

  function ToolchainId(host: Host, ctx: Context): string {
    host.hash(ToolchainInput(ctx))
  }

  /** The `toolchains` value: null when neither compiler is known, otherwise
      one toolchain with the known compilers. */
  function Toolchains(host: Host, ctx: Context): Json {
    if CCompiler(ctx) == "" && CxxCompiler(ctx) == "" then JNull
    else
      var tools := Put(Put(map[], CCompiler(ctx) != "", "cCompilerExecutable", JString(CCompiler(ctx))),
        CxxCompiler(ctx) != "", "cppCompilerExecutable", JString(CxxCompiler(ctx)));
      JObject(map[ToolchainId(host, ctx) := JObject(tools)])
  }

  /** A member that has been appended to: null until the first append. */
  function ArrayOrNull(items: seq<Json>): Json {
    if items == [] then JNull else JArray(items)
  }

  /** A member that has been assigned into: null until the first assignment. */
  function ObjectOrNull(members: map<string, Json>): Json {
    if members == map[] then JNull else JObject(members)
  }

  lemma AppendToArrayOrNull(items: seq<Json>, x: Json)
    ensures Append(ArrayOrNull(items), x) == ArrayOrNull(items + [x])
  {
    if items == [] {
      assert items + [x] == [x];
    }
  }

  lemma SetMemberOfObjectOrNull(members: map<string, Json>, name: string, x: Json)
    ensures SetMember(ObjectOrNull(members), name, x) == ObjectOrNull(members[name := x])
  {
    assert name in members[name := x];
  }

  /** The document object: `cleanCommands` and `toolchains` are always
      assigned; the other members exist once something has been written to
      them. */
  function Document(cleanCommands: Json, toolchains: Json, buildFiles: Json, libraries: Json,
                    cFileExtensions: Json, cppFileExtensions: Json): Json {
    var m0 := map["cleanCommands" := cleanCommands, "toolchains" := toolchains];
    var m1 := Put(m0, buildFiles != JNull, "buildFiles", buildFiles);
    var m2 := Put(m1, libraries != JNull, "libraries", libraries);
    var m3 := Put(m2, cFileExtensions != JNull, "cFileExtensions", cFileExtensions);
    JObject(Put(m3, cppFileExtensions != JNull, "cppFileExtensions", cppFileExtensions))
  }

  /** The android_gradle_build.json document of a project; none when the
      project has no local generator. */
  ghost function ProjectDocument(p: Project, host: Host): Option<Json> {
    if p.contexts == [] then None
    else
      var first := p.contexts[0];
      var vs := Visits(p.contexts);
      Some(Document(
        JArray([JString(CleanCommand(host, first))]),
        Toolchains(host, first),
        ArrayOrNull(JStrings(BuildFiles(p.contexts))),
        ObjectOrNull(LibraryMap(p.generatorName, host, ToolchainId(host, first), vs)),
        ArrayOrNull(JStrings(SortedSeq(ExtensionUnion(vs, "C")))),
        ArrayOrNull(JStrings(SortedSeq(ExtensionUnion(vs, "CXX"))))))
  }

  lemma BuildFilesStep(cs: seq<Context>, i: int)
    requires 0 <= i < |cs|
    ensures BuildFiles(cs[..i + 1]) == BuildFiles(cs[..i]) + [cs[i].currentSourceDir + "/CMakeLists.txt"]
  {
  }

  lemma LibraryMapSnoc(generatorName: string, host: Host, toolchain: string, vs: seq<Visit>, v: Visit)
    ensures LibraryMap(generatorName, host, toolchain, vs + [v])
         == LibraryMap(generatorName, host, toolchain, vs)[VisitKey(v) := VisitRecord(generatorName, host, toolchain, v)]
  {
    assert (vs + [v])[..|vs|] == vs;
  }

  lemma ExtensionUnionSnoc(vs: seq<Visit>, v: Visit, language: string)
    ensures ExtensionUnion(vs + [v], language) == ExtensionUnion(vs, language) + TargetExtensions(v.target, language)
  {
    assert (vs + [v])[..|vs|] == vs;
  }

  /** The toolchain part of ExportProject, on the first makefile. */
  method ExportToolchains(host: Host, makefile: Context) returns (toolchain: string, toolchains: Json)
    ensures toolchain == ToolchainId(host, makefile)
    ensures toolchains == Toolchains(host, makefile)
  {
    toolchains := JNull;
    var cCompiler := Definition(makefile, "CMAKE_C_COMPILER");
    var cppCompiler := Definition(makefile, "CMAKE_CXX_COMPILER");
    toolchain := host.hash(cCompiler + "\0" + cppCompiler);
    if cCompiler != "" {
      toolchains := SetMember(toolchains, toolchain,
        SetMember(Get(toolchains, toolchain), "cCompilerExecutable", JString(cCompiler)));
    }
    if cppCompiler != "" {
      toolchains := SetMember(toolchains, toolchain,
        SetMember(Get(toolchains, toolchain), "cppCompilerExecutable", JString(cppCompiler)));
    }
  }

  /** One exportable target in ExportProject's loop: its entry stored under
      its key (replacing an entry already stored there) and its C and C++
      extensions merged into the running sets. */
  method ExportLibrary(generatorName: string, host: Host, makefile: Context, target: Target, toolchain: string,
                       ghost stored: map<string, Json>, libraries: Json,
                       cFileExtensions: set<string>, cppFileExtensions: set<string>)
    returns (libraries': Json, cFileExtensions': set<string>, cppFileExtensions': set<string>)
    requires TargetResolvable(host, makefile, target)
    requires libraries == ObjectOrNull(stored)
    ensures libraries' == ObjectOrNull(stored[VisitKey(Visit(makefile, target)) :=
      VisitRecord(generatorName, host, toolchain, Visit(makefile, target))])
    ensures cFileExtensions' == cFileExtensions + TargetExtensions(target, "C")
    ensures cppFileExtensions' == cppFileExtensions + TargetExtensions(target, "CXX")
  {
    var library := target.name;
    var config := Definition(makefile, "CMAKE_BUILD_TYPE");
    if config != "" {
      library := library + ("-" + config);
    } else {
      assert library == library + "";
    }
    var abi := Definition(makefile, "CMAKE_ANDROID_ARCH_ABI");
    if abi != "" {
      library := library + ("-" + abi);
    } else {
      assert library == library + "";
    }
    assert library == VisitKey(Visit(makefile, target));
    var record := ExportTarget(generatorName, host, makefile, target, toolchain, config, abi);
    SetMemberOfObjectOrNull(stored, library, record);
    libraries' := SetMember(libraries, library, record);

    var extensions := ExportExtensions("C", target);
    cFileExtensions' := cFileExtensions + extensions;
    extensions := ExportExtensions("CXX", target);
    cppFileExtensions' := cppFileExtensions + extensions;
  }

  /** The visits made so far, extended by the next target of a context:
      one more visit when the target is exportable, none otherwise. */
  lemma ContextVisitsExtend(visited: seq<Visit>, makefile: Context, targets: seq<Target>, j: int)
    requires 0 <= j < |targets|
    ensures var before := visited + ContextVisits(makefile, targets[..j]);
      visited + ContextVisits(makefile, targets[..j + 1])
      == if Exportable(targets[j].kind) then before + [Visit(makefile, targets[j])] else before
  {
    ContextVisitsStep(makefile, targets, j);
    if Exportable(targets[j].kind) {
      SnocAssociates(visited, ContextVisits(makefile, targets[..j]), Visit(makefile, targets[j]));
    }
  }

  /** The `libraries` part of ExportProject's loop for one makefile: an
      entry stored for every exportable target, owned targets first, and
      the C and C++ extensions of each merged into the running sets. */
  method ExportLibraries(generatorName: string, host: Host, toolchain: string, makefile: Context,
                         ghost visited: seq<Visit>,
                         libraries: Json, cFileExtensions: set<string>, cppFileExtensions: set<string>)
    returns (libraries': Json, cFileExtensions': set<string>, cppFileExtensions': set<string>)
    requires forall t :: t in TargetsOf(makefile) && Exportable(t.kind) ==> TargetResolvable(host, makefile, t)
    requires libraries == ObjectOrNull(LibraryMap(generatorName, host, toolchain, visited))
    requires cFileExtensions == ExtensionUnion(visited, "C")
    requires cppFileExtensions == ExtensionUnion(visited, "CXX")
    ensures var vs := visited + ContextVisits(makefile, TargetsOf(makefile));
      && libraries' == ObjectOrNull(LibraryMap(generatorName, host, toolchain, vs))
      && cFileExtensions' == ExtensionUnion(vs, "C")
      && cppFileExtensions' == ExtensionUnion(vs, "CXX")
  {
    libraries', cFileExtensions', cppFileExtensions' := libraries, cFileExtensions, cppFileExtensions;
    var targets := makefile.targets + makefile.importedTargets;
    assert visited + ContextVisits(makefile, targets[..0]) == visited;
    for j := 0 to |targets|
      invariant libraries'
        == ObjectOrNull(LibraryMap(generatorName, host, toolchain, visited + ContextVisits(makefile, targets[..j])))
      invariant cFileExtensions' == ExtensionUnion(visited + ContextVisits(makefile, targets[..j]), "C")
      invariant cppFileExtensions' == ExtensionUnion(visited + ContextVisits(makefile, targets[..j]), "CXX")
    {
      var target := targets[j];
      ghost var sofar := visited + ContextVisits(makefile, targets[..j]);
      ContextVisitsExtend(visited, makefile, targets, j);
      if Exportable(target.kind) {
        ghost var v := Visit(makefile, target);
        LibraryMapSnoc(generatorName, host, toolchain, sofar, v);
        ExtensionUnionSnoc(sofar, v, "C");
        ExtensionUnionSnoc(sofar, v, "CXX");
        assert target in TargetsOf(makefile);
        libraries', cFileExtensions', cppFileExtensions' := ExportLibrary(generatorName, host, makefile, target,
          toolchain, LibraryMap(generatorName, host, toolchain, sofar), libraries', cFileExtensions', cppFileExtensions');
      }
    }
    assert targets[..|targets|] == targets;
  }

  /** One extension set appended to its array in increasing order. */
  method ExtensionArray(extensions: set<string>) returns (values: Json)
    ensures values == ArrayOrNull(JStrings(SortedSeq(extensions)))
  {
    var sorted := SortedElements(extensions);
    values := JNull;
    for k := 0 to |sorted|
      invariant values == ArrayOrNull(JStrings(sorted[..k]))
    {
      AppendToArrayOrNull(JStrings(sorted[..k]), JString(sorted[k]));
      assert sorted[..k + 1] == sorted[..k] + [sorted[k]];
      JStringsSnoc(sorted[..k], sorted[k]);
      values := Append(values, JString(sorted[k]));
    }
    assert sorted[..|sorted|] == sorted;
  }

  /** ExportProject: the document written to android_gradle_build.json,
      none when there is no local generator. Each member of the document
      object is kept in a variable of its own until the object is formed. */
  method ExportProject(p: Project, host: Host) returns (document: Option<Json>)
    requires ProjectResolvable(p, host)
    ensures document == ProjectDocument(p, host)
  {
    if |p.contexts| == 0 {
      return None;
    }
    var makefile := p.contexts[0];

    // cleanCommand
    var cmakeCommand := host.outputPath(Definition(makefile, "CMAKE_COMMAND"));
    var homeOutputDirectory := host.outputPath(makefile.homeOutputDir);
    var cleanCommand := cmakeCommand + " --build " + homeOutputDirectory + " --target " + "clean";
    var cleanCommands := Append(JNull, JString(cleanCommand));

    // toolchains
    var toolchain, toolchains := ExportToolchains(host, makefile);

    var buildFiles := JNull;
    var libraries := JNull;
    var cFileExtensions: set<string> := {};
    var cppFileExtensions: set<string> := {};
    assert p.contexts[..0] == [];
    for i := 0 to |p.contexts|
      invariant buildFiles == ArrayOrNull(JStrings(BuildFiles(p.contexts[..i])))
      invariant libraries == ObjectOrNull(LibraryMap(p.generatorName, host, toolchain, Visits(p.contexts[..i])))
      invariant cFileExtensions == ExtensionUnion(Visits(p.contexts[..i]), "C")
      invariant cppFileExtensions == ExtensionUnion(Visits(p.contexts[..i]), "CXX")
    {
      makefile := p.contexts[i];
      ghost var visited := Visits(p.contexts[..i]);

      // buildFiles
      var directory := makefile.currentSourceDir;
      BuildFilesStep(p.contexts, i);
      JStringsSnoc(BuildFiles(p.contexts[..i]), directory + "/CMakeLists.txt");
      AppendToArrayOrNull(JStrings(BuildFiles(p.contexts[..i])), JString(directory + "/CMakeLists.txt"));
      buildFiles := Append(buildFiles, JString(directory + "/CMakeLists.txt"));

      // libraries
      assert forall t :: t in TargetsOf(makefile) && Exportable(t.kind) ==> TargetResolvable(host, makefile, t);
      VisitsStep(p.contexts, i);
      libraries, cFileExtensions, cppFileExtensions := ExportLibraries(p.generatorName, host, toolchain,
        makefile, visited, libraries, cFileExtensions, cppFileExtensions);
    }
    assert p.contexts[..|p.contexts|] == p.contexts;

    // cFileExtensions, cppFileExtensions
    var cArray := ExtensionArray(cFileExtensions);
    var cppArray := ExtensionArray(cppFileExtensions);

    document := Some(Document(cleanCommands, toolchains, buildFiles, libraries, cArray, cppArray));
  }
}
