/** How the document the exporter writes meets the checks the test makes
    of it: which records pass checkLibrary's and checkImportedLibrary's
    exact key sets, when the toolchain table and the top-level members pass,
    and that the exporter's duplicate-free arrays reduce checkStringArray to
    a comparison of sets. The two files are modelled as written; where they
    disagree (an object library gets an entry without `output`, which the
    test never expects) the lemmas show it. */
module Agreement {
  import opened Text
  import opened JsonValue
  import opened BuildGraph
  import opened GradleBuild
  import opened ExportedDocument
  import GradleCheck

  // ------------------------------------------------------------ entry keys

  /** With a configuration and an ABI, the exporter stores a target under
      the key the test looks it up by. */
  lemma KeysAgree(name: string, config: string, abi: string)
    requires config != "" && abi != ""
    ensures LibraryKey(name, config, abi) == GradleCheck.CheckedKey(name, config, abi)
  {
  }

  /** A target that is not imported and not an object library, exported
      with a configuration and an ABI, gets exactly the seven members
      checkLibrary demands if and only if its location is known and it has
      C or C++ sources. */
  lemma BuiltRecordKeysAgree(generatorName: string, host: Host, ctx: Context, t: Target,
                             toolchain: string, config: string, abi: string)
    requires TargetResolvable(host, ctx, t)
    requires !t.imported && t.kind != ObjectLibrary && config != "" && abi != ""
    ensures LibraryRecord(generatorName, host, ctx, t, toolchain, config, abi).members.Keys
         == GradleCheck.BuiltLibraryMembers
        <==> OutputKnown(host, t.location) && HasNativeSources(t)
  {
    var r := LibraryRecord(generatorName, host, ctx, t, toolchain, config, abi).members;
    LibraryRecordFields(generatorName, host, ctx, t, toolchain, config, abi);
    if OutputKnown(host, t.location) && HasNativeSources(t) {
      assert r.Keys == GradleCheck.BuiltLibraryMembers by {
        forall k | k in GradleCheck.BuiltLibraryMembers ensures k in r {
        }
      }
    } else if r.Keys == GradleCheck.BuiltLibraryMembers {
      assert "output" in GradleCheck.BuiltLibraryMembers && "files" in GradleCheck.BuiltLibraryMembers;
    }
  }

  /** The property asked of the two files together: such a target with a
      known location and C or C++ sources passes checkLibrary's key check. */
  lemma BuiltRecordHasCheckedKeys(generatorName: string, host: Host, ctx: Context, t: Target,
                                  toolchain: string, config: string, abi: string)
    requires TargetResolvable(host, ctx, t)
    requires !t.imported && t.kind != ObjectLibrary && config != "" && abi != ""
    requires OutputKnown(host, t.location) && HasNativeSources(t)
    ensures MemberNames(LibraryRecord(generatorName, host, ctx, t, toolchain, config, abi))
         == Some(GradleCheck.BuiltLibraryMembers)
  {
    BuiltRecordKeysAgree(generatorName, host, ctx, t, toolchain, config, abi);
  }

  /** An object library's entry never has `output`, so its members are not
      the seven checkLibrary demands. */
  lemma ObjectLibraryRecordRefused(generatorName: string, host: Host, ctx: Context, t: Target,
                                   toolchain: string, config: string, abi: string)
    requires TargetResolvable(host, ctx, t) && t.kind == ObjectLibrary
    ensures "output" !in LibraryRecord(generatorName, host, ctx, t, toolchain, config, abi).members
    ensures LibraryRecord(generatorName, host, ctx, t, toolchain, config, abi).members.Keys
         != GradleCheck.BuiltLibraryMembers
  {
    LibraryRecordFields(generatorName, host, ctx, t, toolchain, config, abi);
    assert "output" in GradleCheck.BuiltLibraryMembers;
  }

  /** The target names checkLibraries expects: one per language and
      artifact, and the imported library. */
  function ExpectedNames(): set<string> {
    (set language, artifact | language in GradleCheck.Languages && artifact in GradleCheck.Artifacts ::
      GradleCheck.LibraryName(language, artifact)) + {"imported"}
  }

  /** Two names with the same build type and ABI appended give the same
      key only if they are the same name. */
  lemma CheckedKeyCancels(a: string, b: string, buildType: string, abi: string)
    requires GradleCheck.CheckedKey(a, buildType, abi) == GradleCheck.CheckedKey(b, buildType, abi)
    ensures a == b
  {
    var suffix := "-" + buildType + "-" + abi;
    assert GradleCheck.CheckedKey(a, buildType, abi) == a + suffix;
    assert GradleCheck.CheckedKey(b, buildType, abi) == b + suffix;
    assert a == (a + suffix)[..|a|];
    assert b == (b + suffix)[..|b|];
  }

  /** checkLibraries recognises a key built from the cached build type and
      ABI exactly when the name is one of the names it expects. */
  lemma ExpectedKeyNames(name: string, buildType: string, abi: string)
    ensures GradleCheck.CheckedKey(name, buildType, abi) in GradleCheck.ExpectedLibraryKeys(buildType, abi)
        <==> name in ExpectedNames()
  {
    var key := GradleCheck.CheckedKey(name, buildType, abi);
    if key in GradleCheck.ExpectedLibraryKeys(buildType, abi) {
      if key == "imported-" + buildType + "-" + abi {
        assert key == GradleCheck.CheckedKey("imported", buildType, abi);
        CheckedKeyCancels(name, "imported", buildType, abi);
      } else {
        var language, artifact :| language in GradleCheck.Languages && artifact in GradleCheck.Artifacts
          && key == GradleCheck.CheckedKey(GradleCheck.LibraryName(language, artifact), buildType, abi);
        CheckedKeyCancels(name, GradleCheck.LibraryName(language, artifact), buildType, abi);
        assert name == GradleCheck.LibraryName(language, artifact);
      }
    }
    if name in ExpectedNames() && name != "imported" {
      var language, artifact :| language in GradleCheck.Languages && artifact in GradleCheck.Artifacts
        && name == GradleCheck.LibraryName(language, artifact);
      assert key in GradleCheck.BuiltKeys(GradleCheck.Languages, GradleCheck.Artifacts, buildType, abi);
    }
    if name == "imported" {
      assert key == "imported-" + buildType + "-" + abi;
    }
  }

  /** What the test does with an exported object library: ExportProject
      stores it under its own key, which is none of the keys checkLibraries
      expects, so checkLibraries stops at "Unrecognized library" and the
      whole check fails. The requires hold for the test project's object
      library when that library has a name of its own. */
  lemma ObjectLibraryKeyUnrecognized(p: Project, host: Host, cache: GradleCheck.Cache, ctx: Context, t: Target)
    requires ctx in p.contexts && t in TargetsOf(ctx) && t.kind == ObjectLibrary
    requires Config(ctx) == GradleCheck.BuildType(cache) && Config(ctx) != ""
    requires Abi(ctx) == GradleCheck.CachedAbi(cache) && Abi(ctx) != ""
    requires t.name !in ExpectedNames()
    ensures ProjectDocument(p, host).Some?
    ensures var doc := ProjectDocument(p, host).value;
      && "libraries" in doc.members
      && LibraryKey(t.name, Config(ctx), Abi(ctx)) in doc.members["libraries"].members
      && LibraryKey(t.name, Config(ctx), Abi(ctx))
           !in GradleCheck.ExpectedLibraryKeys(GradleCheck.BuildType(cache), GradleCheck.CachedAbi(cache))
      && !GradleCheck.LibrariesAccepted(doc, host, cache)
      && !GradleCheck.ProjectAccepted(doc, host, cache)
  {
    ExportedKeyStored(p, host, ctx, t);
    KeysAgree(t.name, Config(ctx), Abi(ctx));
    ExpectedKeyNames(t.name, Config(ctx), Abi(ctx));
    UnrecognizedKeyFails(ProjectDocument(p, host).value, LibraryKey(t.name, Config(ctx), Abi(ctx)), host, cache);
  }

  /** Every exported target has its key in the document's `libraries`. */
  lemma ExportedKeyStored(p: Project, host: Host, ctx: Context, t: Target)
    requires ctx in p.contexts && t in TargetsOf(ctx) && Exportable(t.kind)
    ensures ProjectDocument(p, host).Some?
    ensures var doc := ProjectDocument(p, host).value;
      && "libraries" in doc.members && doc.members["libraries"].JObject?
      && LibraryKey(t.name, Config(ctx), Abi(ctx)) in doc.members["libraries"].members
  {
    var vs := Visits(p.contexts);
    var toolchain := ToolchainId(host, p.contexts[0]);
    VisitsExactly(p.contexts);
    assert Visit(ctx, t) in vs;
    LibraryMapKeys(p.generatorName, host, toolchain, vs);
    assert VisitKey(Visit(ctx, t)) in LibraryMap(p.generatorName, host, toolchain, vs);
    ProjectDocumentShape(p, host);
  }

  /** A key checkLibraries does not expect in an object `libraries` makes
      its key check, checkLibraries and checkProject fail. */
  lemma UnrecognizedKeyFails(doc: Json, key: string, host: Host, cache: GradleCheck.Cache)
    requires doc.JObject? && "libraries" in doc.members && doc.members["libraries"].JObject?
    requires key in doc.members["libraries"].members
    requires key !in GradleCheck.ExpectedLibraryKeys(GradleCheck.BuildType(cache), GradleCheck.CachedAbi(cache))
    ensures !GradleCheck.LibrariesAccepted(doc, host, cache)
    ensures !GradleCheck.ProjectAccepted(doc, host, cache)
  {
    var toolchain := GradleCheck.FirstToolchain(doc);
    if toolchain.Some? {
      assert !GradleCheck.TableCheckPasses(GradleCheck.LibraryKeysCheck, Get(doc, "libraries"), host, cache,
                                           toolchain.value);
    }
    assert !GradleCheck.Passes(GradleCheck.LibrariesCheck, doc, host, cache);
  }

  /** An imported target exported with a configuration and an ABI gets
      the members checkImportedLibrary demands exactly when it has an output
      if and only if it is the one named "imported". */
  lemma ImportedRecordKeysAgree(generatorName: string, host: Host, ctx: Context, t: Target,
                                toolchain: string, config: string, abi: string)
    requires TargetResolvable(host, ctx, t)
    requires t.imported && config != "" && abi != ""
    ensures LibraryRecord(generatorName, host, ctx, t, toolchain, config, abi).members.Keys
         == GradleCheck.ImportedLibraryMembers(t.name)
        <==> ((t.kind != ObjectLibrary && OutputKnown(host, t.location)) <==> t.name == "imported")
  {
    var r := LibraryRecord(generatorName, host, ctx, t, toolchain, config, abi).members;
    var expected := GradleCheck.ImportedLibraryMembers(t.name);
    LibraryRecordFields(generatorName, host, ctx, t, toolchain, config, abi);
    if (t.kind != ObjectLibrary && OutputKnown(host, t.location)) <==> t.name == "imported" {
      assert r.Keys == expected by {
        forall k | k in expected ensures k in r {
        }
      }
    }
  }

  /** With the cache agreeing with the context's definitions, the four
      plain members of a built entry hold what checkLibrary compares them
      with, and its toolchain is the id it is checked against. */
  lemma BuiltRecordFieldsAgree(generatorName: string, host: Host, ctx: Context, t: Target,
                               toolchain: string, cache: GradleCheck.Cache)
    requires TargetResolvable(host, ctx, t) && !t.imported
    requires Config(ctx) != "" && Abi(ctx) != ""
    requires Config(ctx) == GradleCheck.BuildType(cache) && Abi(ctx) == GradleCheck.CachedAbi(cache)
    requires Definition(ctx, "CMAKE_COMMAND") == GradleCheck.CacheValue(cache, "CMAKE_COMMAND")
    requires ctx.homeOutputDir == GradleCheck.BinaryDir(cache)
    ensures var record := LibraryRecord(generatorName, host, ctx, t, toolchain, Config(ctx), Abi(ctx));
      && GradleCheck.LibraryFieldsAccepted(record, host, cache, t.name, Config(ctx), Abi(ctx))
      && Get(record, "toolchain") == JString(toolchain)
  {
    LibraryRecordFields(generatorName, host, ctx, t, toolchain, Config(ctx), Abi(ctx));
  }

  // ------------------------------------------------------------ toolchains

  /** checkToolchains passes the exporter's table exactly when both
      compilers are known and they are the cached ones. */
  lemma ToolchainsAgree(project: Json, host: Host, ctx: Context, cache: GradleCheck.Cache)
    requires Get(project, "toolchains") == Toolchains(host, ctx)
    ensures GradleCheck.ToolchainsAccepted(project, cache)
        <==> && CCompiler(ctx) != "" && CxxCompiler(ctx) != ""
             && GradleCheck.CacheValue(cache, "CMAKE_C_COMPILER") == CCompiler(ctx)
             && GradleCheck.CacheValue(cache, "CMAKE_CXX_COMPILER") == CxxCompiler(ctx)
  {
    ToolchainTable(host, ctx);
    var id := ToolchainId(host, ctx);
    if GradleCheck.ToolchainsAccepted(project, cache) {
      var table := Get(project, "toolchains").members;
      var id' :| id' in table && table.Keys == {id'} && GradleCheck.ToolchainAccepted(table[id'], cache);
      assert id' == id;
      assert "cCompilerExecutable" in GradleCheck.ToolchainMembers;
      assert "cppCompilerExecutable" in GradleCheck.ToolchainMembers;
    }
    if && CCompiler(ctx) != "" && CxxCompiler(ctx) != ""
       && GradleCheck.CacheValue(cache, "CMAKE_C_COMPILER") == CCompiler(ctx)
       && GradleCheck.CacheValue(cache, "CMAKE_CXX_COMPILER") == CxxCompiler(ctx)
    {
      var table := Get(project, "toolchains").members;
      assert table[id].members.Keys == GradleCheck.ToolchainMembers;
      assert id in table && table.Keys == {id} && GradleCheck.ToolchainAccepted(table[id], cache);
    }
  }

  /** The toolchain id checkLibraries takes (the front of the table's
      member names) is the one the exporter writes into every entry. */
  lemma FirstToolchainIsId(project: Json, host: Host, ctx: Context)
    requires Get(project, "toolchains") == Toolchains(host, ctx)
    requires CCompiler(ctx) != "" || CxxCompiler(ctx) != ""
    ensures GradleCheck.FirstToolchain(project) == Some(ToolchainId(host, ctx))
  {
    ToolchainTable(host, ctx);
    var names := Get(project, "toolchains").members.Keys;
    assert names == {ToolchainId(host, ctx)};
    var sorted := SortedSeq(names);
    assert sorted[0] in sorted;
  }

  // ---------------------------------------------------------- string arrays

  /** checkStringArray on an array the exporter wrote in std::set order:
      since such an array has no duplicates, it passes exactly when it
      holds the expected set. */
  lemma SortedArrayAccepted(project: Json, name: string, s: set<string>, expected: set<string>)
    requires Get(project, name) == JArray(JStrings(SortedSeq(s)))
    ensures GradleCheck.StringArrayAccepted(project, name, expected) <==> s == expected
  {
    var xs := SortedSeq(s);
    var items := Get(project, name).items;
    assert forall i :: 0 <= i < |items| ==> Convertible(items[i]);
    var strs := GradleCheck.Strings(items);
    assert strs == xs;
    SortedSeqNoDuplicates(s);
    if s == expected {
      assert GradleCheck.Enumerates(strs, expected);
    }
    if GradleCheck.Enumerates(strs, expected) {
      assert forall x :: x in s <==> x in expected;
    }
  }

  /** The extension checks of checkProject on the exporter's document: each
      passes exactly when the exported targets have sources of exactly one
      extension for that language, "c" for C and "cpp" for C++. */
  lemma ExtensionArraysAgree(p: Project, host: Host)
    requires p.contexts != []
    ensures var doc := ProjectDocument(p, host).value;
      GradleCheck.StringArrayAccepted(doc, "cFileExtensions", {"c"}) <==> ExtensionUnion(Visits(p.contexts), "C") == {"c"}
    ensures var doc := ProjectDocument(p, host).value;
      var accepted := GradleCheck.StringArrayAccepted(doc, "cppFileExtensions", {"cpp"});
      accepted <==> ExtensionUnion(Visits(p.contexts), "CXX") == {"cpp"}
  {
    ProjectDocumentShape(p, host);
    var doc := ProjectDocument(p, host).value;
    var vs := Visits(p.contexts);
    if "cFileExtensions" in doc.members {
      SortedArrayAccepted(doc, "cFileExtensions", ExtensionUnion(vs, "C"), {"c"});
    }
    if "cppFileExtensions" in doc.members {
      SortedArrayAccepted(doc, "cppFileExtensions", ExtensionUnion(vs, "CXX"), {"cpp"});
    }
  }

  /** checkProject's clean-command check passes the exporter's one-element
      array exactly when its command is the one the test builds from the
      cache. */
  lemma CleanCommandAgrees(p: Project, host: Host, cache: GradleCheck.Cache)
    requires p.contexts != []
    ensures var expected := GradleCheck.ExpectedCleanCommand(host, cache);
      var accepted := GradleCheck.StringArrayAccepted(ProjectDocument(p, host).value, "cleanCommands", {expected});
      accepted <==> CleanCommand(host, p.contexts[0]) == expected
  {
    ProjectDocumentShape(p, host);
    var doc := ProjectDocument(p, host).value;
    var command := CleanCommand(host, p.contexts[0]);
    var expected := GradleCheck.ExpectedCleanCommand(host, cache);
    var strs := GradleCheck.Strings(Get(doc, "cleanCommands").items);
    assert strs == [command];
    if command == expected {
      assert GradleCheck.Enumerates(strs, {expected});
    }
    if GradleCheck.Enumerates(strs, {expected}) {
      assert expected in strs;
    }
  }

  // -------------------------------------------------------------- document

  /** The document has exactly the six members checkProject demands if and
      only if some target was exported and the exported targets have both C
      and C++ extensions. */
  lemma DocumentKeysAgree(p: Project, host: Host)
    requires p.contexts != []
    ensures var vs := Visits(p.contexts);
      (ProjectDocument(p, host).value.members.Keys == GradleCheck.ProjectMembers)
        <==> vs != [] && ExtensionUnion(vs, "C") != {} && ExtensionUnion(vs, "CXX") != {}
  {
    ProjectDocumentShape(p, host);
    var vs := Visits(p.contexts);
    ProjectKeys(ProjectDocument(p, host).value.members.Keys,
      vs != [], ExtensionUnion(vs, "C") != {}, ExtensionUnion(vs, "CXX") != {});
  }

  /** The key-set step of DocumentKeysAgree: of the six names, three are
      always present and the other three each under its own condition. */
  lemma ProjectKeys(keys: set<string>, libraries: bool, c: bool, cpp: bool)
    requires keys <= GradleCheck.ProjectMembers
    requires {"buildFiles", "cleanCommands", "toolchains"} <= keys
    requires ("libraries" in keys <==> libraries) && ("cFileExtensions" in keys <==> c)
    requires "cppFileExtensions" in keys <==> cpp
    ensures keys == GradleCheck.ProjectMembers <==> libraries && c && cpp
  {
    if libraries && c && cpp {
      assert keys == GradleCheck.ProjectMembers by {
        forall k | k in GradleCheck.ProjectMembers ensures k in keys {
        }
      }
    }
  }
}
