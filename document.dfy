/** What the android_gradle_build.json document that ExportProject writes
    says about the build graph: which libraries it lists and under which
    keys, which toolchain they use, which file extensions it publishes and
    which members the document object has. */
module ExportedDocument {
  import opened Text
  import opened JsonValue
  import opened BuildGraph
  import opened GradleBuild

  // -------------------------------------------------------------- libraries

  /** The `libraries` object has one key per visited target: the key of
      that target, and no other. */
  lemma {:induction false} LibraryMapKeys(generatorName: string, host: Host, toolchain: string, vs: seq<Visit>)
    ensures forall k :: k in LibraryMap(generatorName, host, toolchain, vs) <==>
      exists v :: v in vs && VisitKey(v) == k
    decreases |vs|
  {
    if vs != [] {
      var init := vs[..|vs| - 1];
      LibraryMapKeys(generatorName, host, toolchain, init);
      assert vs == init + [vs[|vs| - 1]];
    }
  }

  /** The entry stored under a key is the record of the last visited target
      with that key: a later target overwrites an earlier one. */
  lemma {:induction false} LibraryMapLastWins(generatorName: string, host: Host, toolchain: string,
                                              vs: seq<Visit>, i: int)
    requires 0 <= i < |vs|
    requires forall j :: i < j < |vs| ==> VisitKey(vs[j]) != VisitKey(vs[i])
    ensures VisitKey(vs[i]) in LibraryMap(generatorName, host, toolchain, vs)
    ensures LibraryMap(generatorName, host, toolchain, vs)[VisitKey(vs[i])]
         == VisitRecord(generatorName, host, toolchain, vs[i])
    decreases |vs|
  {
    var init := vs[..|vs| - 1];
    if i < |vs| - 1 {
      forall j | i < j < |init| ensures VisitKey(init[j]) != VisitKey(init[i]) {
        assert init[j] == vs[j];
      }
      LibraryMapLastWins(generatorName, host, toolchain, init, i);
      assert init[i] == vs[i];
    }
  }

  /** Every stored entry is the record of a visited target stored under
      that target's key. */
  lemma {:induction false} LibraryMapEntries(generatorName: string, host: Host, toolchain: string,
                                             vs: seq<Visit>, k: string)
    requires k in LibraryMap(generatorName, host, toolchain, vs)
    ensures exists v :: (v in vs && VisitKey(v) == k
      && LibraryMap(generatorName, host, toolchain, vs)[k] == VisitRecord(generatorName, host, toolchain, v))
    decreases |vs|
  {
    var init := vs[..|vs| - 1];
    var last := vs[|vs| - 1];
    if VisitKey(last) != k {
      LibraryMapEntries(generatorName, host, toolchain, init, k);
      var v :| v in init && VisitKey(v) == k
        && LibraryMap(generatorName, host, toolchain, init)[k] == VisitRecord(generatorName, host, toolchain, v);
      assert v in vs;
    } else {
      assert last in vs;
    }
  }

  /** Every entry of the document's `libraries` object names the
      document's one toolchain, uses the unsuffixed target name as its
      artifact name, and is stored under that name's key. */
  lemma EveryLibraryUsesToolchain(p: Project, host: Host, k: string)
    requires ProjectResolvable(p, host) && p.contexts != []
    requires k in LibraryMap(p.generatorName, host, ToolchainId(host, p.contexts[0]), Visits(p.contexts))
    ensures var toolchain := ToolchainId(host, p.contexts[0]);
      var entry := LibraryMap(p.generatorName, host, toolchain, Visits(p.contexts))[k];
      && entry.JObject?
      && "toolchain" in entry.members && entry.members["toolchain"] == JString(toolchain)
      && "artifactName" in entry.members
      && exists v :: v in Visits(p.contexts)
           && entry.members["artifactName"] == JString(v.target.name)
           && k == LibraryKey(v.target.name, Config(v.ctx), Abi(v.ctx))
  {
    var toolchain := ToolchainId(host, p.contexts[0]);
    var vs := Visits(p.contexts);
    LibraryMapEntries(p.generatorName, host, toolchain, vs, k);
    var v :| v in vs && VisitKey(v) == k
      && LibraryMap(p.generatorName, host, toolchain, vs)[k] == VisitRecord(p.generatorName, host, toolchain, v);
    VisitsExactly(p.contexts);
    assert TargetResolvable(host, v.ctx, v.target);
    LibraryRecordFields(p.generatorName, host, v.ctx, v.target, toolchain, Config(v.ctx), Abi(v.ctx));
  }

  // ------------------------------------------------------------- extensions

  /** The published extensions of a language are exactly those of the C or
      C++ sources (as the language says) of the exported targets that are
      not imported. */
  lemma {:induction false} ExtensionUnionExactly(vs: seq<Visit>, language: string)
    ensures forall e :: e in ExtensionUnion(vs, language) <==>
      exists v, s :: v in vs && !v.target.imported && s in v.target.sources
        && s.language == language && s.extension == e
    decreases |vs|
  {
    if vs != [] {
      var init := vs[..|vs| - 1];
      var last := vs[|vs| - 1];
      ExtensionUnionExactly(init, language);
      assert vs == init + [last];
      forall e | e in ExtensionUnion(vs, language)
        ensures exists v, s :: (v in vs && !v.target.imported && s in v.target.sources
          && s.language == language && s.extension == e)
      {
        if e !in ExtensionUnion(init, language) {
          assert e in TargetExtensions(last.target, language);
          var s :| s in last.target.sources && s.language == language && s.extension == e;
          assert last in vs;
        }
      }
      forall e | exists v, s :: (v in vs && !v.target.imported && s in v.target.sources
          && s.language == language && s.extension == e)
        ensures e in ExtensionUnion(vs, language)
      {
        var v, s :| v in vs && !v.target.imported && s in v.target.sources
          && s.language == language && s.extension == e;
        if v == last {
          assert e in TargetExtensions(last.target, language);
        } else {
          assert v in init;
        }
      }
    }
  }

  // ------------------------------------------------------------- toolchains

  /** The toolchain table: absent (null) when neither compiler is known;
      otherwise one toolchain under the shared id, holding exactly the
      compilers that are known. */
  lemma ToolchainTable(host: Host, ctx: Context)
    ensures Toolchains(host, ctx).JNull? <==> CCompiler(ctx) == "" && CxxCompiler(ctx) == ""
    ensures !Toolchains(host, ctx).JNull? ==>
      var table := Toolchains(host, ctx);
      && table.JObject? && table.members.Keys == {ToolchainId(host, ctx)}
      && table.members[ToolchainId(host, ctx)].JObject?
      && var tools := table.members[ToolchainId(host, ctx)].members;
      && tools.Keys <= {"cCompilerExecutable", "cppCompilerExecutable"}
      && ("cCompilerExecutable" in tools <==> CCompiler(ctx) != "")
      && ("cppCompilerExecutable" in tools <==> CxxCompiler(ctx) != "")
      && ("cCompilerExecutable" in tools ==> tools["cCompilerExecutable"] == JString(CCompiler(ctx)))
      && ("cppCompilerExecutable" in tools ==> tools["cppCompilerExecutable"] == JString(CxxCompiler(ctx)))
  {
  }

  /** Compiler paths without a NUL character are recovered from the
      string that is hashed: distinct compiler pairs hash distinct inputs. */
  lemma ToolchainInputInjective(c1: Context, c2: Context)
    requires '\0' !in CCompiler(c1) && '\0' !in CCompiler(c2)
    requires ToolchainInput(c1) == ToolchainInput(c2)
    ensures CCompiler(c1) == CCompiler(c2) && CxxCompiler(c1) == CxxCompiler(c2)
  {
    var a1, a2 := CCompiler(c1), CCompiler(c2);
    var input := ToolchainInput(c1);
    FirstNul(a1, CxxCompiler(c1));
    FirstNul(a2, CxxCompiler(c2));
    assert a1 == input[..|a1|];
    assert a2 == input[..|a2|];
    assert CxxCompiler(c1) == input[|a1| + 1..];
    assert CxxCompiler(c2) == input[|a2| + 1..];
  }

  /** The first NUL of `a + "\0" + b` is the separator when a has none. */
  lemma FirstNul(a: string, b: string)
    requires '\0' !in a
    ensures Find(a + "\0" + b, "\0") == |a|
  {
    var s := a + "\0" + b;
    assert OccursAt(s, "\0", |a|);
    forall q | 0 <= q < |a| ensures !OccursAt(s, "\0", q) {
      assert s[q] == a[q];
      assert s[q..q + 1] == [a[q]];
    }
  }


  // --------------------------------------------------------------- document

  /** The members of the document ExportProject writes for a project with
      at least one local generator, and what each holds: one clean
      command, the toolchain table of the first makefile, one CMakeLists.txt
      per context in context order, and the extension arrays in the
      iteration order of std::set, free of duplicates. */
  lemma ProjectDocumentShape(p: Project, host: Host)
    requires p.contexts != []
    ensures ProjectDocument(p, host).Some?
    ensures var doc := ProjectDocument(p, host).value;
      var first := p.contexts[0];
      var vs := Visits(p.contexts);
      var c := SortedSeq(ExtensionUnion(vs, "C"));
      var cpp := SortedSeq(ExtensionUnion(vs, "CXX"));
      && doc.JObject?
      && doc.members.Keys <= {"buildFiles", "cFileExtensions", "cppFileExtensions", "cleanCommands",
                              "libraries", "toolchains"}
      && {"buildFiles", "cleanCommands", "toolchains"} <= doc.members.Keys
      && ("libraries" in doc.members <==> vs != [])
      && ("cFileExtensions" in doc.members <==> ExtensionUnion(vs, "C") != {})
      && ("cppFileExtensions" in doc.members <==> ExtensionUnion(vs, "CXX") != {})
      && doc.members["cleanCommands"] == JArray([JString(CleanCommand(host, first))])
      && doc.members["toolchains"] == Toolchains(host, first)
      && doc.members["buildFiles"].JArray?
      && |doc.members["buildFiles"].items| == |p.contexts|
      && (forall i :: 0 <= i < |p.contexts| ==>
            doc.members["buildFiles"].items[i] == JString(p.contexts[i].currentSourceDir + "/CMakeLists.txt"))
      && ("libraries" in doc.members ==>
            doc.members["libraries"] == JObject(LibraryMap(p.generatorName, host, ToolchainId(host, first), vs)))
      && ("cFileExtensions" in doc.members ==>
            doc.members["cFileExtensions"] == JArray(JStrings(c)) && StrictlySorted(c)
            && forall e :: e in c <==> e in ExtensionUnion(vs, "C"))
      && ("cppFileExtensions" in doc.members ==>
            doc.members["cppFileExtensions"] == JArray(JStrings(cpp)) && StrictlySorted(cpp)
            && forall e :: e in cpp <==> e in ExtensionUnion(vs, "CXX"))
  {
    var vs := Visits(p.contexts);
    var first := p.contexts[0];
    var toolchain := ToolchainId(host, first);
    var c := SortedSeq(ExtensionUnion(vs, "C"));
    var cpp := SortedSeq(ExtensionUnion(vs, "CXX"));
    var files := JStrings(BuildFiles(p.contexts));
    var libraries := LibraryMap(p.generatorName, host, toolchain, vs);
    DocumentMembers(JArray([JString(CleanCommand(host, first))]), Toolchains(host, first),
      ArrayOrNull(files), ObjectOrNull(libraries), ArrayOrNull(JStrings(c)), ArrayOrNull(JStrings(cpp)));
    LibraryMapNonEmpty(p.generatorName, host, toolchain, vs);
    assert ExtensionUnion(vs, "C") == {} <==> c == [];
    assert ExtensionUnion(vs, "CXX") == {} <==> cpp == [];
    assert files != [];
  }

  /** The members of the document object, in terms of the values kept for
      them. */
  lemma DocumentMembers(cleanCommands: Json, toolchains: Json, buildFiles: Json, libraries: Json,
                        cFileExtensions: Json, cppFileExtensions: Json)
    ensures var m := Document(cleanCommands, toolchains, buildFiles, libraries,
                              cFileExtensions, cppFileExtensions).members;
      && m.Keys <= {"buildFiles", "cFileExtensions", "cppFileExtensions", "cleanCommands",
                    "libraries", "toolchains"}
      && "cleanCommands" in m && m["cleanCommands"] == cleanCommands
      && "toolchains" in m && m["toolchains"] == toolchains
      && ("buildFiles" in m <==> buildFiles != JNull) && ("buildFiles" in m ==> m["buildFiles"] == buildFiles)
      && ("libraries" in m <==> libraries != JNull) && ("libraries" in m ==> m["libraries"] == libraries)
      && ("cFileExtensions" in m <==> cFileExtensions != JNull)
      && ("cFileExtensions" in m ==> m["cFileExtensions"] == cFileExtensions)
      && ("cppFileExtensions" in m <==> cppFileExtensions != JNull)
      && ("cppFileExtensions" in m ==> m["cppFileExtensions"] == cppFileExtensions)
  {
  }

  /** Something is stored exactly when some target was visited. */
  lemma LibraryMapNonEmpty(generatorName: string, host: Host, toolchain: string, vs: seq<Visit>)
    ensures LibraryMap(generatorName, host, toolchain, vs) == map[] <==> vs == []
  {
    if vs != [] {
      LibraryMapKeys(generatorName, host, toolchain, vs);
      assert VisitKey(vs[0]) in LibraryMap(generatorName, host, toolchain, vs);
    }
  }
}
