/** cmAndroidGradleTargetGenerator::ExportFlags: the per-source compile
    flags string, rebuilt from the language's compile-rule template. The
    positional tokens are erased from the raw template (first occurrence
    of each, in a fixed order), the rule variables are expanded by CMake,
    and the first occurrence of each of the three language placeholders
    is replaced by the target's real flags, defines and includes. */
module RuleSurgery {
  import opened Text
  import opened JsonValue
  import opened BuildGraph

  /** The tokens ExportFlags erases, in the order it erases them. */
  const UnusedRules: seq<string> :=
    ["<CMAKE_C_COMPILER>", "<CMAKE_CXX_COMPILER>", "-c", "-o", "<OBJECT>", "<SOURCE>"]

  /** Erase the first occurrence of each token, one token after the other. */
  function EraseEach(s: string, tokens: seq<string>): string
    decreases |tokens|
  {
    if tokens == [] then s else EraseEach(EraseFirst(s, tokens[0]), tokens[1..])
  }

  /** The template with the unused rules taken out. */
  function StripRule(rule: string): string {
    EraseEach(rule, UnusedRules)
  }

  /** Whatever the tokens, erasing them keeps every other character in its
      relative order. */
  lemma {:induction false} EraseEachIsSubsequence(s: string, tokens: seq<string>)
    ensures IsSubsequence(EraseEach(s, tokens), s)
    decreases |tokens|
  {
    if tokens == [] {
      SubsequenceReflexive(s);
    } else {
      var s' := EraseFirst(s, tokens[0]);
      EraseFirstIsSubsequence(s, tokens[0]);
      EraseEachIsSubsequence(s', tokens[1..]);
      SubsequenceTransitive(EraseEach(s', tokens[1..]), s', s);
    }
  }

  /** A template holding none of the tokens comes out unchanged. */
  lemma {:induction false} EraseEachAbsent(s: string, tokens: seq<string>)
    requires forall i :: 0 <= i < |tokens| ==> !Contains(s, tokens[i])
    ensures EraseEach(s, tokens) == s
    decreases |tokens|
  {
    if tokens != [] {
      assert !Contains(s, tokens[0]);
      assert EraseFirst(s, tokens[0]) == s;
      EraseEachAbsent(s, tokens[1..]);
    }
  }

  /** Erasing never lengthens the template, and each token that is still
      present when its turn comes shortens the result by at least its
      length: the erase removes exactly that many characters and the later
      erases never add any. */
  lemma {:induction false} EraseEachLength(s: string, tokens: seq<string>)
    ensures |EraseEach(s, tokens)| <= |s|
    ensures forall i :: 0 <= i < |tokens| && Contains(EraseEach(s, tokens[..i]), tokens[i]) ==>
      |EraseEach(s, tokens)| <= |s| - |tokens[i]|
    decreases |tokens|
  {
    if tokens != [] {
      var s' := EraseFirst(s, tokens[0]);
      EraseEachLength(s', tokens[1..]);
      if |tokens[0]| > 0 {
        EraseFirstUnchangedIffAbsent(s, tokens[0]);
      }
      forall i | 0 <= i < |tokens| && Contains(EraseEach(s, tokens[..i]), tokens[i])
        ensures |EraseEach(s, tokens)| <= |s| - |tokens[i]|
      {
        if i > 0 {
          assert tokens[..i][1..] == tokens[1..][..i - 1];
          assert EraseEach(s, tokens[..i]) == EraseEach(s', tokens[1..][..i - 1]);
          assert tokens[i] == tokens[1..][i - 1];
        }
      }
    }
  }

  /** The rule variables of ExportFlags are placeholders named after the
      language: "$(" + language + "_FLAGS)" and so on. */
  function Placeholder(language: string, kind: string): string {
    "$(" + language + "_" + kind + ")"
  }

  /** The value ExportFlags gives RuleVariables.Flags. */
  function FlagsVariable(host: Host, src: Source): string {
    var flags := host.appendFlags("", Placeholder(src.language, "FLAGS"));
    if "COMPILE_FLAGS" in src.properties
    then host.appendFlags(flags, src.properties["COMPILE_FLAGS"])
    else flags
  }

  /** The value ExportFlags gives RuleVariables.Defines: the source's plain
      definitions, then its per-configuration ones, joined after the
      language's defines placeholder. */
  function DefinesVariable(host: Host, ctx: Context, src: Source): string {
    var config := host.upperCase(Definition(ctx, "CMAKE_BUILD_TYPE"));
    var plain: set<string> :=
      if "COMPILE_DEFINITIONS" in src.properties
      then host.appendDefines({}, src.properties["COMPILE_DEFINITIONS"])
      else {};
    var perConfig := "COMPILE_DEFINITIONS_" + config;
    var defines :=
      if perConfig in src.properties
      then host.appendDefines(plain, src.properties[perConfig])
      else plain;
    host.joinDefines(defines, Placeholder(src.language, "DEFINES"), src.language)
  }

  /** The raw template CMAKE_<LANG>_COMPILE_OBJECT of the target's makefile. */
  function CompileRule(ctx: Context, language: string): string {
    Definition(ctx, "CMAKE_" + language + "_COMPILE_OBJECT")
  }

  /** The command after the surgery and CMake's rule-variable expansion,
      with the three placeholders still in it. */
  function ExpandedCommand(host: Host, ctx: Context, t: Target, src: Source): string {
    var vars := RuleVariables("RULE_LAUNCH_COMPILE", t.name, src.language,
      FlagsVariable(host, src), DefinesVariable(host, ctx, src),
      Placeholder(src.language, "INCLUDES"));
    host.expandRuleVariables(StripRule(CompileRule(ctx, src.language)), vars)
  }

  /** One `replace(find(placeholder), ...)` call: None when the
      placeholder is missing (where the source's replace would throw). */
  function ReplaceStep(cmd: Option<string>, placeholder: string, value: string): Option<string> {
    if cmd.Some? && Contains(cmd.value, placeholder)
    then Some(ReplaceFirst(cmd.value, placeholder, value))
    else None
  }

  /** The flags string ExportFlags returns: the expanded command with the
      first flags, defines and includes placeholders replaced, in that
      order, by the target's real values. */
  function CompileFlags(host: Host, ctx: Context, t: Target, src: Source): Option<string> {
    var language := src.language;
    var c0 := Some(ExpandedCommand(host, ctx, t, src));
    var c1 := ReplaceStep(c0, Placeholder(language, "FLAGS"), host.targetFlags(t.name, language));
    var c2 := ReplaceStep(c1, Placeholder(language, "DEFINES"), host.targetDefines(t.name, language));
    ReplaceStep(c2, Placeholder(language, "INCLUDES"), host.targetIncludes(t.name, language))
  }

  /** The three placeholders can each be found when their turn comes. */
  predicate FlagsResolvable(host: Host, ctx: Context, t: Target, src: Source) {
    CompileFlags(host, ctx, t, src).Some?
  }

  /** Each replacement finds its placeholder, and the flags string is the
      result of the third. */
  lemma CompileFlagsSteps(host: Host, ctx: Context, t: Target, src: Source)
    requires FlagsResolvable(host, ctx, t, src)
    ensures var language := src.language;
      var c0 := ExpandedCommand(host, ctx, t, src);
      && Contains(c0, Placeholder(language, "FLAGS"))
      && var c1 := ReplaceFirst(c0, Placeholder(language, "FLAGS"), host.targetFlags(t.name, language));
      && Contains(c1, Placeholder(language, "DEFINES"))
      && var c2 := ReplaceFirst(c1, Placeholder(language, "DEFINES"), host.targetDefines(t.name, language));
      && Contains(c2, Placeholder(language, "INCLUDES"))
      && CompileFlags(host, ctx, t, src)
         == Some(ReplaceFirst(c2, Placeholder(language, "INCLUDES"), host.targetIncludes(t.name, language)))
  {
  }

  lemma EraseEachStep(s: string, tokens: seq<string>, i: int)
    requires 0 <= i < |tokens|
    ensures EraseEach(s, tokens[i..]) == EraseEach(EraseFirst(s, tokens[i]), tokens[i + 1..])
  {
    assert tokens[i..][1..] == tokens[i + 1..];
  }

  /** The erase loop of ExportFlags: each unused rule, in turn, is looked
      up and erased where it is first found. */
  method EraseUnusedRules(rule: string) returns (compileCommand: string)
    ensures compileCommand == StripRule(rule)
  {
    compileCommand := rule;
    for i := 0 to |UnusedRules|
      invariant EraseEach(compileCommand, UnusedRules[i..]) == StripRule(rule)
    {
      var unusedRule := UnusedRules[i];
      EraseEachStep(compileCommand, UnusedRules, i);
      var position := Find(compileCommand, unusedRule);
      if position != NPOS {
        compileCommand := compileCommand[..position] + compileCommand[position + |unusedRule|..];
      }
    }
  }

  /** ExportFlags. The erase loop works on the raw template; the three
      replacements follow the expansion. */
  method ExportFlags(host: Host, ctx: Context, t: Target, src: Source) returns (command: string)
    requires FlagsResolvable(host, ctx, t, src)
    ensures Some(command) == CompileFlags(host, ctx, t, src)
  {
    var language := src.language;

    var languageFlags := Placeholder(language, "FLAGS");
    var flags := host.appendFlags("", languageFlags);
    var config := host.upperCase(Definition(ctx, "CMAKE_BUILD_TYPE"));
    if "COMPILE_FLAGS" in src.properties {
      flags := host.appendFlags(flags, src.properties["COMPILE_FLAGS"]);
    }

    var defines: set<string> := {};
    if "COMPILE_DEFINITIONS" in src.properties {
      defines := host.appendDefines(defines, src.properties["COMPILE_DEFINITIONS"]);
    }
    if "COMPILE_DEFINITIONS_" + config in src.properties {
      defines := host.appendDefines(defines, src.properties["COMPILE_DEFINITIONS_" + config]);
    }
    var languageDefines := Placeholder(language, "DEFINES");
    var definesString := host.joinDefines(defines, languageDefines, language);
    var languageIncludes := Placeholder(language, "INCLUDES");

    var vars := RuleVariables("RULE_LAUNCH_COMPILE", t.name, language,
      flags, definesString, languageIncludes);

    var compileCommand := EraseUnusedRules(CompileRule(ctx, language));

    assert flags == FlagsVariable(host, src);
    assert definesString == DefinesVariable(host, ctx, src);
    compileCommand := host.expandRuleVariables(compileCommand, vars);
    assert compileCommand == ExpandedCommand(host, ctx, t, src);
    CompileFlagsSteps(host, ctx, t, src);
    compileCommand :=
      ReplaceFirst(compileCommand, languageFlags, host.targetFlags(t.name, language));
    compileCommand :=
      ReplaceFirst(compileCommand, languageDefines, host.targetDefines(t.name, language));
    compileCommand :=
      ReplaceFirst(compileCommand, languageIncludes, host.targetIncludes(t.name, language));
    command := compileCommand;
  }
}
