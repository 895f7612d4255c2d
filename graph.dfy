/** The already-configured CMake build graph that the Android Gradle
    exporter reads, as plain input values, and the CMake services it calls
    into, as given functions. Nothing here is computed by the exporter. */
module BuildGraph {

  /** cmState::TargetType. */
  datatype TargetType =
    | Executable
    | StaticLibrary
    | SharedLibrary
    | ModuleLibrary
    | ObjectLibrary
    | Utility
    | GlobalTarget
    | InterfaceLibrary
    | UnknownLibrary

  /** A cmSourceFile: GetFullPath, GetLanguage, GetExtension and its
      properties (GetProperty answers null for a name not in the map). */
  datatype Source = Source(
    fullPath: string,
    language: string,
    extension: string,
    properties: map<string, string>)

  /** A cmTarget with what its generator target answers for the
      configuration being exported: GetLocation(config) and
      GetSourceFiles(sources, config). */
  datatype Target = Target(
    name: string,
    kind: TargetType,
    imported: bool,
    location: string,
    sources: seq<Source>)

  /** One local generator with its cmMakefile: the makefile's definitions
      (CMAKE_BUILD_TYPE, CMAKE_ANDROID_ARCH_ABI, CMAKE_COMMAND,
      CMAKE_C_COMPILER, CMAKE_<LANG>_COMPILE_OBJECT, ...), its directories,
      the targets it owns in GetTargets() order and its imported targets. */
  datatype Context = Context(
    definitions: map<string, string>,
    homeOutputDir: string,
    currentSourceDir: string,
    currentBinaryDir: string,
    targets: seq<Target>,
    importedTargets: seq<Target>)

  /** The global generator: its name and its local generators in
      registration order (GetMakefiles() lists their makefiles in the same
      order). */
  datatype Project = Project(generatorName: string, contexts: seq<Context>)

  /** cmLocalGenerator::RuleVariables as ExportFlags fills it. */
  datatype RuleVariables = RuleVariables(
    ruleLauncher: string,
    targetName: string,
    language: string,
    flags: string,
    defines: string,
    includes: string)

  /** The CMake services the exporter calls and that are not part of this
      model, each as a fixed function of its arguments. */
  datatype Host = Host(
    outputPath: string -> string,                        // cmSystemTools::ConvertToOutputPath
    fullPath: string -> string,                          // cmLocalGenerator::Convert(_, FULL)
    isNotFound: string -> bool,                          // cmSystemTools::IsNOTFOUND
    hash: string -> string,                              // std::to_string(std::hash<std::string>{}(_))
    lowerCase: string -> string,                         // cmSystemTools::LowerCase
    upperCase: string -> string,                         // cmSystemTools::UpperCase
    appendFlags: (string, string) -> string,             // cmLocalGenerator::AppendFlags
    appendDefines: (set<string>, string) -> set<string>, // cmLocalGenerator::AppendDefines
    joinDefines: (set<string>, string, string) -> string, // cmLocalGenerator::JoinDefines
    expandRuleVariables: (string, RuleVariables) -> string, // cmLocalGenerator::ExpandRuleVariables
    targetFlags: (string, string) -> string,             // GetFlags(language) of the named target
    targetDefines: (string, string) -> string,           // GetDefines(language) of the named target
    targetIncludes: (string, string) -> string)          // GetIncludes(language) of the named target

  /** cmMakefile::GetSafeDefinition; GetRequiredDefinition reads the same
      way once CMake has reported a missing definition. */
  function Definition(ctx: Context, name: string): string {
    if name in ctx.definitions then ctx.definitions[name] else ""
  }

  /** The targets ExportProject visits in one context: the owned ones,
      then the imported ones. */
  function TargetsOf(ctx: Context): seq<Target> {
    ctx.targets + ctx.importedTargets
  }
}
