/**
 * The configuration logic of the Conan recipe for mariadb-connector-cpp:
 * which settings it rejects, how it trims its options, what it requires,
 * which CMake variables it hands to the toolchain, how it patches the
 * upstream CMakeLists.txt and how it describes the installed package.
 *
 * The decisions are pure functions on small records; the class `Recipe`
 * holds the state the recipe object updates in place (its options, its
 * requirement list, the CMakeLists.txt text, its cpp_info and runenv_info),
 * and each of its methods is proved against those functions.
 */
module MariadbConnectorCpp {

  import opened Results
  import opened Text
  import opened Versions

  // ---------------------------------------------------------------------
  // Settings, options and errors
  // ---------------------------------------------------------------------

  /** The settings the recipe reads; Conan's setting values are strings. */
  datatype Settings = Settings(os: string, compiler: string, compilerVersion: Version, buildType: string)

  /** The choices of the `with_ssl` option. */
  datatype SslBackend = NoSsl | OpenSsl | GnuTls | Schannel

  /** The value of `with_ssl` as Conan renders it (`False` is the option's "no TLS" choice). */
  function SslName(b: SslBackend): (r: string)
    ensures r == "False" <==> b == NoSsl
    ensures r == "openssl" <==> b == OpenSsl
    ensures r == "gnutls" <==> b == GnuTls
    ensures r == "schannel" <==> b == Schannel
  {
    match b
    case NoSsl => "False"
    case OpenSsl => "openssl"
    case GnuTls => "gnutls"
    case Schannel => "schannel"
  }

  lemma SslNameInjective(x: SslBackend, y: SslBackend)
    ensures SslName(x) == SslName(y) ==> x == y
  {
  }

  /** The option set; `fPIC` is `None` once the recipe has removed it. */
  datatype Options = Options(shared: bool, fPIC: Option<bool>, withSsl: SslBackend, withCurl: bool)

  const DefaultOptions := Options(false, Some(true), OpenSsl, true)

  datatype ConfigError =
    | UnsupportedPlatform
    | CompilerTooOld(minCppStd: string)
    | PatchAnchorNotFound(search: string)
    | DependencyResolutionFailure(dependency: string)

  /** The C++ standard the error message for a too-old compiler names. */
  const MinCppStd := "11"

  // ---------------------------------------------------------------------
  // validate
  // ---------------------------------------------------------------------

  /** The oldest version of each compiler that the recipe accepts. */
  const CompilersMinimumVersion: map<string, Version> :=
    map["Visual Studio" := [16], "msvc" := [192], "gcc" := [9], "clang" := [6]]

  /** `_compilers_minimum_version.get(compiler, False)`. */
  function MinimumVersion(compiler: string): (r: Option<Version>)
    ensures r.Some? <==> compiler in {"Visual Studio", "msvc", "gcc", "clang"}
    ensures compiler == "Visual Studio" ==> r == Some([16])
    ensures compiler == "msvc" ==> r == Some([192])
    ensures compiler == "gcc" ==> r == Some([9])
    ensures compiler == "clang" ==> r == Some([6])
  {
    if compiler in CompilersMinimumVersion then Some(CompilersMinimumVersion[compiler]) else None
  }

  /**
   * The recipe's `validate`: first the minimum-version check for compilers
   * that `isMsvc` does not claim, then the refusal of Windows. `isMsvc`
   * stands for Conan's `is_msvc`, whose rules are not part of this model.
   */
  function Validate(s: Settings, isMsvc: string -> bool): (r: Outcome<ConfigError>)
    ensures s.os == "Windows" ==> r.Fail?
    ensures r.Fail? ==> r.error == UnsupportedPlatform || r.error == CompilerTooOld(MinCppStd)
    ensures r == Fail(CompilerTooOld(MinCppStd)) <==>
      !isMsvc(s.compiler) && s.compiler in CompilersMinimumVersion &&
      Less(s.compilerVersion, CompilersMinimumVersion[s.compiler])
    ensures r == Pass <==>
      s.os != "Windows" &&
      (isMsvc(s.compiler) || s.compiler !in CompilersMinimumVersion ||
       !Less(s.compilerVersion, CompilersMinimumVersion[s.compiler]))
  {
    var tooOld :=
      !isMsvc(s.compiler) &&
      match MinimumVersion(s.compiler)
      case Some(minimum) => Less(s.compilerVersion, minimum)
      case None => false;
    if tooOld then Fail(CompilerTooOld(MinCppStd))
    else if s.os == "Windows" then Fail(UnsupportedPlatform)
    else Pass
  }

  /** A configuration that validates still validates with a newer compiler of the same kind. */
  lemma NewerCompilerStillValid(s: Settings, isMsvc: string -> bool, newer: Version)
    requires Validate(s, isMsvc) == Pass
    requires !Less(newer, s.compilerVersion)
    ensures Validate(s.(compilerVersion := newer), isMsvc) == Pass
  {
    var c := s.compiler;
    if !isMsvc(c) && c in CompilersMinimumVersion && Less(newer, CompilersMinimumVersion[c]) {
      LessSplits(newer, s.compilerVersion, CompilersMinimumVersion[c]);
    }
  }

  /** A non-MSVC gcc or clang is rejected exactly when it is older than 9 or 6 respectively. */
  lemma ValidateGccClang(s: Settings, isMsvc: string -> bool)
    requires s.os != "Windows" && !isMsvc(s.compiler)
    ensures s.compiler == "gcc" ==> (Validate(s, isMsvc).Fail? <==> Less(s.compilerVersion, [9]))
    ensures s.compiler == "clang" ==> (Validate(s, isMsvc).Fail? <==> Less(s.compilerVersion, [6]))
  {
  }

  // ---------------------------------------------------------------------
  // config_options and configure
  // ---------------------------------------------------------------------

  /** The options after `config_options`: `fPIC` removed on Windows (`rm_safe` ignores a missing option). */
  function AfterConfigOptions(o: Options, os: string): (r: Options)
    ensures r.fPIC.None? <==> os == "Windows" || o.fPIC.None?
    ensures r.fPIC.Some? ==> r.fPIC == o.fPIC
    ensures r.(fPIC := o.fPIC) == o
  {
    if os == "Windows" then o.(fPIC := None) else o
  }

  /** The options after `configure`: `fPIC` removed for a shared build. */
  function AfterConfigure(o: Options): (r: Options)
    ensures r.fPIC.None? <==> o.shared || o.fPIC.None?
    ensures r.fPIC.Some? ==> r.fPIC == o.fPIC
    ensures r.(fPIC := o.fPIC) == o
  {
    if o.shared then o.(fPIC := None) else o
  }

  /** The options as the recipe leaves them: `config_options` followed by `configure`. */
  function NormalizedOptions(o: Options, os: string): (r: Options)
    ensures r.fPIC.None? <==> os == "Windows" || o.shared || o.fPIC.None?
    ensures r.fPIC.Some? ==> r.fPIC == o.fPIC
    ensures r.shared == o.shared && r.withSsl == o.withSsl && r.withCurl == o.withCurl
  {
    AfterConfigure(AfterConfigOptions(o, os))
  }

  /** Trimming the options a second time changes nothing. */
  lemma NormalizedOptionsIdempotent(o: Options, os: string)
    ensures NormalizedOptions(NormalizedOptions(o, os), os) == NormalizedOptions(o, os)
  {
  }

  /** From the defaults, `fPIC` survives (and stays on) exactly for a static build off Windows. */
  lemma DefaultFpic(shared: bool, os: string)
    ensures var r := NormalizedOptions(DefaultOptions.(shared := shared), os);
      (r.fPIC == Some(true) <==> !shared && os != "Windows") &&
      (r.fPIC.None? <==> shared || os == "Windows")
  {
  }

  // ---------------------------------------------------------------------
  // requirements
  // ---------------------------------------------------------------------

  const ConnectorCName := "mariadb-connector-c"
  const ConnectorCRef := "mariadb-connector-c/3.3.3"
  const ZlibRef := "zlib/[>=1.2.10 <2]"
  const ZstdRef := "zstd/1.5.5"
  const OpensslRef := "openssl/[>=1.1 <4]"

  /** The references `requirements` passes to `self.requires`, in order. */
  function RequiredReferences(o: Options): (r: seq<string>)
    ensures |r| == if o.withSsl == OpenSsl then 4 else 3
    ensures r[..3] == [ConnectorCRef, ZlibRef, ZstdRef]
    ensures OpensslRef in r <==> o.withSsl == OpenSsl
    ensures forall x :: x in r ==> x in [ConnectorCRef, ZlibRef, ZstdRef, OpensslRef]
  {
    [ConnectorCRef, ZlibRef, ZstdRef] + if o.withSsl == OpenSsl then [OpensslRef] else []
  }

  /** Neither `with_curl`, `fPIC` nor `shared` has any effect on the requirements. */
  lemma RequirementsOnlyFollowSsl(o: Options, p: Options)
    requires o.withSsl == p.withSsl
    ensures RequiredReferences(o) == RequiredReferences(p)
  {
  }

  // ---------------------------------------------------------------------
  // generate: the toolchain variables
  // ---------------------------------------------------------------------

  /** A CMake variable value: a Python boolean or a string. */
  datatype CMakeValue = Flag(on: bool) | Str(s: string)

  /** The variables `generate` sets in `tc.variables`. */
  datatype CMakeVariable =
    | UseSystemInstalledLib | WithUnitTests | BuildSharedLibs | MariadbLinkDynamic
    | ConcWithUnitTests | WithSsl | WithExternalZlib | InstallBindir | InstallLibdir
    | InstallPlugindir

  const AllVariables: set<CMakeVariable> := {
    UseSystemInstalledLib, WithUnitTests, BuildSharedLibs, MariadbLinkDynamic, ConcWithUnitTests,
    WithSsl, WithExternalZlib, InstallBindir, InstallLibdir, InstallPlugindir
  }

  /** The CMake name of each variable. */
  function VariableName(v: CMakeVariable): string {
    match v
    case UseSystemInstalledLib => "USE_SYSTEM_INSTALLED_LIB"
    case WithUnitTests => "WITH_UNIT_TESTS"
    case BuildSharedLibs => "BUILD_SHARED_LIBS"
    case MariadbLinkDynamic => "MARIADB_LINK_DYNAMIC"
    case ConcWithUnitTests => "CONC_WITH_UNIT_TESTS"
    case WithSsl => "WITH_SSL"
    case WithExternalZlib => "WITH_EXTERNAL_ZLIB"
    case InstallBindir => "INSTALL_BINDIR"
    case InstallLibdir => "INSTALL_LIBDIR"
    case InstallPlugindir => "INSTALL_PLUGINDIR"
  }

  /** The ten keys are ten distinct CMake names, so no entry of `tc.variables` overwrites another. */
  lemma VariableNamesDistinct(x: CMakeVariable, y: CMakeVariable)
    ensures VariableName(x) == VariableName(y) ==> x == y
  {
  }

  /** `os.path.join("lib", "plugin").replace("\\", "/")`. */
  function InstallPluginDir(): (r: string)
    ensures r == "lib/plugin"
  {
    assert Join("lib", "plugin") == "lib/plugin";
    Slashed(Join("lib", "plugin"))
  }

  /** The `tc.variables` map that `generate` fills. */
  function BuildVariables(o: Options): (vars: map<CMakeVariable, CMakeValue>)
    ensures vars.Keys == AllVariables
    ensures vars[WithUnitTests] == Flag(false) && vars[ConcWithUnitTests] == Flag(false)
    ensures vars[MariadbLinkDynamic] == Flag(false)
    ensures vars[UseSystemInstalledLib] == Flag(true) && vars[WithExternalZlib] == Flag(true)
    ensures vars[InstallBindir] == Str("bin") && vars[InstallLibdir] == Str("lib")
    ensures vars[InstallPlugindir] == Str("lib/plugin")
    ensures vars[BuildSharedLibs] == Flag(o.shared)
    ensures vars[WithSsl] == Str(SslName(o.withSsl))
  {
    map[
      UseSystemInstalledLib := Flag(true),
      WithUnitTests := Flag(false),
      BuildSharedLibs := Flag(o.shared),
      MariadbLinkDynamic := Flag(false),
      ConcWithUnitTests := Flag(false),
      WithSsl := Str(SslName(o.withSsl)),
      WithExternalZlib := Flag(true),
      InstallBindir := Str("bin"),
      InstallLibdir := Str("lib"),
      InstallPlugindir := Str(InstallPluginDir())
    ]
  }

  /**
   * The variables depend on `shared` and `with_ssl` and on nothing else
   * (no entry comes from `with_curl` or `fPIC`), and they determine both.
   */
  lemma BuildVariablesMirrorOptions(o: Options, p: Options)
    ensures BuildVariables(o) == BuildVariables(p) <==> o.shared == p.shared && o.withSsl == p.withSsl
  {
    if BuildVariables(o) == BuildVariables(p) {
      assert BuildVariables(o)[BuildSharedLibs] == BuildVariables(p)[BuildSharedLibs];
      assert BuildVariables(o)[WithSsl] == BuildVariables(p)[WithSsl];
      SslNameInjective(o.withSsl, p.withSsl);
    }
  }

  // ---------------------------------------------------------------------
  // Dependency folders
  // ---------------------------------------------------------------------

  /** What the recipe reads of a dependency: its package folder and its cpp_info directories. */
  datatype DependencyInfo = DependencyInfo(packageFolder: string, includeDirs: seq<string>, libDirs: seq<string>)

  /** `_package_folder_dep`: `None` stands for the KeyError of an unknown dependency. */
  function PackageFolderDep(deps: map<string, DependencyInfo>, dep: string): (r: Option<string>)
    ensures r.Some? <==> dep in deps
    ensures r.Some? ==> '\\' !in r.value && SameUpToSeparators(r.value, deps[dep].packageFolder)
  {
    if dep in deps then
      SlashedSameUpToSeparators(deps[dep].packageFolder);
      Some(Slashed(deps[dep].packageFolder))
    else None
  }

  /** `_include_folder_dep`: the first include directory; `None` for a KeyError or IndexError. */
  function IncludeFolderDep(deps: map<string, DependencyInfo>, dep: string): (r: Option<string>)
    ensures r.Some? <==> dep in deps && deps[dep].includeDirs != []
    ensures r.Some? ==> '\\' !in r.value && SameUpToSeparators(r.value, deps[dep].includeDirs[0])
  {
    if dep in deps && deps[dep].includeDirs != [] then
      SlashedSameUpToSeparators(deps[dep].includeDirs[0]);
      Some(Slashed(deps[dep].includeDirs[0]))
    else None
  }

  /** `_lib_folder_dep`: the first library directory; `None` for a KeyError or IndexError. */
  function LibFolderDep(deps: map<string, DependencyInfo>, dep: string): (r: Option<string>)
    ensures r.Some? <==> dep in deps && deps[dep].libDirs != []
    ensures r.Some? ==> '\\' !in r.value && SameUpToSeparators(r.value, deps[dep].libDirs[0])
  {
    if dep in deps && deps[dep].libDirs != [] then
      SlashedSameUpToSeparators(deps[dep].libDirs[0]);
      Some(Slashed(deps[dep].libDirs[0]))
    else None
  }

  // ---------------------------------------------------------------------
  // _patch_sources
  // ---------------------------------------------------------------------

  /** One `replace_in_file` call on CMakeLists.txt. */
  datatype Edit = Edit(search: string, replacement: string)

  const IncludeAnchor := "INCLUDE(SetValueMacro)"
  const SharedDeclaration := "${LIBRARY_NAME} SHARED"
  const StaticDeclaration := "${LIBRARY_NAME} STATIC"

  /** The line that points the upstream build at the connector-c headers under `dir`. */
  function IncludeLine(dir: string): (r: string)
    ensures |r| == |dir| + 29
    ensures r[..20] == "INCLUDE_DIRECTORIES(" && r[20..20 + |dir|] == dir && r[20 + |dir|..] == "/mariadb)"
    ensures '\n' in r <==> '\n' in dir
  {
    "INCLUDE_DIRECTORIES(" + dir + "/mariadb)"
  }

  /** The edits `_patch_sources` applies, in order. */
  function PatchPlan(o: Options, includeDir: string): (plan: seq<Edit>)
    ensures |plan| == if o.shared then 1 else 2
    ensures plan[0] == Edit(IncludeAnchor, IncludeAnchor + ("\n" + IncludeLine(includeDir)))
    ensures Edit(SharedDeclaration, StaticDeclaration) in plan <==> !o.shared
    ensures forall e :: e in plan ==> e.search != []
  {
    [Edit(IncludeAnchor, IncludeAnchor + ("\n" + IncludeLine(includeDir)))] +
    if o.shared then [] else [Edit(SharedDeclaration, StaticDeclaration)]
  }

  /** The text after a run of edits, and whether the run got to its end. */
  datatype Patched = Patched(text: string, outcome: Outcome<ConfigError>)

  /**
   * Strict `replace_in_file` calls in order: the first edit whose search text
   * is missing raises, and the edits before it stay applied.
   */
  function ApplyEdits(text: string, plan: seq<Edit>): (r: Patched)
    requires forall e :: e in plan ==> e.search != []
    ensures r.outcome.Fail? ==> exists e :: e in plan && r.outcome.error == PatchAnchorNotFound(e.search)
    decreases |plan|
  {
    if plan == [] then Patched(text, Pass)
    else
      match ReplaceInText(text, plan[0].search, plan[0].replacement)
      case None => Patched(text, Fail(PatchAnchorNotFound(plan[0].search)))
      case Some(next) =>
        var r := ApplyEdits(next, plan[1..]);
        assert r.outcome.Fail? ==> exists e :: e in plan[1..] && r.outcome.error == PatchAnchorNotFound(e.search);
        r
  }

  /**
   * The anchor patch keeps the text up to and including the first anchor,
   * and puts the include line on the line right after it.
   */
  lemma IncludeLineFollowsAnchor(text: string, dir: string)
    requires Find(text, IncludeAnchor) >= 0
    ensures var line := "\n" + IncludeLine(dir);
      var r := ReplaceInText(text, IncludeAnchor, IncludeAnchor + line);
      var n := Find(text, IncludeAnchor) + |IncludeAnchor|;
      r.Some? && |r.value| >= n + |line| && r.value[..n + |line|] == text[..n] + line
  {
    ReplaceInTextAppends(text, IncludeAnchor, "\n" + IncludeLine(dir));
  }

  /** Without the anchor the patch raises and leaves the text as it was. */
  lemma PatchFailsWithoutAnchor(text: string, o: Options, dir: string)
    requires forall j: nat :: !OccursAt(text, IncludeAnchor, j)
    ensures ApplyEdits(text, PatchPlan(o, dir)) == Patched(text, Fail(PatchAnchorNotFound(IncludeAnchor)))
  {
  }

  /** One strict edit: it raises and changes nothing, or it succeeds with the replaced text. */
  lemma ApplySingleEdit(text: string, e: Edit)
    requires e.search != []
    ensures ApplyEdits(text, [e]) ==
      match ReplaceInText(text, e.search, e.replacement)
      case None => Patched(text, Fail(PatchAnchorNotFound(e.search)))
      case Some(next) => Patched(next, Pass)
  {
    assert [e][1..] == [];
  }

  /** After a successful first edit, the rest of the plan runs on its result. */
  lemma ApplyEditsAfterFirst(text: string, plan: seq<Edit>)
    requires forall e :: e in plan ==> e.search != []
    requires plan != [] && ReplaceInText(text, plan[0].search, plan[0].replacement).Some?
    ensures ApplyEdits(text, plan) ==
      ApplyEdits(ReplaceInText(text, plan[0].search, plan[0].replacement).value, plan[1..])
  {
  }

  /** Once the anchor patch has succeeded, a shared build is done. */
  lemma SharedPatchOutcome(text: string, o: Options, dir: string)
    requires o.shared && Find(text, IncludeAnchor) >= 0
    ensures ApplyEdits(text, PatchPlan(o, dir)) ==
      Patched(ReplaceInText(text, IncludeAnchor, IncludeAnchor + ("\n" + IncludeLine(dir))).value, Pass)
  {
    var plan := PatchPlan(o, dir);
    ApplyEditsAfterFirst(text, plan);
    assert plan[1..] == [];
  }

  /**
   * Once the anchor patch has succeeded, a static build goes on with the
   * SHARED-to-STATIC rewrite, which raises when the declaration is missing
   * from the text the first edit produced.
   */
  lemma StaticPatchOutcome(text: string, o: Options, dir: string)
    requires !o.shared && Find(text, IncludeAnchor) >= 0
    ensures var first := ReplaceInText(text, IncludeAnchor, IncludeAnchor + ("\n" + IncludeLine(dir))).value;
      ApplyEdits(text, PatchPlan(o, dir)) ==
        match ReplaceInText(first, SharedDeclaration, StaticDeclaration)
        case None => Patched(first, Fail(PatchAnchorNotFound(SharedDeclaration)))
        case Some(last) => Patched(last, Pass)
  {
    var plan := PatchPlan(o, dir);
    var first := ReplaceInText(text, IncludeAnchor, IncludeAnchor + ("\n" + IncludeLine(dir))).value;
    ApplyEditsAfterFirst(text, plan);
    assert plan[1..] == [Edit(SharedDeclaration, StaticDeclaration)];
    ApplySingleEdit(first, Edit(SharedDeclaration, StaticDeclaration));
  }

  // ---------------------------------------------------------------------
  // package_info
  // ---------------------------------------------------------------------

  /** The parts of `self.cpp_info` the recipe sets. */
  datatype CppInfo = CppInfo(
    includeDirs: seq<string>,
    libDirs: seq<string>,
    libs: seq<string>,
    systemLibs: seq<string>,
    properties: map<string, string>)

  /** Conan's defaults for a fresh cpp_info. */
  const DefaultCppInfo := CppInfo(["include"], ["lib"], [], [], map[])

  /** The systems for which `package_info` adds the math and resolver libraries. */
  const PosixSystems := ["Linux", "FreeBSD", "Macos"]

  /** `cpp_info` after `package_info`; `collected` is what `collect_libs` found. */
  function PackageLayout(c: CppInfo, s: Settings, collected: seq<string>): (r: CppInfo)
    ensures |r.includeDirs| == |c.includeDirs| + 1
    ensures r.includeDirs[..|c.includeDirs|] == c.includeDirs
    ensures r.includeDirs[|c.includeDirs|] == "include/mariadb"
    ensures r.libDirs == ["lib64/debug", "lib/debug"] <==> s.buildType == "Debug"
    ensures r.libDirs == ["lib64", "lib"] <==> s.buildType != "Debug"
    ensures r.libs == collected
    ensures s.os in PosixSystems ==> r.systemLibs == ["m", "resolv"]
    ensures s.os !in PosixSystems ==> r.systemLibs == c.systemLibs
    ensures r.properties.Keys == c.properties.Keys + {"pkg_config_name"}
    ensures r.properties["pkg_config_name"] == "libmariadbcpp"
    ensures forall k :: k in c.properties && k != "pkg_config_name" ==> r.properties[k] == c.properties[k]
  {
    c.(
      properties := c.properties["pkg_config_name" := "libmariadbcpp"],
      includeDirs := c.includeDirs + [Join("include", "mariadb")],
      libDirs := if s.buildType == "Debug" then ["lib64/debug", "lib/debug"] else ["lib64", "lib"],
      libs := collected,
      systemLibs := if s.os in PosixSystems then ["m", "resolv"] else c.systemLibs)
  }

  /** Running `package_info` again on its own result gives the same lib and system-lib lists. */
  lemma PackageLayoutStable(c: CppInfo, s: Settings, collected: seq<string>)
    ensures var once := PackageLayout(c, s, collected);
      var twice := PackageLayout(once, s, collected);
      twice.libDirs == once.libDirs && twice.systemLibs == once.systemLibs && twice.libs == once.libs &&
      twice.properties == once.properties
  {
  }

  /** `os.path.join(package_folder, "lib", "plugin").replace("\\", "/")`. */
  function PluginDir(packageFolder: string): (r: string)
    ensures '\\' !in r
    ensures packageFolder != [] && packageFolder[|packageFolder| - 1] != '/' ==>
      r == Slashed(packageFolder) + "/lib/plugin"
    ensures packageFolder == [] || packageFolder[|packageFolder| - 1] == '/' ==>
      r == Slashed(packageFolder) + "lib/plugin"
  {
    var joined := Join(Join(packageFolder, "lib"), "plugin");
    assert packageFolder != [] && packageFolder[|packageFolder| - 1] != '/' ==>
      Slashed(joined) == Slashed(packageFolder) + "/lib/plugin" by {
      if packageFolder != [] && packageFolder[|packageFolder| - 1] != '/' {
        PluginPathShape(packageFolder);
      }
    }
    assert packageFolder == [] || packageFolder[|packageFolder| - 1] == '/' ==>
      Slashed(joined) == Slashed(packageFolder) + "lib/plugin" by {
      if packageFolder == [] || packageFolder[|packageFolder| - 1] == '/' {
        PluginPathAfterSlash(packageFolder);
      }
    }
    Slashed(joined)
  }

  /** Onto an empty folder or one ending in `/`, the join adds no separator of its own. */
  lemma PluginPathAfterSlash(packageFolder: string)
    requires packageFolder == [] || packageFolder[|packageFolder| - 1] == '/'
    ensures Slashed(Join(Join(packageFolder, "lib"), "plugin")) == Slashed(packageFolder) + "lib/plugin"
  {
    PluginJoinAfterSlash(packageFolder);
    SlashedAppend(packageFolder, "lib/plugin");
  }

  lemma PluginJoinAfterSlash(packageFolder: string)
    requires packageFolder == [] || packageFolder[|packageFolder| - 1] == '/'
    ensures Join(Join(packageFolder, "lib"), "plugin") == packageFolder + "lib/plugin"
  {
    var inner := Join(packageFolder, "lib");
    assert inner == packageFolder + "lib";
    assert inner[|inner| - 1] == 'b';
    assert inner + "/" + "plugin" == packageFolder + "lib/plugin";
  }

  lemma PluginPathShape(packageFolder: string)
    requires packageFolder != [] && packageFolder[|packageFolder| - 1] != '/'
    ensures Slashed(Join(Join(packageFolder, "lib"), "plugin")) == Slashed(packageFolder) + "/lib/plugin"
  {
    PluginPathJoined(packageFolder);
    PluginSuffixSlashed(packageFolder);
  }

  lemma PluginPathJoined(packageFolder: string)
    requires packageFolder != [] && packageFolder[|packageFolder| - 1] != '/'
    ensures Join(Join(packageFolder, "lib"), "plugin") == packageFolder + "/lib/plugin"
  {
    JoinTwice(packageFolder, "lib", "plugin");
    assert packageFolder + "/" + "lib" + "/" + "plugin" == packageFolder + "/lib/plugin";
  }

  lemma PluginSuffixSlashed(packageFolder: string)
    ensures Slashed(packageFolder + "/lib/plugin") == Slashed(packageFolder) + "/lib/plugin"
  {
    SlashedAppend(packageFolder, "/lib/plugin");
  }

  /** `runenv_info.prepend_path(name, value)`: `value` goes in front of what is already there. */
  function PrependPath(env: map<string, seq<string>>, name: string, value: string): (r: map<string, seq<string>>)
    ensures r.Keys == env.Keys + {name}
    ensures r[name] == [value] + (if name in env then env[name] else [])
    ensures forall k :: k in env && k != name ==> r[k] == env[k]
  {
    env[name := [value] + if name in env then env[name] else []]
  }

  // ---------------------------------------------------------------------
  // The recipe object
  // ---------------------------------------------------------------------

  /** The recipe's per-invocation state: what Conan's hooks read and update in place. */
  class Recipe {
    const settings: Settings
    const dependencies: map<string, DependencyInfo>
    const packageFolder: string
    var options: Options
    var requiredRefs: seq<string>
    /** The text of the upstream CMakeLists.txt in the source folder. */
    var cmakeLists: string
    var cppInfo: CppInfo
    var runEnvPaths: map<string, seq<string>>

    constructor (settings: Settings, options: Options, dependencies: map<string, DependencyInfo>,
                 packageFolder: string, cmakeLists: string)
      ensures this.settings == settings && this.options == options
      ensures this.dependencies == dependencies && this.packageFolder == packageFolder
      ensures this.cmakeLists == cmakeLists
      ensures requiredRefs == [] && cppInfo == DefaultCppInfo && runEnvPaths == map[]
    {
      this.settings := settings;
      this.options := options;
      this.dependencies := dependencies;
      this.packageFolder := packageFolder;
      this.cmakeLists := cmakeLists;
      requiredRefs := [];
      cppInfo := DefaultCppInfo;
      runEnvPaths := map[];
    }

    method ConfigOptions()
      modifies this`options
      ensures options == AfterConfigOptions(old(options), settings.os)
    {
      if settings.os == "Windows" {
        options := options.(fPIC := None);
      }
    }

    method Configure()
      modifies this`options
      ensures options == AfterConfigure(old(options))
      ensures options.shared ==> options.fPIC.None?
    {
      if options.shared {
        options := options.(fPIC := None);
      }
    }

    /** `self.requires(ref)`. */
    method Require(ref: string)
      modifies this`requiredRefs
      ensures requiredRefs == old(requiredRefs) + [ref]
    {
      requiredRefs := requiredRefs + [ref];
    }

    method Requirements()
      modifies this`requiredRefs
      ensures requiredRefs == old(requiredRefs) + RequiredReferences(options)
    {
      Require(ConnectorCRef);
      Require(ZlibRef);
      Require(ZstdRef);
      if options.withSsl == OpenSsl {
        Require(OpensslRef);
      }
    }

    /** The `tc.variables` part of `generate`, one entry at a time. */
    method Generate() returns (variables: map<CMakeVariable, CMakeValue>)
      ensures variables == BuildVariables(options)
    {
      variables := map[];
      variables := variables[UseSystemInstalledLib := Flag(true)];
      variables := variables[WithUnitTests := Flag(false)];
      variables := variables[BuildSharedLibs := Flag(options.shared)];
      variables := variables[MariadbLinkDynamic := Flag(false)];
      variables := variables[ConcWithUnitTests := Flag(false)];
      variables := variables[WithSsl := Str(SslName(options.withSsl))];
      variables := variables[WithExternalZlib := Flag(true)];
      variables := variables[InstallBindir := Str("bin")];
      variables := variables[InstallLibdir := Str("lib")];
      variables := variables[InstallPlugindir := Str(Slashed(Join("lib", "plugin")))];
    }

    /** `_patch_sources` on the text of CMakeLists.txt. */
    method PatchSources() returns (outcome: Outcome<ConfigError>)
      modifies this`cmakeLists
      ensures var dir := IncludeFolderDep(dependencies, ConnectorCName);
        if dir.None? then
          cmakeLists == old(cmakeLists) && outcome == Fail(DependencyResolutionFailure(ConnectorCName))
        else
          var p := ApplyEdits(old(cmakeLists), PatchPlan(options, dir.value));
          cmakeLists == p.text && outcome == p.outcome
    {
      var dir := IncludeFolderDep(dependencies, ConnectorCName);
      if dir.None? {
        return Fail(DependencyResolutionFailure(ConnectorCName));
      }
      ghost var plan := PatchPlan(options, dir.value);
      var patched := ReplaceInText(cmakeLists, IncludeAnchor, IncludeAnchor + ("\n" + IncludeLine(dir.value)));
      if patched.None? {
        return Fail(PatchAnchorNotFound(IncludeAnchor));
      }
      cmakeLists := patched.value;
      assert ApplyEdits(old(cmakeLists), plan) == ApplyEdits(cmakeLists, plan[1..]);
      if !options.shared {
        assert plan[1..] == [Edit(SharedDeclaration, StaticDeclaration)];
        assert plan[1..][1..] == [];
        patched := ReplaceInText(cmakeLists, SharedDeclaration, StaticDeclaration);
        if patched.None? {
          return Fail(PatchAnchorNotFound(SharedDeclaration));
        }
        cmakeLists := patched.value;
      }
      return Pass;
    }

    /** `package_info`; `collected` stands for the result of `collect_libs`. */
    method PackageInfo(collected: seq<string>)
      modifies this`cppInfo, this`runEnvPaths
      ensures cppInfo == PackageLayout(old(cppInfo), settings, collected)
      ensures runEnvPaths == PrependPath(old(runEnvPaths), "MARIADB_PLUGIN_DIR", PluginDir(packageFolder))
    {
      cppInfo := cppInfo.(properties := cppInfo.properties["pkg_config_name" := "libmariadbcpp"]);
      cppInfo := cppInfo.(includeDirs := cppInfo.includeDirs + [Join("include", "mariadb")]);
      cppInfo := cppInfo.(libDirs := if settings.buildType == "Debug" then ["lib64/debug", "lib/debug"] else ["lib64", "lib"]);
      cppInfo := cppInfo.(libs := collected);
      if settings.os in PosixSystems {
        cppInfo := cppInfo.(systemLibs := ["m", "resolv"]);
      }
      runEnvPaths := PrependPath(runEnvPaths, "MARIADB_PLUGIN_DIR", PluginDir(packageFolder));
    }
  }

  // ---------------------------------------------------------------------
  // Worked configurations
  // ---------------------------------------------------------------------

  /** A static OpenSSL build with gcc 11 on Linux. */
  lemma StaticOpensslOnLinuxGcc11(isMsvc: string -> bool, dir: string)
    requires !isMsvc("gcc")
    ensures var s := Settings("Linux", "gcc", [11], "Release");
      var o := NormalizedOptions(Options(false, Some(true), OpenSsl, true), s.os);
      Validate(s, isMsvc) == Pass &&
      OpensslRef in RequiredReferences(o) &&
      BuildVariables(o)[BuildSharedLibs] == Flag(false) &&
      Edit(SharedDeclaration, StaticDeclaration) in PatchPlan(o, dir) &&
      o.fPIC == Some(true)
  {
    assert !Less([11], [9]);
  }

  /** The same build made shared: no static rewrite and no `fPIC`. */
  lemma SharedOpensslOnLinuxGcc11(dir: string)
    ensures var o := NormalizedOptions(Options(true, Some(true), OpenSsl, true), "Linux");
      Edit(SharedDeclaration, StaticDeclaration) !in PatchPlan(o, dir) && o.fPIC.None?
  {
  }

  /** On Windows an old gcc is reported as too old, because the compiler is checked first. */
  lemma WindowsWithOldGcc(isMsvc: string -> bool)
    requires !isMsvc("gcc")
    ensures Validate(Settings("Windows", "gcc", [8], "Release"), isMsvc) == Fail(CompilerTooOld(MinCppStd))
    ensures Validate(Settings("Windows", "gcc", [11], "Release"), isMsvc) == Fail(UnsupportedPlatform)
  {
    assert Less([8], [9]);
    assert !Less([11], [9]);
  }
}
