# mariadb-connector-cpp Conan recipe, modelled in Dafny

This project models the configuration logic of the Conan recipe that packages
MariaDB Connector/C++ (`recipes/mariadb-connector-cpp/all/conanfile.py`), and
proves properties about that model. The recipe decides:

- which settings it rejects (`validate`);
- how it trims the `fPIC` option (`config_options`, `configure`);
- which packages it requires (`requirements`);
- which CMake variables it hands to the toolchain (`generate`);
- how it patches the upstream `CMakeLists.txt` (`_patch_sources`);
- how it describes the installed package to consumers (`package_info`).

Files:

- `results.dfy` (module `Results`) has `Option` and `Outcome`. They stand in
  for Python's `None` and for raised exceptions.
- `versions.dfy` (module `Versions`) has Conan's version ordering on numeric
  components. Components are compared from the left, and a missing component
  counts as 0.
- `text.dfy` (module `Text`) has the string operations the recipe calls:
  - `str.replace("\\", "/")`;
  - `str.find`;
  - `str.replace(search, rep)`, which replaces every non-overlapping
    occurrence from left to right;
  - Conan's strict `replace_in_file`, which raises when the search text is
    missing;
  - POSIX `os.path.join`.
- `recipe.dfy` (module `MariadbConnectorCpp`) has the recipe itself. Each
  decision is a pure function on small records. The class `Recipe` holds what
  the recipe object updates in place: its options, its requirement list, the
  text of `CMakeLists.txt`, its `cpp_info` and its `runenv_info`. Each of its
  methods is proved against the corresponding function.

Where the recipe's behaviour is easy to misread, the model follows the code:

- `validate` checks the compiler version before it refuses Windows. A Windows
  configuration whose compiler is too old therefore fails with
  `CompilerTooOld`, not `UnsupportedPlatform` (lemma `WindowsWithOldGcc`).
- The minimum-version check is skipped for every compiler that `is_msvc`
  claims. The minimum for those compilers comes from `check_min_vs`.
- The entries `generate` puts into `tc.variables` come only from `shared` and
  `with_ssl`. No entry of `tc.variables` comes from `with_curl` or `fPIC`, and
  neither the platform nor the dependency folders affect them (lemma
  `BuildVariablesMirrorOptions`). This is about `tc.variables` only: what
  Conan's `CMakeToolchain` itself writes when `tc.generate()` runs (for
  example the position-independent-code setting it derives from `fPIC`) is
  not part of this model.

## Model

| member | source | states |
|---|---|---|
| Text.Slashed | recipes/mariadb-connector-cpp/all/conanfile.py:80 | Normalising separators keeps the length, leaves no backslash, and changes nothing in a text without backslashes. |
| Text.SlashedSameUpToSeparators | recipes/mariadb-connector-cpp/all/conanfile.py:80 | The normalised path differs from the original only where a backslash became a slash. |
| Text.SlashedAppend | recipes/mariadb-connector-cpp/all/conanfile.py:146 | Normalising a concatenation equals concatenating the normalised parts. |
| Text.SlashedIdempotent | recipes/mariadb-connector-cpp/all/conanfile.py:104 | Normalising twice gives the same path as normalising once. |
| Text.Join | recipes/mariadb-connector-cpp/all/conanfile.py:141 | POSIX join has three cases. An absolute second part replaces the first. A relative second part is appended directly when the first part is empty or ends in `/`. Otherwise exactly one `/` is inserted between the two parts. |
| Text.JoinTwice | recipes/mariadb-connector-cpp/all/conanfile.py:146 | Joining two relative components onto a directory puts one `/` before each component. |
| Text.Find | recipes/mariadb-connector-cpp/all/conanfile.py:114-118 | Returns the first index where the search text occurs, with no occurrence before it, or -1 exactly when the text does not occur at all. |
| Text.ReplaceAll | recipes/mariadb-connector-cpp/all/conanfile.py:114-123 | `str.replace(search, rep)`, as used inside `replace_in_file`. Replacing a text by itself changes nothing, and a replacement of the same length keeps the length of the text. |
| Text.ReplaceFrom | recipes/mariadb-connector-cpp/all/conanfile.py:114-123 | The left-to-right scan of `str.replace` from a given index. Replacing by the search text itself copies the rest of the text, and a same-length replacement keeps the length of the rest. |
| Text.ReplaceFromAbsent | recipes/mariadb-connector-cpp/all/conanfile.py:114-118 | A replacement scan that meets no occurrence copies the rest of the text unchanged. |
| Text.ReplaceAllAbsent | recipes/mariadb-connector-cpp/all/conanfile.py:114-118 | Replacing a search text that does not occur leaves the text as it was. |
| Text.ReplaceFromAt | recipes/mariadb-connector-cpp/all/conanfile.py:114-118 | Up to the next occurrence, the text is kept as is. The occurrence becomes the replacement, and the scan resumes after it. |
| Text.ReplaceInText | recipes/mariadb-connector-cpp/all/conanfile.py:114-118 | Strict `replace_in_file` raises exactly when the search text is absent; otherwise it yields the replace-all result. |
| Text.ReplaceInTextAtFirst | recipes/mariadb-connector-cpp/all/conanfile.py:114-118 | A successful replacement keeps the text before the first occurrence, puts the replacement there, and continues replacing after it. |
| Text.ReplaceInTextAppends | recipes/mariadb-connector-cpp/all/conanfile.py:116-117 | Replacing `search` by `search + suffix` places `suffix` right after the first occurrence and keeps everything before it. |
| Text.PrefixThroughOccurrence | recipes/mariadb-connector-cpp/all/conanfile.py:116-117 | The text before an occurrence, followed by the occurrence, is the text up to the occurrence's end. |
| Versions.LessIsFirstDifference | recipes/mariadb-connector-cpp/all/conanfile.py:64 | `Version(a) < Version(b)` holds exactly when `a` is smaller at the first component where the two differ. |
| Versions.LessIrreflexive | recipes/mariadb-connector-cpp/all/conanfile.py:64 | No version is below itself. |
| Versions.LessTransitive | recipes/mariadb-connector-cpp/all/conanfile.py:64 | The version order is transitive. |
| Versions.LessSplits | recipes/mariadb-connector-cpp/all/conanfile.py:64 | When `a < c`, every version `b` satisfies `a < b` or `b < c`. |
| Versions.TrailingZeroIgnored | recipes/mariadb-connector-cpp/all/conanfile.py:64 | A trailing `.0` does not move a version in the order, on either side of the comparison. |
| Versions.Less | recipes/mariadb-connector-cpp/all/conanfile.py:64 | `Version(a) < Version(b)` on numeric components, compared from the left, with a missing component counting as 0. A version is never below an equal one. |
| MariadbConnectorCpp.SslNameInjective | recipes/mariadb-connector-cpp/all/conanfile.py:24 | Distinct `with_ssl` choices are rendered as distinct option values. |
| MariadbConnectorCpp.SslName | recipes/mariadb-connector-cpp/all/conanfile.py:100 | The value that `WITH_SSL` receives is `False`, `openssl`, `gnutls` or `schannel`, each exactly for its own `with_ssl` choice. |
| MariadbConnectorCpp.MinimumVersion | recipes/mariadb-connector-cpp/all/conanfile.py:38-45 | The table knows exactly Visual Studio, msvc, gcc and clang, with minimums 16, 192, 9 and 6. |
| MariadbConnectorCpp.Validate | recipes/mariadb-connector-cpp/all/conanfile.py:60-69 | Windows never passes. `CompilerTooOld` occurs exactly for a non-MSVC compiler in the table whose version is below its minimum. The only errors are `CompilerTooOld` and `UnsupportedPlatform`. The configuration passes exactly when the OS is not Windows and the compiler is MSVC, not in the table, or not below its minimum. |
| MariadbConnectorCpp.NewerCompilerStillValid | recipes/mariadb-connector-cpp/all/conanfile.py:62-65 | A configuration that validates still validates with any newer version of the same compiler. |
| MariadbConnectorCpp.ValidateGccClang | recipes/mariadb-connector-cpp/all/conanfile.py:62-65 | Off Windows, a non-MSVC gcc fails exactly below 9, and a non-MSVC clang fails exactly below 6. |
| MariadbConnectorCpp.WindowsWithOldGcc | recipes/mariadb-connector-cpp/all/conanfile.py:60-69 | On Windows, gcc 8 is reported as `CompilerTooOld`, while gcc 11 is reported as `UnsupportedPlatform`. |
| MariadbConnectorCpp.AfterConfigOptions | recipes/mariadb-connector-cpp/all/conanfile.py:71-73 | `fPIC` is gone exactly when the OS is Windows or it was already gone. A surviving `fPIC` keeps its value, and no other option changes. |
| MariadbConnectorCpp.AfterConfigure | recipes/mariadb-connector-cpp/all/conanfile.py:75-77 | `fPIC` is gone exactly when the build is shared or it was already gone. A surviving `fPIC` keeps its value, and no other option changes. |
| MariadbConnectorCpp.NormalizedOptions | recipes/mariadb-connector-cpp/all/conanfile.py:71-77 | After both hooks, `fPIC` is gone exactly for Windows, shared, or already-removed cases. A surviving `fPIC` keeps its value, and `shared`, `with_ssl` and `with_curl` are unchanged. |
| MariadbConnectorCpp.NormalizedOptionsIdempotent | recipes/mariadb-connector-cpp/all/conanfile.py:71-77 | Trimming the options twice gives the same result as trimming them once. |
| MariadbConnectorCpp.DefaultFpic | recipes/mariadb-connector-cpp/all/conanfile.py:27-32 | Starting from the defaults, `fPIC` survives, set to true, exactly for a static build off Windows. |
| MariadbConnectorCpp.RequiredReferences | recipes/mariadb-connector-cpp/all/conanfile.py:50-55 | The references are connector-c 3.3.3, the zlib range and zstd 1.5.5, in that order. The openssl range is added exactly when `with_ssl` is openssl, and nothing else is required. |
| MariadbConnectorCpp.RequirementsOnlyFollowSsl | recipes/mariadb-connector-cpp/all/conanfile.py:50-55 | Options that agree on `with_ssl` require the same packages. |
| MariadbConnectorCpp.InstallPluginDir | recipes/mariadb-connector-cpp/all/conanfile.py:104 | The plugin install directory is `lib/plugin`. |
| MariadbConnectorCpp.BuildVariables | recipes/mariadb-connector-cpp/all/conanfile.py:95-104 | The map sets exactly the ten variables `generate` assigns, each to its value. `BUILD_SHARED_LIBS` follows `shared`, and `WITH_SSL` is the `with_ssl` value. |
| MariadbConnectorCpp.BuildVariablesMirrorOptions | recipes/mariadb-connector-cpp/all/conanfile.py:95-104 | Two option sets produce the same variables exactly when they agree on `shared` and `with_ssl`. |
| MariadbConnectorCpp.VariableNamesDistinct | recipes/mariadb-connector-cpp/all/conanfile.py:95-104 | The ten variable keys have ten distinct CMake names, so no assignment to `tc.variables` overwrites another. |
| MariadbConnectorCpp.PackageFolderDep | recipes/mariadb-connector-cpp/all/conanfile.py:79-80 | Succeeds exactly for a known dependency, and returns its package folder with backslashes turned into slashes. |
| MariadbConnectorCpp.IncludeFolderDep | recipes/mariadb-connector-cpp/all/conanfile.py:82-83 | Succeeds exactly for a known dependency that has include directories, and returns the first one with slashes normalised. |
| MariadbConnectorCpp.LibFolderDep | recipes/mariadb-connector-cpp/all/conanfile.py:85-86 | Succeeds exactly for a known dependency that has library directories, and returns the first one with slashes normalised. |
| MariadbConnectorCpp.PatchPlan | recipes/mariadb-connector-cpp/all/conanfile.py:109-123 | The first edit is always the include injection after `INCLUDE(SetValueMacro)`. The SHARED-to-STATIC rewrite is present exactly for a static build. |
| MariadbConnectorCpp.IncludeLine | recipes/mariadb-connector-cpp/all/conanfile.py:117 | The injected line is `INCLUDE_DIRECTORIES(`, then the include folder, then `/mariadb)`. It contains a newline only when the folder does. |
| MariadbConnectorCpp.ApplyEdits | recipes/mariadb-connector-cpp/all/conanfile.py:114-123 | A failed run names the search text of one of the plan's edits. |
| MariadbConnectorCpp.IncludeLineFollowsAnchor | recipes/mariadb-connector-cpp/all/conanfile.py:114-118 | When the anchor is present, the patched text keeps everything up to and including the first anchor, followed by a newline and the `INCLUDE_DIRECTORIES(<dir>/mariadb)` line. |
| MariadbConnectorCpp.PatchFailsWithoutAnchor | recipes/mariadb-connector-cpp/all/conanfile.py:114-118 | Without the anchor, the patch fails with `PatchAnchorNotFound` and leaves the text unchanged. |
| MariadbConnectorCpp.ApplySingleEdit | recipes/mariadb-connector-cpp/all/conanfile.py:123 | A single strict edit either raises and changes nothing, or passes with the replaced text. |
| MariadbConnectorCpp.ApplyEditsAfterFirst | recipes/mariadb-connector-cpp/all/conanfile.py:114-123 | After a successful first edit, the rest of the plan runs on that edit's result. |
| MariadbConnectorCpp.SharedPatchOutcome | recipes/mariadb-connector-cpp/all/conanfile.py:114-122 | With the anchor present, a shared build passes with exactly the text of the include injection. |
| MariadbConnectorCpp.StaticPatchOutcome | recipes/mariadb-connector-cpp/all/conanfile.py:114-123 | With the anchor present, a static build applies the SHARED-to-STATIC rewrite to the injected text. It passes with the rewritten text, or fails with `PatchAnchorNotFound` naming the SHARED declaration and keeps the injected text.  |
| MariadbConnectorCpp.StaticOpensslOnLinuxGcc11 | recipes/mariadb-connector-cpp/all/conanfile.py:50-123 | On Linux with gcc 11, a static OpenSSL build validates, requires openssl, sets `BUILD_SHARED_LIBS` off, plans the static rewrite and keeps `fPIC` on. |
| MariadbConnectorCpp.SharedOpensslOnLinuxGcc11 | recipes/mariadb-connector-cpp/all/conanfile.py:75-123 | The shared variant plans no static rewrite and has no `fPIC`. |
| MariadbConnectorCpp.PackageLayout | recipes/mariadb-connector-cpp/all/conanfile.py:139-145 | `include/mariadb` is appended to the include dirs. The lib dirs are exactly `lib64/debug, lib/debug` for Debug and exactly `lib64, lib` otherwise. The libs are the collected ones. `m` and `resolv` are added on Linux, FreeBSD and Macos, and the system libs are otherwise untouched. `pkg_config_name` is set to `libmariadbcpp`, and other properties are kept. |
| MariadbConnectorCpp.PackageLayoutStable | recipes/mariadb-connector-cpp/all/conanfile.py:139-145 | Running `package_info` again gives the same lib dirs, libs, system libs and properties. |
| MariadbConnectorCpp.PluginDir | recipes/mariadb-connector-cpp/all/conanfile.py:146 | The plugin path contains no backslash. It is the normalised folder followed by `/lib/plugin` for a folder without a trailing slash, and followed by `lib/plugin` for an empty folder or one ending in `/`. |
| MariadbConnectorCpp.PluginPathShape | recipes/mariadb-connector-cpp/all/conanfile.py:146 | The normalised join of folder, `lib` and `plugin` is the normalised folder followed by `/lib/plugin`. |
| MariadbConnectorCpp.PluginPathJoined | recipes/mariadb-connector-cpp/all/conanfile.py:146 | Joining `lib` and `plugin` onto such a folder appends `/lib/plugin`. |
| MariadbConnectorCpp.PluginSuffixSlashed | recipes/mariadb-connector-cpp/all/conanfile.py:146 | Normalising leaves the `/lib/plugin` suffix as it is. |
| MariadbConnectorCpp.PluginPathAfterSlash | recipes/mariadb-connector-cpp/all/conanfile.py:146 | For an empty folder or one ending in `/`, the normalised plugin path is the normalised folder followed by `lib/plugin`. |
| MariadbConnectorCpp.PluginJoinAfterSlash | recipes/mariadb-connector-cpp/all/conanfile.py:146 | Joining `lib` and `plugin` onto such a folder appends `lib/plugin`, with no extra separator. |
| MariadbConnectorCpp.PrependPath | recipes/mariadb-connector-cpp/all/conanfile.py:147 | The value goes in front of the variable's existing entries, and every other variable is unchanged. |
| MariadbConnectorCpp.Recipe.constructor | recipes/mariadb-connector-cpp/all/conanfile.py:20-32 | A fresh recipe object holds the given settings, options, dependencies and source text, an empty requirement list, Conan's default cpp_info and an empty run environment. |
| MariadbConnectorCpp.Recipe.ConfigOptions | recipes/mariadb-connector-cpp/all/conanfile.py:71-73 | Updates the options in place to `AfterConfigOptions` of the old ones. |
| MariadbConnectorCpp.Recipe.Configure | recipes/mariadb-connector-cpp/all/conanfile.py:75-77 | Updates the options in place to `AfterConfigure` of the old ones. A shared build is left without `fPIC`. |
| MariadbConnectorCpp.Recipe.Require | recipes/mariadb-connector-cpp/all/conanfile.py:51 | `self.requires` appends one reference to the requirement list. |
| MariadbConnectorCpp.Recipe.Requirements | recipes/mariadb-connector-cpp/all/conanfile.py:50-55 | Appends exactly `RequiredReferences(options)` to the requirement list. |
| MariadbConnectorCpp.Recipe.Generate | recipes/mariadb-connector-cpp/all/conanfile.py:95-104 | Filling `tc.variables` entry by entry yields `BuildVariables(options)`. |
| MariadbConnectorCpp.Recipe.PatchSources | recipes/mariadb-connector-cpp/all/conanfile.py:109-123 | Without the connector-c include folder, it fails and leaves the text unchanged. Otherwise the new text and the outcome are those of `ApplyEdits` on the patch plan, so edits made before a failure stay applied. |
| MariadbConnectorCpp.Recipe.PackageInfo | recipes/mariadb-connector-cpp/all/conanfile.py:139-147 | `cpp_info` becomes `PackageLayout` of the old one. `MARIADB_PLUGIN_DIR` gets the plugin directory prepended. |

## Left out

- `layout`, `source`, `build` and `package`: fetching the sources, running CMake, copying the licence and deleting files are file-system and process I/O. They are not modelled. `_patch_sources` is modelled on the text of `CMakeLists.txt`; the file's path is not modelled.
- `generate` writes the CMakeDeps files and the toolchain, and it sets `presets_build_environment` from `VirtualBuildEnv` and the cache variable `CMAKE_POLICY_DEFAULT_CMP0042`. These are file output or external environment and are not modelled. Only `tc.variables` is modelled, as a map, so the order in which entries were inserted is not kept.
- Validate: `check_min_vs(self, 192)` is a Conan library call whose rules are not part of this model. A Pass from `Validate` therefore does not account for an MSVC version that `check_min_vs` would refuse.
- `is_msvc` is a parameter of `Validate`, a predicate on the compiler name, because its rules are not part of this model.
- `Version` covers numeric components only. Pre-release, build and alphabetic parts of Conan versions are not modelled.
- `collect_libs` reads the package folder. Its result is the parameter `collected` of `PackageLayout` and `Recipe.PackageInfo`.
- `os.path.join` is modelled with POSIX rules only. Windows drive letters and separators are not modelled; `replace("\\", "/")` is modelled separately.
- The error messages are not modelled beyond the error kind. `CompilerTooOld` carries the C++ standard "11" that the message names.
- The `arch` setting is declared but no logic reads it. It is not modelled.
- The metadata attributes (`name`, `license`, `url`, `homepage`, `description`, `topics`, `package_type`) are not modelled.
- The module-level `requird_conan_version` is misspelled, so Conan never enforces it as a minimum Conan version. The model does not include it.
- A missing dependency key, or an empty include or library list, raises `KeyError` or `IndexError` in Python. The model returns `None`, and `Recipe.PatchSources` reports it as `DependencyResolutionFailure`.
- `rm_safe("fPIC")` deletes the option. The model records a removed option as `None`.
