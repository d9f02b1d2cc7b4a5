# conan-ffmpeg recipe: configuration translation

This project models the decision logic of the Conan recipe `conanfile.py`
that builds FFmpeg through the external `avbuild.sh` driver. The recipe
translates Conan settings (target OS, arch, compiler and the compiler's
`threads` sub-setting) into the driver's own vocabulary, validates the
configuration, assembles the `USER_OPT` flag string, chooses tool
requirements, and names the `sdk-<os>-<arch>-<toolchain>` directory that is
packaged. Settings are kept as the strings Conan compares them with, so
values the recipe does not support are modelled too.

Modules, one per part of the recipe:

- `Config`: the settings record and the `valid_os` / `valid_arch` lists.
- `Platform`: `is_mingw`, `avbuild_arch`, `avbuild_os`, `avbuild_compiler`.
- `Validation`: `validate` as a function returning `Accepted` or the first
  rule that failed (the recipe raises `ConanInvalidConfiguration` there).
- `Paths`: `adjust_path`.
- `Build`: the option list of `build` (a method appending to a list, proved
  against the function `Options`), `USER_OPT`, the driver command line and
  the environment values handed to the driver.
- `Packaging`: the `out_dir` formula of `package`.
- `Requirements`: `build_requirements` as a class whose method appends to
  the recorded tool requirements and sets `win_bash`.
- `Strings`, `Wrappers`: Python's `str.lower`, `str.replace`, `" ".join`
  and `"%s" % None`, `Split` (splitting at every single space, as Python's
  `str.split(" ")` does), and the `Option` type for `None`. For words free
  of whitespace, quotes and other shell-special characters (`Build.ShellWord`)
  splitting at single spaces is also how a shell cuts a command line into
  arguments; the statements about the driver's arguments rely on that.

## Notes on the code

- `avbuild_arch` maps `armv8` to `arm64` only on macOS, so Android on
  `armv8` gets `armv8`. `armv6` is accepted by `validate` and mapped to
  itself.
- `validate` stops at the first failing rule.
- The recipe emits no component-disable or feature-include flags, no TLS
  flag, no Android API level and no `PKG_CONFIG_PATH`. The `disable_*`,
  `enable_*`, `with_*` and component options are declared but never read,
  and the recipe has no component metadata.

Two consequences of the code are stated as lemmas rather than hidden:

- `validate` looks at the compiler only on Windows, so Linux with the
  `intel-cc` compiler, for example, is accepted although `avbuild_compiler`
  is `None`. The driver then gets no toolchain name and `out_dir` ends in
  `-None` (`Validation.AcceptedWithoutToolchain`,
  `Packaging.OutDirWithoutToolchain`). The other `out_dir` properties hold
  for such configurations too.
- The driver command is built with `"%s %s %s"` and run through a shell
  without quoting. When the build folder's path contains a space, the
  command splits into extra words: with one space, four words instead of
  three (`Build.SpaceInScriptPath`). The shell then takes the part of the
  path before the space as the program to run, so the driver is not run at
  all. The statements about the driver's arguments assume a script path that
  is one shell word.

## Model

| member | source | states |
|---|---|---|
| `Platform.IsMingw` | conanfile.py:104-106 | (no contract of its own) MinGW means a Windows target built with gcc; its meaning is stated by `Platform.AvbuildOsNames` and `Validation.AcceptedWindowsIsMingw` |
| `Platform.AvbuildOs` | conanfile.py:119-123 | (no contract of its own) "mingw" for MinGW, otherwise the lower-cased OS; stated by `Platform.AvbuildOsNames` and `Validation.AcceptedOsRoundTrip` |
| `Platform.AvbuildArch` | conanfile.py:108-117 | an arch has a driver name exactly when it is in `valid_arch`, and it keeps its own name except x86_64 off Android and armv8 on macOS |
| `Platform.ArchNames` | conanfile.py:108-117 | x86_64 gives "x86_64" on Android and "amd64" elsewhere; armv8 gives "arm64" only on macOS and "armv8" elsewhere; x86, armv7 and armv6 map to themselves; anything else gives None |
| `Platform.ArchInjective` | conanfile.py:108-117 | on one OS, two architectures never share a driver arch name |
| `Platform.AvbuildCompiler` | conanfile.py:125-132 | a toolchain name exists exactly for gcc, clang and apple-clang; it is "gcc" exactly for gcc and "clang" exactly for clang and apple-clang |
| `Platform.AvbuildOsNames` | conanfile.py:104-123 | the driver OS name never contains an upper-case letter; MinGW (Windows with gcc) gives "mingw"; for a supported OS "mingw" occurs exactly for MinGW, and Linux, Android, macOS and non-gcc Windows give "linux", "android", "macos" and "windows" |
| `Validation.Validate` | conanfile.py:153-163 | accepts exactly a supported OS, a supported arch, and gcc when the OS is Windows; otherwise reports the first failing rule in order OS, arch, Windows compiler |
| `Validation.AcceptedIsMapped` | conanfile.py:108-161 | every accepted configuration has a driver arch, and its driver OS is one of mingw, linux, android, macos |
| `Validation.AcceptedWindowsIsMingw` | conanfile.py:104-163 | an accepted Windows configuration is MinGW, has driver OS "mingw" and toolchain "gcc" |
| `Validation.AcceptedOsRoundTrip` | conanfile.py:119-163 | the driver OS name of an accepted configuration maps back to its OS (mingw to Windows, linux, android, macos to Linux, Android, Macos) |
| `Validation.AcceptedOsInjective` | conanfile.py:119-163 | two accepted configurations with the same driver OS name have the same OS |
| `Validation.AcceptedWithoutToolchain` | conanfile.py:125-163 | an accepted configuration can lack a toolchain name: Linux, x86_64, intel-cc |
| `Paths.AdjustPath` | conanfile.py:138-139 | the result has the input's length, no backslash, a slash where the input had a backslash and the input's character everywhere else |
| `Paths.AdjustPathFixesClean` | conanfile.py:138-139 | a path without backslashes is unchanged |
| `Paths.AdjustPathIdempotent` | conanfile.py:138-139 | adjusting twice equals adjusting once |
| `Build.Options` | conanfile.py:183-188 | (no contract of its own) the option list as a value; its properties are the lemmas below |
| `Build.AssembleOptions` | conanfile.py:183-188 | the appended option list equals the baseline followed by the MinGW threading flag, if any |
| `Build.OptionsBeginWithBaseline` | conanfile.py:183-188 | the list starts with exactly the eight baseline flags in order and has at most one more |
| `Build.ThreadingFlags` | conanfile.py:184-188 | `--disable-w32threads` is present exactly for MinGW with posix threads, `--disable-pthreads` exactly for MinGW with win32 threads, never both, never inside the baseline; other builds get exactly the baseline |
| `Build.OptionsAreWords` | conanfile.py:183-188 | every option is a non-empty word without spaces |
| `Build.UserOptRoundTrip` | conanfile.py:183-190 | splitting `USER_OPT` at spaces gives back the option list |
| `Build.UserOpt` | conanfile.py:190 | (no contract of its own) `" ".join(options)`; stated by `Build.UserOptRoundTrip` and `Build.UserOptDetermined` |
| `Build.UserOptDetermined` | conanfile.py:183-190 | a string that splits at spaces into the option list is exactly the space-joined option list, so `USER_OPT` is fixed by its words |
| `Build.DriverCommand` | conanfile.py:195 | (no contract of its own) the `"%s %s %s"` command; stated by `Build.DriverArguments` and `Build.SpaceInScriptPath` |
| `Build.AcceptedNames` | conanfile.py:108-123 | an accepted configuration's driver OS and arch are among the known names, contain no space or dash, and are shell words |
| `Build.DriverArguments` | conanfile.py:194-195 | for an accepted configuration and a script path that is one shell word, the command line splits at its spaces into the script, the driver OS and the driver arch, all three shell words, so the driver gets exactly two positional arguments |
| `Build.Build` | conanfile.py:179-195 | `USE_TOOLCHAIN` is the toolchain name, `FFSRC` the adjusted source path without backslashes, `USER_OPT` splits back into the option list (which fixes it, by `Build.UserOptDetermined`), the command and working directory use adjusted paths |
| `Packaging.OutDir` | conanfile.py:197-198 | (no contract of its own) the `"sdk-%s-%s-%s"` name; stated by the lemmas below |
| `Packaging.ToolchainField` | conanfile.py:125-132 | the toolchain field is "gcc", "clang" or "None", has no dash, and equal fields mean equal `avbuild_compiler` results |
| `Build.SpaceInScriptPath` | conanfile.py:194-195 | for an accepted configuration, a script path "head tail" (head and tail shell words) makes the command split into four words: head, tail, driver OS, driver arch; the first, not the script, is the program run |
| `Packaging.SdkNameIsJoin` | conanfile.py:198 | the `sdk-%s-%s-%s` name is "sdk" and the three names joined by dashes |
| `Packaging.SdkNameFields` | conanfile.py:198 | the `sdk-%s-%s-%s` name of dash-free parts splits back into "sdk" and the three parts |
| `Packaging.OutDirFields` | conanfile.py:197-198 | for every accepted configuration, `out_dir` is "sdk", driver OS, driver arch and toolchain joined by dashes, the toolchain being "None" when there is none |
| `Packaging.OutDirMatchesDriver` | conanfile.py:194-198 | for every accepted configuration and a script path that is one shell word, the OS and arch fields of `out_dir` are the two positional arguments of the driver command |
| `Packaging.OutDirIdentifiesPlatform` | conanfile.py:197-198 | equal `out_dir` names of accepted configurations mean equal OS, equal arch and the same toolchain, or none for both |
| `Packaging.OutDirWithoutToolchain` | conanfile.py:197-198 | without a toolchain name `out_dir` ends in "-None" |
| `Requirements.SettingsBuild` | conanfile.py:134-136 | (no contract of its own) the build machine's settings, or the host's when there are none; used by `Requirements.Recipe.BuildRequirements` |
| `Requirements.ToolRequirements` | conanfile.py:144-151 | (no contract of its own) the requirements one call adds, in order; stated by `Requirements.RequirementDecisions` |
| `Requirements.RequirementDecisions` | conanfile.py:144-151 | nasm exactly for x86/x86_64 targets on Linux or Windows; msys2 exactly when building on Windows with no non-empty bash path conf; each at most once, nasm first |
| `Requirements.Recipe.ToolRequire` | conanfile.py:147-151 | one tool requirement is appended and nothing else changes |
| `Requirements.Recipe.BuildRequirements` | conanfile.py:144-151 | the decided requirements are appended to those recorded, and `win_bash` becomes true when the build machine runs Windows and is otherwise left as it was |

## Left out

- Reading `info.json` for the package metadata (conanfile.py:15-27): file input that feeds only descriptive attributes.
- `source()` (conanfile.py:141-142): the download of the FFmpeg sources.
- The git clone, checkout and `patch` in `build` (conanfile.py:170-174): external tools.
- Creating the empty `avbuild/config.sh` (conanfile.py:176-177): file output that happens before the driver runs; it is not modelled further.
- `generate`, `VirtualBuildEnv`, `Environment` and the spawning of `avbuild.sh` (conanfile.py:165-167, 179-181, 194-195): only the values handed over are modelled (`Build.DriverRun`), not the process or its exit status.
- `os.path.join`: its results are parameters of `Build.Build`.
- `copy` and `print` in `package` (conanfile.py:199-200): file-system output; only the `out_dir` name is modelled.
- The declared but unread options (conanfile.py:36-99) and the commented-out `DEC_OPT_MOBILE` line (conanfile.py:192).
- The text of the `ConanInvalidConfiguration` messages: a rejection carries the failed rule and the offending value instead.
- Shell quoting, whitespace other than the single space, and the shell's metacharacters (expansion, globbing, operators) are not modelled: `Strings.Split` cuts only at single spaces, and the lemmas about the driver's arguments require shell words, where the two agree.
- `Strings.Lower` lower-cases ASCII letters only, where Python's `str.lower` also handles other scripts; every OS name Conan defines is ASCII.
