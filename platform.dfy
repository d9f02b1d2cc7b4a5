/**
 * The platform mapper: the names the avbuild driver uses for the target OS,
 * architecture and toolchain, derived from the Conan settings.
 */
module Platform {
  import opened Wrappers
  import opened Strings
  import opened Config

  /** `is_mingw`: a Windows target built with gcc. */
  predicate IsMingw(s: Settings)
  {
    s.os == "Windows" && s.compiler == "gcc"
  }

  /** The `arch` dictionary of `avbuild_arch`; two entries depend on the OS. */
  function ArchTable(os: string): map<string, string>
  {
    map[
      "x86" := "x86",
      "x86_64" := (if os == "Android" then "x86_64" else "amd64"),
      "armv8" := (if os == "Macos" then "arm64" else "armv8"),
      "armv7" := "armv7",
      "armv6" := "armv6"
    ]
  }

  /** `avbuild_arch`: `arch.get(...)`, `None` for an arch not in the table. */
  function AvbuildArch(s: Settings): (r: Option<string>)
    // the table's keys are exactly the architectures the validator accepts
    ensures r.Some? <==> s.arch in ValidArch
    // every architecture keeps its own name except 64-bit x86 off Android and 64-bit ARM on macOS
    ensures r.Some? ==>
      (r.value == s.arch <==> !((s.arch == "x86_64" && s.os != "Android") || (s.arch == "armv8" && s.os == "Macos")))
  {
    var table := ArchTable(s.os);
    if s.arch in table then Some(table[s.arch]) else None
  }

  /** `avbuild_os`: "mingw" for MinGW builds, otherwise the lower-cased OS name. */
  function AvbuildOs(s: Settings): string
  {
    if IsMingw(s) then "mingw" else Lower(s.os)
  }

  /** The `compiler` dictionary of `avbuild_compiler`. */
  const CompilerTable: map<string, string> := map["gcc" := "gcc", "clang" := "clang", "apple-clang" := "clang"]

  /** `avbuild_compiler`: the driver's toolchain name, `None` for any other compiler. */
  function AvbuildCompiler(s: Settings): (r: Option<string>)
    ensures r.Some? <==> s.compiler in {"gcc", "clang", "apple-clang"}
    ensures r == Some("gcc") <==> s.compiler == "gcc"
    ensures r == Some("clang") <==> s.compiler in {"clang", "apple-clang"}
  {
    if s.compiler in CompilerTable then Some(CompilerTable[s.compiler]) else None
  }

  /** The exact value of `avbuild_arch` for each supported architecture. */
  lemma ArchNames(s: Settings)
    ensures s.arch == "x86_64" ==> AvbuildArch(s) == Some(if s.os == "Android" then "x86_64" else "amd64")
    ensures s.arch == "armv8" ==> AvbuildArch(s) == Some(if s.os == "Macos" then "arm64" else "armv8")
    ensures s.arch in {"x86", "armv7", "armv6"} ==> AvbuildArch(s) == Some(s.arch)
    ensures s.arch !in {"x86_64", "x86", "armv6", "armv7", "armv8"} ==> AvbuildArch(s) == None
  {
  }

  /** On one OS, two architectures never share a driver name. */
  lemma ArchInjective(s1: Settings, s2: Settings)
    requires s1.os == s2.os
    requires AvbuildArch(s1).Some? && AvbuildArch(s1) == AvbuildArch(s2)
    ensures s1.arch == s2.arch
  {
  }

  /** The lower-cased OS names of the four supported systems. */
  lemma LowerValidOs()
    ensures Lower("Windows") == "windows" && Lower("Linux") == "linux"
    ensures Lower("Android") == "android" && Lower("Macos") == "macos"
  {
    assert Lower("Windows")[0] == 'w';
    assert Lower("Linux")[0] == 'l';
    assert Lower("Android")[0] == 'a';
    assert Lower("Macos")[0] == 'm';
  }

  /**
   * For a supported OS, `avbuild_os` is "mingw" exactly for MinGW builds and the
   * lower-cased OS name otherwise; for any OS it contains no upper-case letter.
   */
  lemma AvbuildOsNames(s: Settings)
    ensures forall i :: 0 <= i < |AvbuildOs(s)| ==> !IsUpper(AvbuildOs(s)[i])
    ensures IsMingw(s) ==> AvbuildOs(s) == "mingw"
    ensures s.os in ValidOs ==> (AvbuildOs(s) == "mingw" <==> IsMingw(s))
    ensures s.os == "Windows" && !IsMingw(s) ==> AvbuildOs(s) == "windows"
    ensures s.os == "Linux" ==> AvbuildOs(s) == "linux"
    ensures s.os == "Android" ==> AvbuildOs(s) == "android"
    ensures s.os == "Macos" ==> AvbuildOs(s) == "macos"
  {
    if IsMingw(s) {
      assert AvbuildOs(s) == "mingw";
    } else {
      LowerChars(s.os);
      if s.os in ValidOs {
        LowerValidOs();
      }
    }
  }
}
