/**
 * The validator: `validate` raises `ConanInvalidConfiguration` on the first
 * rule a configuration breaks; here the raise is the `Rejected` verdict.
 */
module Validation {
  import opened Wrappers
  import opened Config
  import opened Platform

  /** The rule that rejected a configuration, with the offending value. */
  datatype Rule =
    | UnsupportedOs(os: string)           // OS outside `valid_os`
    | UnsupportedArch(arch: string)       // arch outside `valid_arch`
    | MingwOnly(compiler: string)         // Windows with a compiler other than gcc

  datatype Verdict = Accepted | Rejected(rule: Rule)

  /** `validate`: the three checks in source order; the first failure wins. */
  function Validate(s: Settings): (r: Verdict)
    ensures r.Accepted? <==>
      s.os in ValidOs && s.arch in ValidArch && (s.os == "Windows" ==> s.compiler == "gcc")
    ensures r == Rejected(UnsupportedOs(s.os)) <==> s.os !in ValidOs
    ensures r == Rejected(UnsupportedArch(s.arch)) <==> s.os in ValidOs && s.arch !in ValidArch
    ensures r == Rejected(MingwOnly(s.compiler)) <==>
      s.os in ValidOs && s.arch in ValidArch && s.os == "Windows" && s.compiler != "gcc"
  {
    if s.os !in ValidOs then Rejected(UnsupportedOs(s.os))
    else if s.arch !in ValidArch then Rejected(UnsupportedArch(s.arch))
    else if s.os == "Windows" && s.compiler != "gcc" then Rejected(MingwOnly(s.compiler))
    else Accepted
  }

  /**
   * An accepted configuration always has a driver architecture, and its driver
   * OS is one of four names.
   */
  lemma AcceptedIsMapped(s: Settings)
    requires Validate(s).Accepted?
    ensures AvbuildArch(s).Some?
    ensures AvbuildOs(s) in {"mingw", "linux", "android", "macos"}
  {
    AvbuildOsNames(s);
  }

  /** An accepted Windows configuration is a MinGW build with the gcc toolchain. */
  lemma AcceptedWindowsIsMingw(s: Settings)
    requires Validate(s).Accepted? && s.os == "Windows"
    ensures IsMingw(s)
    ensures AvbuildOs(s) == "mingw"
    ensures AvbuildCompiler(s) == Some("gcc")
  {
  }

  /** The supported OS a driver OS name stands for. */
  function OsOfDriverName(name: string): Option<string>
  {
    if name == "mingw" then Some("Windows")
    else if name == "linux" then Some("Linux")
    else if name == "android" then Some("Android")
    else if name == "macos" then Some("Macos")
    else None
  }

  /** The driver OS name of an accepted configuration gives back its OS. */
  lemma AcceptedOsRoundTrip(s: Settings)
    requires Validate(s).Accepted?
    ensures OsOfDriverName(AvbuildOs(s)) == Some(s.os)
  {
    AvbuildOsNames(s);
    if s.os == "Windows" {
      AcceptedWindowsIsMingw(s);
    }
  }

  /** Two accepted configurations with the same driver OS name target the same OS. */
  lemma AcceptedOsInjective(s1: Settings, s2: Settings)
    requires Validate(s1).Accepted? && Validate(s2).Accepted?
    requires AvbuildOs(s1) == AvbuildOs(s2)
    ensures s1.os == s2.os
  {
    AcceptedOsRoundTrip(s1);
    AcceptedOsRoundTrip(s2);
  }

  /**
   * The validator does not look at the compiler outside Windows, so a
   * configuration it accepts can still have no toolchain name: Linux with
   * the `intel-cc` compiler is one.
   */
  lemma AcceptedWithoutToolchain()
    ensures var s := Settings("Linux", "x86_64", "intel-cc", None);
      Validate(s).Accepted? && AvbuildCompiler(s).None?
  {
  }
}
