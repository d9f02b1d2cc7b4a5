/** `package`: the name of the driver's output directory that becomes the package. */
module Packaging {
  import opened Strings
  import opened Config
  import opened Platform
  import opened Validation
  import opened Build

  /** `out_dir`: `"sdk-%s-%s-%s"` of the driver OS, arch and toolchain (`None` prints as "None"). */
  function OutDir(s: Settings): string
  {
    "sdk-" + AvbuildOs(s) + "-" + PyStr(AvbuildArch(s)) + "-" + PyStr(AvbuildCompiler(s))
  }

  /** The `"sdk-%s-%s-%s"` formula is the dash-join of "sdk" and the three names. */
  lemma SdkNameIsJoin(os: string, arch: string, toolchain: string)
    ensures Join(["sdk", os, arch, toolchain], '-') == "sdk-" + os + "-" + arch + "-" + toolchain
  {
    var fields := ["sdk", os, arch, toolchain];
    assert fields[1..][1..] == [arch, toolchain];
    assert Join(fields[1..], '-') == os + "-" + (arch + "-" + toolchain);
    assert "sdk-" == "sdk" + "-";
  }

  /** The `"sdk-%s-%s-%s"` formula on plain names splits back into its four fields. */
  lemma SdkNameFields(os: string, arch: string, toolchain: string)
    requires Plain(os) && Plain(arch) && Plain(toolchain)
    ensures Split("sdk-" + os + "-" + arch + "-" + toolchain, '-') == ["sdk", os, arch, toolchain]
  {
    SdkNameIsJoin(os, arch, toolchain);
    assert AreWords(["sdk", os, arch, toolchain], '-') by {
      assert '-' !in "sdk";
    }
    SplitJoin(["sdk", os, arch, toolchain], '-');
  }

  /**
   * The toolchain field of `out_dir` is "gcc", "clang" or "None": a plain word
   * from which the toolchain, or its absence, can be read back.
   */
  lemma ToolchainField(s1: Settings, s2: Settings)
    ensures PyStr(AvbuildCompiler(s1)) in {"gcc", "clang", "None"}
    ensures Plain(PyStr(AvbuildCompiler(s1)))
    ensures PyStr(AvbuildCompiler(s1)) == PyStr(AvbuildCompiler(s2)) ==> AvbuildCompiler(s1) == AvbuildCompiler(s2)
  {
    assert Plain("gcc") && Plain("clang") && Plain("None");
  }

  /**
   * For an accepted configuration, `out_dir` is four dash-separated fields:
   * "sdk", the driver OS, the driver arch and the toolchain ("None" without one).
   */
  lemma OutDirFields(s: Settings)
    requires Validate(s).Accepted?
    ensures Split(OutDir(s), '-') == ["sdk", AvbuildOs(s), AvbuildArch(s).value, PyStr(AvbuildCompiler(s))]
  {
    AcceptedNames(s);
    ToolchainField(s, s);
    SdkNameFields(AvbuildOs(s), AvbuildArch(s).value, PyStr(AvbuildCompiler(s)));
  }

  /**
   * For a script path that is one shell word, the OS and arch in `out_dir` are
   * the same names the driver was given as its two positional arguments.
   */
  lemma OutDirMatchesDriver(script: string, s: Settings)
    requires Validate(s).Accepted? && ShellWord(script)
    ensures var dir, argv := Split(OutDir(s), '-'), Split(DriverCommand(script, s), ' ');
      |dir| == 4 && |argv| == 3 && dir[1] == argv[1] && dir[2] == argv[2]
  {
    OutDirFields(s);
    DriverArguments(script, s);
  }

  /**
   * Distinct accepted platforms get distinct output directories: equal
   * `out_dir` names mean equal OS, equal arch and the same toolchain (or none).
   */
  lemma OutDirIdentifiesPlatform(s1: Settings, s2: Settings)
    requires Validate(s1).Accepted? && Validate(s2).Accepted?
    requires OutDir(s1) == OutDir(s2)
    ensures s1.os == s2.os && s1.arch == s2.arch
    ensures AvbuildCompiler(s1) == AvbuildCompiler(s2)
  {
    OutDirFields(s1);
    OutDirFields(s2);
    var f1, f2 := Split(OutDir(s1), '-'), Split(OutDir(s2), '-');
    assert f1 == f2;
    assert AvbuildOs(s1) == f1[1] == AvbuildOs(s2);
    AcceptedOsInjective(s1, s2);
    assert AvbuildArch(s1).value == f1[2] == AvbuildArch(s2).value;
    ArchInjective(s1, s2);
    assert PyStr(AvbuildCompiler(s1)) == f1[3] == PyStr(AvbuildCompiler(s2));
    ToolchainField(s1, s2);
  }

  /** Without a toolchain name, `out_dir` ends in "-None". */
  lemma OutDirWithoutToolchain(s: Settings)
    requires AvbuildCompiler(s).None?
    ensures |OutDir(s)| >= 5 && OutDir(s)[|OutDir(s)| - 5..] == "-None"
  {
  }
}
