/**
 * The flag assembler and the values `build` hands to the avbuild driver:
 * the `USE_TOOLCHAIN`, `FFSRC` and `USER_OPT` variables, the command line
 * with its two positional arguments, and the working directory.
 */
module Build {
  import opened Wrappers
  import opened Strings
  import opened Config
  import opened Platform
  import opened Validation
  import opened Paths

  /** The eight flags every build starts with, in order. */
  const Baseline: seq<string> := [
    "--disable-autodetect", "--disable-programs", "--disable-doc", "--disable-libdrm",
    "--disable-everything", "--disable-os2threads", "--enable-gpl", "--enable-version3"
  ]

  const DisableW32Threads := "--disable-w32threads"
  const DisablePthreads := "--disable-pthreads"

  /** The option list `build` assembles, as a value: the baseline and at most one threading flag. */
  function Options(s: Settings): seq<string>
  {
    Baseline +
      if IsMingw(s) && s.threads == Some("posix") then [DisableW32Threads]
      else if IsMingw(s) && s.threads == Some("win32") then [DisablePthreads]
      else []
  }

  /** The option list of `build`: the baseline literal, then the MinGW threading appends. */
  method AssembleOptions(s: Settings) returns (options: seq<string>)
    ensures options == Options(s)
  {
    options := Baseline;
    if IsMingw(s) {
      if s.threads == Some("posix") {
        options := options + [DisableW32Threads];
      }
      if s.threads == Some("win32") {
        options := options + [DisablePthreads];
      }
    }
  }

  /** The list always opens with exactly the baseline flags, and adds at most one more. */
  lemma OptionsBeginWithBaseline(s: Settings)
    ensures |Options(s)| == |Baseline| || |Options(s)| == |Baseline| + 1
    ensures Options(s)[..|Baseline|] == Baseline
  {
  }

  /**
   * Threading flags appear only for MinGW builds, after the baseline: posix
   * adds only `--disable-w32threads`, win32 only `--disable-pthreads`, any
   * other value nothing; a list never holds both.
   */
  lemma ThreadingFlags(s: Settings)
    ensures DisableW32Threads in Options(s) <==> IsMingw(s) && s.threads == Some("posix")
    ensures DisablePthreads in Options(s) <==> IsMingw(s) && s.threads == Some("win32")
    ensures !(DisableW32Threads in Options(s) && DisablePthreads in Options(s))
    ensures !IsMingw(s) ==> Options(s) == Baseline
    ensures IsMingw(s) && s.threads !in {Some("posix"), Some("win32")} ==> Options(s) == Baseline
    ensures forall i :: 0 <= i < |Baseline| ==> Options(s)[i] != DisableW32Threads && Options(s)[i] != DisablePthreads
  {
    assert DisableW32Threads !in Baseline;
    assert DisablePthreads !in Baseline;
  }

  /** Every option is one non-empty word without spaces. */
  lemma OptionsAreWords(s: Settings)
    ensures AreWords(Options(s), ' ')
    ensures forall k :: 0 <= k < |Options(s)| ==> Options(s)[k] != ""
  {
    var o := Options(s);
    forall k | 0 <= k < |o| ensures ' ' !in o[k] && o[k] != "" {
      assert o[k] in Baseline + [DisableW32Threads, DisablePthreads];
    }
  }

  /** `USER_OPT`: the options joined by single spaces. */
  function UserOpt(options: seq<string>): string
  {
    Join(options, ' ')
  }

  /** Splitting `USER_OPT` at its spaces gives back the option list, flag for flag. */
  lemma UserOptRoundTrip(s: Settings)
    ensures Split(UserOpt(Options(s)), ' ') == Options(s)
  {
    OptionsAreWords(s);
    SplitJoin(Options(s), ' ');
  }

  /** The command `self.run` executes: the script, then the driver OS and arch. */
  function DriverCommand(script: string, s: Settings): string
  {
    script + " " + AvbuildOs(s) + " " + PyStr(AvbuildArch(s))
  }

  /** A driver name is a single word that contains no dash either. */
  predicate Plain(name: string)
  {
    ' ' !in name && '-' !in name
  }

  /** Characters a POSIX shell treats specially somewhere in a word. */
  const ShellSpecial: set<char> := {
    ' ', '\t', '\n', '\'', '"', '\\', '$', '`', ';', '&', '|', '<', '>', '(', ')', '*', '?', '[', '#', '~'
  }

  /**
   * A word the shell passes on unchanged as one argument: non-empty, with no
   * whitespace, quote, escape, expansion, glob or operator character.
   */
  predicate ShellWord(w: string)
  {
    w != [] && forall i :: 0 <= i < |w| ==> w[i] !in ShellSpecial
  }

  /** In particular a shell word has no space, so splitting at spaces leaves it whole. */
  lemma ShellWordHasNoSpace(w: string)
    requires ShellWord(w)
    ensures ' ' !in w
  {
    assert forall i :: 0 <= i < |w| ==> w[i] != ' ';
  }

  /** A lower-case letter, a digit or an underscore. */
  predicate NameChar(c: char)
  {
    'a' <= c <= 'z' || '0' <= c <= '9' || c == '_'
  }

  /** A driver name, made only of lower-case letters, digits and underscores, is a shell word. */
  lemma NameIsShellWord(n: string)
    requires n in DriverOsNames + DriverArchNames
    ensures ShellWord(n)
  {
    assert forall i :: 0 <= i < |n| ==> NameChar(n[i]);
  }

  /** The driver OS names an accepted configuration can have. */
  const DriverOsNames: set<string> := {"mingw", "linux", "android", "macos"}

  /** The driver arch names an accepted configuration can have. */
  const DriverArchNames: set<string> := {"x86_64", "amd64", "x86", "arm64", "armv8", "armv7", "armv6"}

  lemma NamesArePlain()
    ensures forall n :: n in DriverOsNames ==> Plain(n) && ShellWord(n)
    ensures forall n :: n in DriverArchNames ==> Plain(n) && ShellWord(n)
  {
    forall n | n in DriverOsNames + DriverArchNames ensures ShellWord(n) {
      NameIsShellWord(n);
    }
    assert Plain("mingw") && Plain("linux") && Plain("android") && Plain("macos");
    assert Plain("x86_64") && Plain("amd64") && Plain("x86") && Plain("arm64");
    assert Plain("armv8") && Plain("armv7") && Plain("armv6");
  }

  /** An accepted configuration has a driver OS and arch, and both are plain shell words. */
  lemma AcceptedNames(s: Settings)
    requires Validate(s).Accepted?
    ensures AvbuildOs(s) in DriverOsNames && Plain(AvbuildOs(s)) && ShellWord(AvbuildOs(s))
    ensures AvbuildArch(s).Some? && AvbuildArch(s).value in DriverArchNames
    ensures Plain(AvbuildArch(s).value) && ShellWord(AvbuildArch(s).value)
  {
    AcceptedIsMapped(s);
    ArchNames(s);
    NamesArePlain();
  }

  /**
   * For an accepted configuration and a script path that is one shell word,
   * the command splits at its spaces into the script, the driver OS and the
   * driver arch, and the latter two are shell words as well, so a shell runs
   * the script with exactly these two positional arguments.
   */
  lemma DriverArguments(script: string, s: Settings)
    requires Validate(s).Accepted? && ShellWord(script)
    ensures Split(DriverCommand(script, s), ' ') == [script, AvbuildOs(s), AvbuildArch(s).value]
    ensures ShellWord(AvbuildOs(s)) && ShellWord(AvbuildArch(s).value)
  {
    ShellWordHasNoSpace(script);
    AcceptedNames(s);
    var words := [script, AvbuildOs(s), AvbuildArch(s).value];
    assert Join(words, ' ') == DriverCommand(script, s);
    SplitJoin(words, ' ');
  }

  /**
   * The command is not quoted, so a script path with one space (a build folder
   * such as "/my build") splits into four words. The shell takes the first,
   * the part of the path before the space, as the program to run, so the
   * driver script is not run at all.
   */
  lemma SpaceInScriptPath(head: string, tail: string, s: Settings)
    requires Validate(s).Accepted? && ShellWord(head) && ShellWord(tail)
    ensures Split(DriverCommand(head + " " + tail, s), ' ') == [head, tail, AvbuildOs(s), AvbuildArch(s).value]
  {
    ShellWordHasNoSpace(head);
    ShellWordHasNoSpace(tail);
    AcceptedNames(s);
    var os, arch := AvbuildOs(s), AvbuildArch(s).value;
    var words := [head, tail, os, arch];
    assert DriverCommand(head + " " + tail, s) == head + " " + tail + " " + os + " " + arch;
    FourWords(head, tail, os, arch);
  }

  /** Four words joined by spaces, written as the concatenation. */
  lemma FourWordsJoin(a: string, b: string, c: string, d: string)
    ensures Join([a, b, c, d], ' ') == a + " " + b + " " + c + " " + d
  {
    var words := [a, b, c, d];
    assert words[1..][1..] == [c, d];
    assert Join(words[1..], ' ') == b + " " + (c + " " + d);
  }

  /** Four space-free words joined by spaces split back into those words. */
  lemma FourWords(a: string, b: string, c: string, d: string)
    requires ' ' !in a && ' ' !in b && ' ' !in c && ' ' !in d
    ensures Split(a + " " + b + " " + c + " " + d, ' ') == [a, b, c, d]
  {
    FourWordsJoin(a, b, c, d);
    assert AreWords([a, b, c, d], ' ');
    SplitJoin([a, b, c, d], ' ');
  }

  /** A `USER_OPT` value that splits into the option list is the space-joined option list. */
  lemma UserOptDetermined(userOpt: string, s: Settings)
    requires Split(userOpt, ' ') == Options(s)
    ensures userOpt == UserOpt(Options(s))
  {
    JoinSplit(userOpt, ' ');
  }

  /** What `build` passes to the driver (the process itself is not modelled). */
  datatype DriverRun = DriverRun(
    useToolchain: Option<string>,  // USE_TOOLCHAIN
    ffsrc: string,                 // FFSRC
    userOpt: string,               // USER_OPT
    command: string,               // the command line given to `self.run`
    cwd: string                    // its working directory
  )

  /**
   * `build` after the checkout and patch: `sourceDir`, `script` and `avbuildDir`
   * are the `os.path.join` results for the ffmpeg sources, `avbuild.sh` and the
   * avbuild checkout.
   */
  method Build(s: Settings, sourceDir: string, script: string, avbuildDir: string) returns (run: DriverRun)
    ensures run.useToolchain == AvbuildCompiler(s)
    ensures run.ffsrc == AdjustPath(sourceDir) && '\\' !in run.ffsrc
    ensures Split(run.userOpt, ' ') == Options(s)
    ensures run.command == DriverCommand(AdjustPath(script), s)
    ensures run.cwd == AdjustPath(avbuildDir)
  {
    var options := AssembleOptions(s);
    UserOptRoundTrip(s);
    run := DriverRun(
      AvbuildCompiler(s),
      AdjustPath(sourceDir),
      UserOpt(options),
      DriverCommand(AdjustPath(script), s),
      AdjustPath(avbuildDir));
  }
}
