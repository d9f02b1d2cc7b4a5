/**
 * `build_requirements`: which tool packages the recipe requests and whether
 * it asks Conan to run the build through a Windows bash.
 */
module Requirements {
  import opened Wrappers
  import opened Config

  const Nasm := "nasm/2.16.01"
  const Msys2 := "msys2/cci.latest"

  /** `_settings_build`: the build machine's settings, or the host's when there are none. */
  function SettingsBuild(host: Settings, settingsBuild: Option<Settings>): Settings
  {
    settingsBuild.GetOr(host)
  }

  /** The `tools.microsoft.bash:path` conf is set to a non-empty path (Python truthiness). */
  predicate BashConfigured(bashPath: Option<string>)
  {
    bashPath.Some? && bashPath.value != ""
  }

  /** The requirements one `build_requirements` call adds, in the order it adds them. */
  function ToolRequirements(host: Settings, build: Settings, bashPath: Option<string>): seq<string>
  {
    (if (host.os == "Linux" || host.os == "Windows") && (host.arch == "x86" || host.arch == "x86_64")
     then [Nasm] else [])
    + (if build.os == "Windows" && !BashConfigured(bashPath) then [Msys2] else [])
  }

  /**
   * nasm is requested exactly for x86 and x86_64 targets on Linux and Windows;
   * msys2 exactly when building on Windows without a configured bash; each at
   * most once, nasm first.
   */
  lemma RequirementDecisions(host: Settings, build: Settings, bashPath: Option<string>)
    ensures var r := ToolRequirements(host, build, bashPath);
      && (Nasm in r <==> host.os in {"Linux", "Windows"} && host.arch in {"x86", "x86_64"})
      && (Msys2 in r <==> build.os == "Windows" && (bashPath.None? || bashPath.value == ""))
      && (r == [] || r == [Nasm] || r == [Msys2] || r == [Nasm, Msys2])
  {
    assert Nasm != Msys2;
  }

  /** The recipe object's state that `build_requirements` changes. */
  class Recipe {
    var toolRequires: seq<string>   // the `self.tool_requires(...)` calls so far
    var winBash: bool               // `self.win_bash` (unset reads as false)

    constructor ()
      ensures toolRequires == [] && !winBash
    {
      toolRequires := [];
      winBash := false;
    }

    /** `self.tool_requires(ref)`: records one tool requirement. */
    method ToolRequire(ref: string)
      modifies this
      ensures toolRequires == old(toolRequires) + [ref]
      ensures winBash == old(winBash)
    {
      toolRequires := toolRequires + [ref];
    }

    /**
     * `build_requirements`: appends the decided requirements and sets `win_bash`
     * when the build machine runs Windows; `win_bash` is never cleared.
     */
    method BuildRequirements(host: Settings, settingsBuild: Option<Settings>, bashPath: Option<string>)
      modifies this
      ensures toolRequires == old(toolRequires) + ToolRequirements(host, SettingsBuild(host, settingsBuild), bashPath)
      ensures winBash == (old(winBash) || SettingsBuild(host, settingsBuild).os == "Windows")
    {
      if host.os == "Linux" || host.os == "Windows" {
        if host.arch == "x86" || host.arch == "x86_64" {
          ToolRequire(Nasm);
        }
      }
      var build := SettingsBuild(host, settingsBuild);
      if build.os == "Windows" {
        winBash := true;
        if !BashConfigured(bashPath) {
          ToolRequire(Msys2);
        }
      }
    }
  }
}
