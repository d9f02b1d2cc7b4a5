/**
 * The host settings the recipe reads. Conan compares settings with plain
 * string equality, so each is kept as the string it renders to.
 */
module Config {
  import opened Wrappers

  /** `self.settings`: the target OS, arch, compiler and the compiler's `threads` sub-setting. */
  datatype Settings = Settings(os: string, arch: string, compiler: string, threads: Option<string>)

  /** `valid_os` in `validate`. */
  const ValidOs: seq<string> := ["Windows", "Linux", "Android", "Macos"]

  /** `valid_arch` in `validate`. */
  const ValidArch: seq<string> := ["x86_64", "x86", "armv6", "armv7", "armv8"]
}
