/** Choosing the initialization script's architecture argument. */
module Arch {

  import opened Wrappers

  /** Host architectures (Rust's `env::consts::ARCH`) the script can run on. */
  predicate SupportedHost(host: string) {
    host == "x86" || host == "x86_64"
  }

  /** Target architectures (Cargo's `CARGO_CFG_TARGET_ARCH`) the script can build for. */
  predicate SupportedTarget(target: string) {
    target == "x86" || target == "x86_64" || target == "arm" || target == "aarch64"
  }

  /**
   * The script's token for building on `host` for `target`; `None` stands for
   * `UnsupportedArch`.
   */
  function ArchArg(host: string, target: string): (r: Option<string>)
    ensures r.Some? <==> SupportedHost(host) && SupportedTarget(target)
  {
    if host == "x86" then
      if target == "x86" then Some("x86")
      else if target == "x86_64" then Some("x86_x64")
      else if target == "arm" then Some("x86_arm")
      else if target == "aarch64" then Some("x86_arm64")
      else None
    else if host == "x86_64" then
      if target == "x86" then Some("x64_x86")
      else if target == "x86_64" then Some("x64")
      else if target == "arm" then Some("x64_arm")
      else if target == "aarch64" then Some("x64_arm64")
      else None
    else None
  }

  /** Distinct supported pairs get distinct tokens, so the token determines the pair. */
  lemma ArchArgInjective(h1: string, t1: string, h2: string, t2: string)
    requires ArchArg(h1, t1).Some? && ArchArg(h1, t1) == ArchArg(h2, t2)
    ensures h1 == h2 && t1 == t2
  {
  }

  /** Building for the host's own architecture uses the short single-architecture token. */
  lemma NativeTokens()
    ensures ArchArg("x86", "x86") == Some("x86")
    ensures ArchArg("x86_64", "x86_64") == Some("x64")
  {
  }
}
