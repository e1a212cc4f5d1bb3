/**
 * Building the environment map (`make_env_map`): read the ambient variables, locate and run
 * `vswhere.exe`, locate the initialization script, choose its architecture token, run it in
 * `cmd.exe` and read the dump. What the machine provides is a `Host` value.
 */
module Discovery {

  import opened Wrappers
  import opened Errors
  import opened Text
  import opened EnvDump
  import opened Arch
  import opened CmdEscape

  /** A child process to spawn: program path and arguments. */
  datatype Invocation = Invocation(program: string, args: seq<string>)

  /** What a finished child process left: its exit status and its decoded standard output. */
  datatype Output = Output(status: int, stdout: string)

  /** The machine as the resolver sees it during one build. */
  datatype Host = Host(
    /** `PROGRAMFILES(X86)`, if set. */
    programFilesX86: Option<string>,
    /** `WINDIR`, if set. */
    winDir: Option<string>,
    /** `CARGO_CFG_TARGET_ARCH`, if set. */
    targetArch: Option<string>,
    /** The architecture the resolver itself was compiled for. */
    hostArch: string,
    /** The paths that are regular files. */
    regularFiles: set<string>,
    /** Running a child process to completion, or the error that kept it from starting. */
    spawn: Invocation -> Result<Output, IoError>)

  /** `PathBuf::push` of a relative component. */
  function Push(base: string, part: string): string {
    if base == [] || base[|base| - 1] == '\\' || base[|base| - 1] == '/' then base + part
    else base + "\\" + part
  }

  function PushAll(base: string, parts: seq<string>): string
    decreases |parts|
  {
    if parts == [] then base else PushAll(Push(base, parts[0]), parts[1..])
  }

  const VswhereSubPath: seq<string> := ["Microsoft Visual Studio", "Installer", "vswhere.exe"]
  const VcvarsSubPath: seq<string> := ["VC", "Auxiliary", "Build", "vcvarsall.bat"]
  const CmdSubPath: seq<string> := ["System32", "cmd.exe"]

  /** The installation selector: the caller's substitute arguments, or `-latest`. */
  function Selector(substitute: Option<seq<string>>): seq<string> {
    if substitute.Some? then substitute.value else ["-latest"]
  }

  /**
   * The arguments given to `vswhere.exe`: pre-releases allowed, the selector, and a request
   * for the installation path in UTF-8.
   */
  function VswhereArgs(substitute: Option<seq<string>>): (args: seq<string>)
    ensures |args| == |Selector(substitute)| + 4
    ensures args[0] == "-prerelease"
    ensures args[1..|args| - 3] == Selector(substitute)
    ensures args[|args| - 3..] == ["-property", "installationPath", "-utf8"]
  {
    var args := ["-prerelease"] + Selector(substitute) + ["-property", "installationPath", "-utf8"];
    assert args[1..|args| - 3] == Selector(substitute);
    assert args[|args| - 3..] == ["-property", "installationPath", "-utf8"];
    args
  }

  /** Substitute arguments replace `-latest` wholesale instead of being added to it. */
  lemma SubstituteReplacesLatest(substitute: Option<seq<string>>)
    ensures "-latest" in VswhereArgs(substitute) <==> substitute.None? || "-latest" in substitute.value
  {
    var args := VswhereArgs(substitute);
    if "-latest" in args {
      var i :| 0 <= i < |args| && args[i] == "-latest";
      assert args[|args| - 3..][0] == args[|args| - 3];
      assert 1 <= i < |args| - 3;
      assert args[1..|args| - 3][i - 1] == "-latest";
    }
    if substitute.Some? && "-latest" in substitute.value {
      var i :| 0 <= i < |substitute.value| && substitute.value[i] == "-latest";
      assert args[1..|args| - 3][i] == args[i + 1];
    }
  }

  /**
   * The `cmd.exe` arguments: run the escaped script with the token, then (only if it
   * succeeded) print the separator line, then list the environment.
   */
  function CmdArgs(scriptPath: string, archArg: string): seq<string> {
    ["/C", Escape(scriptPath), archArg, "&&", "echo." + Separator, "&&", "set"]
  }

  /**
   * One run of `make_env_map`: its result, the substitute arguments left in the resolver
   * afterwards (taken once `vswhere.exe` is about to run), and the processes it spawned.
   */
  datatype BuildRun = BuildRun(
    result: Result<EnvMap, VcvarsError>,
    substituteArgs: Option<seq<string>>,
    spawned: seq<Invocation>)

  function VswherePath(host: Host): string
    requires host.programFilesX86.Some?
  {
    PushAll(host.programFilesX86.value, VswhereSubPath)
  }

  function CmdPath(host: Host): string
    requires host.winDir.Some?
  {
    PushAll(host.winDir.value, CmdSubPath)
  }

  /** Whether a build gets past its first four checks and starts `vswhere.exe`. */
  predicate StartsVswhere(host: Host) {
    && host.programFilesX86.Some? && host.winDir.Some? && host.targetArch.Some?
    && VswherePath(host) in host.regularFiles
  }

  /** The first of those checks that fails, in the source's order. */
  function EarlyError(host: Host): VcvarsError
    requires !StartsVswhere(host)
  {
    if host.programFilesX86.None? then MissingEnvVarDependency("PROGRAMFILES(X86)")
    else if host.winDir.None? then MissingEnvVarDependency("WINDIR")
    else if host.targetArch.None? then MissingEnvVarDependency("CARGO_CFG_TARGET_ARCH")
    else FileNotFound(VswherePath(host))
  }

  function VswhereRun(host: Host, substitute: Option<seq<string>>): Invocation
    requires host.programFilesX86.Some?
  {
    Invocation(VswherePath(host), VswhereArgs(substitute))
  }

  function CmdRun(host: Host, vcvarsPath: string, archArg: string): Invocation
    requires host.winDir.Some?
  {
    Invocation(CmdPath(host), CmdArgs(vcvarsPath, archArg))
  }

  /** The outcome of the part of a build after `vswhere.exe`, and what that part spawned. */
  datatype Rest = Rest(result: Result<EnvMap, VcvarsError>, spawned: seq<Invocation>)

  function Build(host: Host, substitute: Option<seq<string>>): BuildRun {
    if !StartsVswhere(host) then BuildRun(Err(EarlyError(host)), substitute, [])
    else
      var vswhere := VswhereRun(host, substitute);
      var rest := AfterVswhere(host, host.spawn(vswhere));
      BuildRun(rest.result, None, [vswhere] + rest.spawned)
  }

  /** What follows `vswhere.exe`, given how it ran. */
  function AfterVswhere(host: Host, found: Result<Output, IoError>): Rest
    requires StartsVswhere(host)
  {
    match found
    case Err(e) => Rest(Err(CouldntRun(VswherePath(host), e)), [])
    case Ok(out) => AtScript(host, PushAll(Trim(out.stdout), VcvarsSubPath))
  }

  /** What follows locating the initialization script at `vcvarsPath`. */
  function AtScript(host: Host, vcvarsPath: string): Rest
    requires StartsVswhere(host)
  {
    if vcvarsPath !in host.regularFiles then Rest(Err(FileNotFound(vcvarsPath)), [])
    else
      match ArchArg(host.hostArch, host.targetArch.value)
      case None => Rest(Err(UnsupportedArch), [])
      case Some(archArg) => RunCmd(host, CmdRun(host, vcvarsPath, archArg))
  }

  /** Running `cmd.exe` and reading its output. */
  function RunCmd(host: Host, cmd: Invocation): Rest {
    match host.spawn(cmd)
    case Err(e) => Rest(Err(CouldntRun(cmd.program, e)), [cmd])
    case Ok(out) => Rest(ParseOutput(out.stdout), [cmd])
  }

  /** The shape of what follows `vswhere.exe`: at most `cmd.exe` is spawned, and only with a token. */
  lemma AfterVswhereShape(host: Host, found: Result<Output, IoError>)
    requires StartsVswhere(host)
    ensures var rest := AfterVswhere(host, found);
            && |rest.spawned| <= 1
            && (rest.result == Err(UnsupportedArch) <==>
                  && found.Ok?
                  && PushAll(Trim(found.value.stdout), VcvarsSubPath) in host.regularFiles
                  && ArchArg(host.hostArch, host.targetArch.value).None?)
            && (rest.result == Err(UnsupportedArch) ==> rest.spawned == [])
            && (|rest.spawned| == 1 ==>
                  && found.Ok?
                  && ArchArg(host.hostArch, host.targetArch.value).Some?
                  && rest.spawned[0] == CmdRun(host, PushAll(Trim(found.value.stdout), VcvarsSubPath),
                                               ArchArg(host.hostArch, host.targetArch.value).value))
            && (rest.result.Ok? ==>
                  && |rest.spawned| == 1
                  && host.spawn(rest.spawned[0]).Ok?
                  && rest.result == ParseOutput(host.spawn(rest.spawned[0]).value.stdout))
  {
    if found.Ok? {
      var vcvarsPath := PushAll(Trim(found.value.stdout), VcvarsSubPath);
      if vcvarsPath in host.regularFiles && ArchArg(host.hostArch, host.targetArch.value).Some? {
        var cmd := CmdRun(host, vcvarsPath, ArchArg(host.hostArch, host.targetArch.value).value);
        assert AfterVswhere(host, found) == RunCmd(host, cmd);
        if host.spawn(cmd).Ok? {
          assert ParseOutput(host.spawn(cmd).value.stdout) != Err(UnsupportedArch);
        }
      }
    }
  }

  // ---------------------------------------------------------------------------
  // Properties of a build

  /**
   * `vswhere.exe` runs first, with the selector the resolver held, and that selector is
   * consumed by the run: afterwards the resolver holds none, whatever the outcome. Before
   * that point nothing is spawned and the selector stays.
   */
  lemma BuildConsumesSubstitute(host: Host, substitute: Option<seq<string>>)
    ensures var b := Build(host, substitute);
            && |b.spawned| <= 2
            && (b.spawned == [] <==> !StartsVswhere(host))
            && (b.spawned == [] ==> b.substituteArgs == substitute && b.result.Err?)
            && (b.spawned != [] ==> b.substituteArgs == None && b.spawned[0] == VswhereRun(host, substitute))
  {
    if StartsVswhere(host) {
      AfterVswhereShape(host, host.spawn(VswhereRun(host, substitute)));
    }
  }

  /** A retry after a build that got as far as `vswhere.exe` asks for the latest installation. */
  lemma RetryUsesLatest(first: Host, retry: Host, substitute: Option<seq<string>>)
    requires Build(first, substitute).spawned != []
    requires Build(retry, Build(first, substitute).substituteArgs).spawned != []
    ensures Build(retry, Build(first, substitute).substituteArgs).spawned[0].args
            == ["-prerelease", "-latest", "-property", "installationPath", "-utf8"]
  {
    var b1 := Build(first, substitute);
    BuildConsumesSubstitute(first, substitute);
    assert b1.substituteArgs == None;
    BuildConsumesSubstitute(retry, None);
    assert Selector(None) == ["-latest"];
    assert VswhereArgs(None) == ["-prerelease", "-latest", "-property", "installationPath", "-utf8"];
  }

  /**
   * The architecture pair is checked after `vswhere.exe` ran and the script was found, and
   * before `cmd.exe` runs: `UnsupportedArch` comes exactly from an unsupported pair at that
   * point, with only `vswhere.exe` spawned.
   */
  lemma UnsupportedArchAfterVswhere(host: Host, substitute: Option<seq<string>>)
    ensures Build(host, substitute).result == Err(UnsupportedArch) <==>
              && StartsVswhere(host)
              && var found := host.spawn(VswhereRun(host, substitute));
              && found.Ok?
              && PushAll(Trim(found.value.stdout), VcvarsSubPath) in host.regularFiles
              && ArchArg(host.hostArch, host.targetArch.value).None?
    ensures Build(host, substitute).result == Err(UnsupportedArch) ==>
              Build(host, substitute).spawned == [VswhereRun(host, substitute)]
  {
    if StartsVswhere(host) {
      AfterVswhereShape(host, host.spawn(VswhereRun(host, substitute)));
    }
  }

  /** `cmd.exe` is only ever run with the token of a supported pair. */
  lemma CmdRunsWithToken(host: Host, substitute: Option<seq<string>>)
    requires |Build(host, substitute).spawned| == 2
    ensures StartsVswhere(host)
    ensures ArchArg(host.hostArch, host.targetArch.value).Some?
    ensures host.spawn(VswhereRun(host, substitute)).Ok?
    ensures Build(host, substitute).spawned[1]
            == CmdRun(host, PushAll(Trim(host.spawn(VswhereRun(host, substitute)).value.stdout), VcvarsSubPath),
                      ArchArg(host.hostArch, host.targetArch.value).value)
    ensures Build(host, substitute).spawned[1].program == CmdPath(host)
    ensures Build(host, substitute).spawned[1].args[2] == ArchArg(host.hostArch, host.targetArch.value).value
  {
    assert StartsVswhere(host);
    var vswhere := VswhereRun(host, substitute);
    var found := host.spawn(vswhere);
    var rest := AfterVswhere(host, found);
    assert Build(host, substitute).spawned == [vswhere] + rest.spawned;
    AfterVswhereShape(host, found);
    assert Build(host, substitute).spawned[1] == rest.spawned[0];
  }

  /**
   * A build succeeds only when both processes ran and the script's output did not start with
   * the error marker; the map is then the parse of that output and every name in it is
   * uppercase.
   */
  lemma BuildSuccess(host: Host, substitute: Option<seq<string>>)
    requires Build(host, substitute).result.Ok?
    ensures var b := Build(host, substitute);
            && |b.spawned| == 2
            && host.spawn(b.spawned[1]).Ok?
            && !StartsWith(host.spawn(b.spawned[1]).value.stdout, ErrorMarker)
            && b.result.value == ParseEnv(Separator, Lines(host.spawn(b.spawned[1]).value.stdout))
            && forall key <- b.result.value :: Upper(key) == key
  {
    var b := Build(host, substitute);
    assert StartsVswhere(host);
    var found := host.spawn(VswhereRun(host, substitute));
    AfterVswhereShape(host, found);
    var cmd := AfterVswhere(host, found).spawned[0];
    assert b.spawned[1] == cmd;
    var lines := Lines(host.spawn(cmd).value.stdout);
    forall key <- b.result.value
      ensures Upper(key) == key
    {
      ParseEnvHasKey(Separator, lines, key);
    }
  }

  /** Two hosts whose processes print the same text, whatever their exit statuses. */
  ghost predicate SameOutputs(h1: Host, h2: Host) {
    forall inv: Invocation ::
      && h1.spawn(inv).Ok? == h2.spawn(inv).Ok?
      && (h1.spawn(inv).Ok? ==> h1.spawn(inv).value.stdout == h2.spawn(inv).value.stdout)
      && (h1.spawn(inv).Err? ==> h1.spawn(inv).error == h2.spawn(inv).error)
  }

  /** Exit statuses play no part: the initialization script reports success even when it fails. */
  lemma ExitStatusIgnored(h1: Host, h2: Host, substitute: Option<seq<string>>)
    requires h1.programFilesX86 == h2.programFilesX86 && h1.winDir == h2.winDir
    requires h1.targetArch == h2.targetArch && h1.hostArch == h2.hostArch
    requires h1.regularFiles == h2.regularFiles
    requires SameOutputs(h1, h2)
    ensures Build(h1, substitute) == Build(h2, substitute)
  {
    if StartsVswhere(h1) {
      var vswhere := VswhereRun(h1, substitute);
      assert vswhere == VswhereRun(h2, substitute);
      var f1, f2 := h1.spawn(vswhere), h2.spawn(vswhere);
      if f1.Ok? {
        var vcvarsPath := PushAll(Trim(f1.value.stdout), VcvarsSubPath);
        assert AfterVswhere(h1, f1) == AtScript(h1, vcvarsPath);
        assert AfterVswhere(h2, f2) == AtScript(h2, vcvarsPath);
        var arch := ArchArg(h1.hostArch, h1.targetArch.value);
        if vcvarsPath in h1.regularFiles && arch.Some? {
          var cmd := CmdRun(h1, vcvarsPath, arch.value);
          assert cmd == CmdRun(h2, vcvarsPath, arch.value);
          assert AtScript(h1, vcvarsPath) == RunCmd(h1, cmd);
          assert AtScript(h2, vcvarsPath) == RunCmd(h2, cmd);
          assert h1.spawn(cmd).Ok? == h2.spawn(cmd).Ok?;
        }
      }
    }
  }
}
