/**
 * The resolver object (`Vcvars`): an in-memory environment map kept once a build succeeds,
 * and a disk cache holding one file per requested variable.
 */
module Resolver {

  import opened Wrappers
  import opened Errors
  import opened Text
  import opened EnvDump
  import opened Arch
  import opened Discovery

  /** `get`'s answer from a built map: the value under the uppercased name, or `VarNotFound`. */
  function Lookup(env: EnvMap, varName: string): (r: Result<string, VcvarsError>)
    ensures r.Err? <==> Upper(varName) !in env
    ensures r.Err? ==> r == Err(VarNotFound(varName))
    ensures r.Ok? ==> r.value == env[Upper(varName)]
  {
    if Upper(varName) in env then Ok(env[Upper(varName)]) else Err(VarNotFound(varName))
  }

  /** Names that differ only in letter case find the same value. */
  lemma LookupIgnoresCase(env: EnvMap, varName: string)
    ensures Lookup(env, Upper(varName)).Ok? == Lookup(env, varName).Ok?
    ensures Lookup(env, Lower(varName)).Ok? == Lookup(env, varName).Ok?
    ensures Lookup(env, varName).Ok? ==>
              Lookup(env, Upper(varName)) == Lookup(env, varName) == Lookup(env, Lower(varName))
  {
    UpperIdempotent(varName);
    UpperOfLower(varName);
  }

  /** A variable the script's dump sets, last at line `j`, is found under any spelling of its name. */
  lemma LookupFindsDumpedValue(lines: seq<string>, varName: string, j: nat)
    requires SeparatorIndex(Separator, lines) < j < |lines| && Defines(lines[j], Upper(varName))
    requires forall j' :: j < j' < |lines| ==> !Defines(lines[j'], Upper(varName))
    ensures Lookup(ParseEnv(Separator, lines), varName) == Ok(Entry(lines[j]).value.1)
  {
    ParseEnvValue(Separator, lines, Upper(varName), j);
  }

  /** `get`'s answer from the outcome of `ensure_env_map`: a build error is passed on. */
  function GetFrom(ensured: Result<EnvMap, VcvarsError>, varName: string): (r: Result<string, VcvarsError>)
    ensures ensured.Err? ==> r == Err(ensured.error)
    ensures ensured.Ok? ==> (r.Err? <==> Upper(varName) !in ensured.value)
    ensures ensured.Ok? && r.Err? ==> r == Err(VarNotFound(varName))
    ensures r.Ok? ==> ensured.Ok? && r.value == ensured.value[Upper(varName)]
  {
    match ensured
    case Err(e) => Err(e)
    case Ok(env) => Lookup(env, varName)
  }

  /** The directory holding the disk cache, under Cargo's output directory. */
  function CacheDir(outDir: string): string {
    Push(outDir, "vcvars-cache")
  }

  /** A variable's cache file, named by `filenamify` after the name as requested, not uppercased. */
  function CacheFile(outDir: string, filenamify: string -> string, varName: string): string {
    Push(CacheDir(outDir), filenamify(varName + ".txt"))
  }

  /** The directories and files on disk. */
  class FileStore {
    var dirs: set<string>
    var files: map<string, string>

    constructor (dirs: set<string>, files: map<string, string>)
      ensures this.dirs == dirs && this.files == files
    {
      this.dirs := dirs;
      this.files := files;
    }
  }

  /** Which disk operations of one `get_cached` call fail, and how. */
  datatype CacheFaults = CacheFaults(createDir: Option<IoError>, read: Option<IoError>, write: Option<IoError>)

  const NoFaults := CacheFaults(None, None, None)

  class Vcvars {
    /** The environment map, once built. */
    var envMap: Option<EnvMap>
    /** Arguments given to `vswhere.exe` instead of `-latest`. */
    var vswhereLatestSubstituteArgs: Option<seq<string>>
    /** How many times `make_env_map` ran on this object. */
    ghost var builds: nat
    /** How many of those runs succeeded. */
    ghost var successfulBuilds: nat

    /** At most one build succeeds, and the map is present exactly when one did. */
    ghost predicate Valid()
      reads this
    {
      && successfulBuilds <= 1
      && successfulBuilds <= builds
      && (envMap.Some? <==> successfulBuilds == 1)
    }

    /** `Vcvars::new`. */
    constructor ()
      ensures Valid()
      ensures envMap == None && vswhereLatestSubstituteArgs == None
      ensures builds == 0
    {
      envMap := None;
      vswhereLatestSubstituteArgs := None;
      builds := 0;
      successfulBuilds := 0;
    }

    /** `not_vswhere_latest_but`: select the installation with `substituteArgs` instead of `-latest`. */
    method NotVswhereLatestBut(substituteArgs: seq<string>)
      requires Valid()
      modifies this
      ensures Valid()
      ensures vswhereLatestSubstituteArgs == Some(substituteArgs)
      ensures envMap == old(envMap) && builds == old(builds) && successfulBuilds == old(successfulBuilds)
    {
      vswhereLatestSubstituteArgs := Some(substituteArgs);
    }

    /** `make_env_map`: one build, step by step; taking the substitute arguments is its only effect here. */
    method MakeEnvMap(host: Host) returns (r: Result<EnvMap, VcvarsError>)
      modifies this`vswhereLatestSubstituteArgs
      ensures r == Build(host, old(vswhereLatestSubstituteArgs)).result
      ensures vswhereLatestSubstituteArgs == Build(host, old(vswhereLatestSubstituteArgs)).substituteArgs
    {
      if host.programFilesX86.None? {
        return Err(MissingEnvVarDependency("PROGRAMFILES(X86)"));
      }
      if host.winDir.None? {
        return Err(MissingEnvVarDependency("WINDIR"));
      }
      if host.targetArch.None? {
        return Err(MissingEnvVarDependency("CARGO_CFG_TARGET_ARCH"));
      }
      var vswherePath := PushAll(host.programFilesX86.value, VswhereSubPath);
      if vswherePath !in host.regularFiles {
        return Err(FileNotFound(vswherePath));
      }

      var vswhereArgs := VswhereArgs(vswhereLatestSubstituteArgs);
      vswhereLatestSubstituteArgs := None;
      var found := host.spawn(Invocation(vswherePath, vswhereArgs));
      if found.Err? {
        return Err(CouldntRun(vswherePath, found.error));
      }
      var visualStudioDir := Trim(found.value.stdout);

      var vcvarsPath := PushAll(visualStudioDir, VcvarsSubPath);
      if vcvarsPath !in host.regularFiles {
        return Err(FileNotFound(vcvarsPath));
      }
      var archArg := ArchArg(host.hostArch, host.targetArch.value);
      if archArg.None? {
        return Err(UnsupportedArch);
      }

      var cmdPath := PushAll(host.winDir.value, CmdSubPath);
      var output := host.spawn(Invocation(cmdPath, CmdArgs(vcvarsPath, archArg.value)));
      if output.Err? {
        return Err(CouldntRun(cmdPath, output.error));
      }
      var stdout := output.value.stdout;
      var failure := CheckErrorMarker(stdout);
      if failure.Some? {
        return Err(failure.value);
      }
      var env := ParseEnvLines(Separator, Lines(stdout));
      return Ok(env);
    }

    /**
     * The state change of `ensure_env_map`: with a map present nothing changes; otherwise one
     * build runs, its map (if any) is kept, and a failure leaves the map absent for a retry.
     */
    twostate predicate EnsuredFrom(host: Host)
      reads this
    {
      if old(envMap).Some? then
        && envMap == old(envMap)
        && vswhereLatestSubstituteArgs == old(vswhereLatestSubstituteArgs)
        && builds == old(builds)
      else
        var b := Build(host, old(vswhereLatestSubstituteArgs));
        && builds == old(builds) + 1
        && vswhereLatestSubstituteArgs == b.substituteArgs
        && envMap == (if b.result.Ok? then Some(b.result.value) else None)
    }

    /** The map `ensure_env_map` hands back, given the state it started from. */
    twostate function Ensured(host: Host): Result<EnvMap, VcvarsError>
      reads this
    {
      if old(envMap).Some? then Ok(old(envMap).value) else Build(host, old(vswhereLatestSubstituteArgs)).result
    }

    /** `ensure_env_map`: build the map unless one is present. */
    method EnsureEnvMap(host: Host) returns (r: Result<EnvMap, VcvarsError>)
      requires Valid()
      modifies this
      ensures Valid()
      ensures EnsuredFrom(host)
      ensures r == Ensured(host)
      ensures r.Ok? ==> envMap == Some(r.value)
    {
      if envMap.None? {
        var built := MakeEnvMap(host);
        builds := builds + 1;
        if built.Err? {
          return Err(built.error);
        }
        envMap := Some(built.value);
        successfulBuilds := successfulBuilds + 1;
      }
      return Ok(envMap.value);
    }

    /** `get`: the value of `varName`, looked up in upper case, building the map if needed. */
    method Get(host: Host, varName: string) returns (r: Result<string, VcvarsError>)
      requires Valid()
      modifies this
      ensures Valid()
      ensures EnsuredFrom(host)
      ensures r == GetFrom(Ensured(host), varName)
    {
      var env := EnsureEnvMap(host);
      if env.Err? {
        return Err(env.error);
      }
      r := Lookup(env.value, varName);
    }

    /**
     * `get_cached`: the variable's cache file under `outDir` holds its value. A present file
     * is returned as it is, without building or consulting the map; on a miss the value is
     * obtained as `get` does and written to the file. A failed lookup writes nothing.
     */
    method GetCached(host: Host, store: FileStore, outDir: string, filenamify: string -> string,
                     faults: CacheFaults, varName: string)
      returns (r: Result<string, VcvarsError>)
      requires Valid()
      requires outDir in store.dirs
      modifies this, store
      ensures Valid()
      ensures faults.createDir.Some? ==>
                && r == Err(CacheFailed(CacheDir(outDir), faults.createDir.value))
                && store.dirs == old(store.dirs) && store.files == old(store.files)
                && unchanged(this)
      ensures faults.createDir.None? ==> store.dirs == old(store.dirs) + {CacheDir(outDir)}
      ensures var file := CacheFile(outDir, filenamify, varName);
              faults.createDir.None? && file in old(store.files) ==>
                && r == (if faults.read.Some? then Err(CacheFailed(file, faults.read.value))
                         else Ok(old(store.files)[file]))
                && store.files == old(store.files)
                && unchanged(this)
      ensures var file := CacheFile(outDir, filenamify, varName);
              faults.createDir.None? && file !in old(store.files) ==>
                && EnsuredFrom(host)
                && var got := GetFrom(Ensured(host), varName);
                && (got.Err? ==> r == got && store.files == old(store.files))
                && (got.Ok? && faults.write.Some? ==>
                      r == Err(CacheFailed(file, faults.write.value)) && store.files == old(store.files))
                && (got.Ok? && faults.write.None? ==>
                      r == got && store.files == old(store.files)[file := got.value])
    {
      var cacheDir := CacheDir(outDir);
      if faults.createDir.Some? {
        return Err(CacheFailed(cacheDir, faults.createDir.value));
      }
      store.dirs := store.dirs + {cacheDir};

      var cacheFile := Push(cacheDir, filenamify(varName + ".txt"));
      if cacheFile in store.files {
        if faults.read.Some? {
          return Err(CacheFailed(cacheFile, faults.read.value));
        }
        return Ok(store.files[cacheFile]);
      }

      var env := EnsureEnvMap(host);
      if env.Err? {
        return Err(env.error);
      }
      var found := Lookup(env.value, varName);
      if found.Err? {
        return Err(found.error);
      }
      var value := found.value;
      if faults.write.Some? {
        return Err(CacheFailed(cacheFile, faults.write.value));
      }
      store.files := store.files[cacheFile := value];
      return Ok(value);
    }
  }

  // ---------------------------------------------------------------------------
  // What callers observe

  /**
   * Two `get` calls on one object: the second is answered from the map the first built,
   * whatever the machine looks like by then, so the toolchain runs once.
   */
  method GetTwice(first: Host, later: Host, name1: string, name2: string)
    returns (r1: Result<string, VcvarsError>, r2: Result<string, VcvarsError>, ghost builds: nat)
    ensures r1 == GetFrom(Build(first, None).result, name1)
    ensures Build(first, None).result.Ok? ==> r2 == Lookup(Build(first, None).result.value, name2)
    ensures Build(first, None).result.Ok? ==> builds == 1
  {
    var vcvars := new Vcvars();
    r1 := vcvars.Get(first, name1);
    r2 := vcvars.Get(later, name2);
    builds := vcvars.builds;
  }

  /**
   * A value `get_cached` obtained on a cold cache is what a fresh object reads back from the
   * same cache directory, without building anything, whatever the machine looks like then.
   */
  method CachedValueOutlivesObject(first: Host, later: Host, outDir: string,
                                   filenamify: string -> string, varName: string)
    returns (r1: Result<string, VcvarsError>, r2: Result<string, VcvarsError>, ghost secondBuilds: nat)
    ensures r1 == GetFrom(Build(first, None).result, varName)
    ensures r1.Ok? ==> r2 == r1
    ensures r1.Ok? ==> secondBuilds == 0
  {
    var store := new FileStore({outDir}, map[]);
    var vcvars := new Vcvars();
    r1 := vcvars.GetCached(first, store, outDir, filenamify, NoFaults, varName);
    var second := new Vcvars();
    r2 := second.GetCached(later, store, outDir, filenamify, NoFaults, varName);
    secondBuilds := second.builds;
  }

  /**
   * A build that fails leaves the object ready to retry: the next `get` builds again, and if
   * the failed build had already run `vswhere.exe`, the retry selects with `-latest` because
   * the substitute arguments were taken by the first run.
   */
  method RetryAfterFailedBuild(first: Host, retry: Host, substituteArgs: seq<string>, varName: string)
    returns (r1: Result<string, VcvarsError>, r2: Result<string, VcvarsError>)
    ensures var b := Build(first, Some(substituteArgs));
            b.result.Err? ==> r1 == Err(b.result.error)
    ensures var b := Build(first, Some(substituteArgs));
            b.result.Err? ==> r2 == GetFrom(Build(retry, if b.spawned == [] then Some(substituteArgs) else None).result, varName)
  {
    var vcvars := new Vcvars();
    vcvars.NotVswhereLatestBut(substituteArgs);
    r1 := vcvars.Get(first, varName);
    BuildConsumesSubstitute(first, Some(substituteArgs));
    r2 := vcvars.Get(retry, varName);
  }
}
