# vcvars resolver, modelled in Dafny

This project models the `Vcvars` resolver of the `vcvars` Rust crate (`src/lib.rs`). The
resolver finds the Visual Studio installation with `vswhere.exe`. It runs `vcvarsall.bat` inside
`cmd.exe`, chained to print a separator line and then `set`. It parses that environment dump
into a map from uppercased variable names to values. It answers `get(name)` from that map,
which it keeps once a build succeeds. `get_cached(name)` goes through a per-variable cache
file under Cargo's `OUT_DIR` first.

Modules, one per part of the resolver:

- `Wrappers` (wrappers.dfy): `Option` and `Result`.
- `Errors` (errors.dfy): the `VcvarsError` variants, with I/O causes kept as descriptions.
- `Text` (text.dfy): the standard-library string operations the resolver uses. These are
  `starts_with`, `split_once`, `to_uppercase` (ASCII), `lines`, `trim`, and `intersperse` then
  `collect`.
- `EnvDump` (env_dump.dfy): the error-marker check and the parse of the dump. The parse is a
  specification function (`ParseEnv`) plus the imperative loop of the source
  (`ParseEnvLines`, with its `may_collect` flag), proved equal to it.
- `Arch` (arch.dfy): the (host, target) to architecture-token table.
- `CmdEscape` (cmd_escape.dfy): caret escaping of the script path for `cmd.exe`, and how
  `cmd.exe` reads carets back outside double quotes.
- `Discovery` (discovery.dfy): one run of `make_env_map` as a function (`Build`) of a `Host`
  value and the substitute `vswhere` arguments. `Host` holds the environment variables, the set
  of regular files, the host architecture, and `spawn`, the process oracle. `Build` returns
  the result, the substitute arguments left afterwards (`mem::take`), and the processes it
  spawned.
- `Resolver` (resolver.dfy): the `Vcvars` class. Its fields are `envMap` and
  `vswhereLatestSubstituteArgs`. Two ghost counters track builds: `builds` counts runs of
  `make_env_map`, and `successfulBuilds` counts the runs that succeeded. The module also has
  a `FileStore` class for the disk (directories and file contents), `get_cached`, and three
  caller scenarios taken from the crate's tests and doc comments.

Two consequences of the code worth stating:

- A failed build leaves `env_map` as `None`, so the next `get` or `get_cached` on the same
  object builds again (src/lib.rs:128-134).
- `make_env_map` takes the substitute `vswhere` arguments with `mem::take` as soon as
  `vswhere.exe` is about to run. A retry after a later failure therefore asks for `-latest`
  (`Discovery.RetryUsesLatest`, `Resolver.RetryAfterFailedBuild`).

## Model

| member | source | states |
|---|---|---|
| `Text.SplitOnce` | src/lib.rs:272 | no result exactly when the line has no `=`; otherwise the line is name, `=`, value, and the name has no `=` (the cut is at the first `=`) |
| `Text.Lines` | src/lib.rs:260 | no line of `str::lines` contains a line feed |
| `Text.LinesUnlines` | src/lib.rs:270 | splitting text written line by line (no `\n`, no trailing `\r` in a line) gives back exactly those lines |
| `Text.LinesCons` | src/lib.rs:260 | a plain line followed by a line feed is split off whole as the first line |
| `Text.LinesConsCrlf` | src/lib.rs:260 | a plain line ended by `\r\n`, as `cmd.exe` ends the lines of `set`, is split off whole, without the `\r` |
| `Text.UpperIdempotent` | src/lib.rs:273 | uppercasing an uppercased name changes nothing |
| `Text.UpperOfLower` | src/lib.rs:122 | lower-casing a name first does not change its uppercased form |
| `Text.Trim` | src/lib.rs:179 | the trimmed `vswhere` output is a contiguous part of it, only whitespace is removed on either side, and it neither starts nor ends with whitespace |
| `Text.JoinOmits` | src/lib.rs:260 | joining lines with a separator brings in no character that neither the lines nor the separator have |
| `EnvDump.CheckErrorMarker` | src/lib.rs:258-262 | a failure exactly when the output starts with `[ERROR:`; it is `VcvarsFailed` carrying the output's lines joined by the two characters backslash and `n`, and that message has no line feed |
| `EnvDump.ParseOutput` | src/lib.rs:258-282 | an error exactly when the output starts with the marker; otherwise the map parsed from the output's lines |
| `EnvDump.SeparatorIndex` | src/lib.rs:275-279 | the index of the first line that starts with the separator (prefix match): no earlier line does, and that line does (or there is none) |
| `EnvDump.ParseEnvLines` | src/lib.rs:264-282 | the source's loop (skip until the separator line, then insert each split line under its uppercased name) computes exactly `ParseEnv` |
| `EnvDump.SplitAtFirst` | src/lib.rs:272-273 | a line `name=value` with no `=` in `name` is cut there, even when `value` holds `=`, and contributes `(Upper(name), value)` |
| `EnvDump.Entry` | src/lib.rs:272-273 | a line contributes an entry exactly when it holds a `=`; the entry is the uppercased part before the first `=` with the rest as value (definition; cut fixed by `SplitAtFirst`) |
| `EnvDump.Collect` | src/lib.rs:270-274 | definition: the entries of the lines inserted in order into an empty map; its meaning is fixed by `CollectHasKey`, `CollectLastWins` and `CollectKeysUppercase` |
| `EnvDump.ParseEnv` | src/lib.rs:264-282 | definition: nothing before and including the first separator line, then `Collect` of the rest; its meaning is fixed by `ParseEnvHasKey`, `ParseEnvValue`, `ParseEnvSkipsPreamble` and `ParseEnvWithoutSeparator` |
| `EnvDump.CollectSnoc` | src/lib.rs:270-274 | collecting one more line inserts that line's entry into the map built so far |
| `EnvDump.CollectStep` | src/lib.rs:270-274 | one more step of the loop inserts the split line under its uppercased name, or leaves the map as it was when the line has no `=` |
| `EnvDump.CollectHasKey` | src/lib.rs:270-274 | a name is in the collected map exactly when some line defines it |
| `EnvDump.CollectLastWins` | src/lib.rs:273 | when several lines define a name, the last one gives its value |
| `EnvDump.CollectKeysUppercase` | src/lib.rs:273 | every name in the collected map is uppercase |
| `EnvDump.ParseEnvSkipsPreamble` | src/lib.rs:270-280 | lines up to and including the first separator line contribute nothing; the map is what the following lines define |
| `EnvDump.ParseEnvWithoutSeparator` | src/lib.rs:265-282 | with no separator line the map is empty (not an error) |
| `EnvDump.ParseEnvHasKey` | src/lib.rs:270-280 | the names of the parsed map are exactly those defined after the first separator line, and all are uppercase |
| `EnvDump.ParseEnvValue` | src/lib.rs:270-280 | a name's value is that of the last line after the separator that defines it |
| `EnvDump.ParseEnvTypicalDump` | src/lib.rs:265-282 | preamble, separator with a trailing space, `name=value` and a line without `=` give exactly `{Upper(name): value}` |
| `Arch.ArchArg` | src/lib.rs:206-223 | a token exists exactly for host in {x86, x86_64} and target in {x86, x86_64, arm, aarch64}; otherwise `UnsupportedArch` |
| `Arch.ArchArgInjective` | src/lib.rs:206-223 | distinct supported pairs get distinct tokens |
| `Arch.NativeTokens` | src/lib.rs:208-216 | same-architecture builds use the short tokens `x86` and `x64` |
| `CmdEscape.ReplaceChar` | src/lib.rs:231 | `str::replace` of one character: a string without that character is unchanged; that it works piecewise is `ReplaceCharAppend` |
| `CmdEscape.Escape` | src/lib.rs:231 | definition: the two `replace` passes in the source's order; its meaning is fixed by `EscapeCons`, `UnescapeEscape`, `EscapeHasNoBareAmpersand` and `EscapeKeepsPlainPath` |
| `CmdEscape.ReplaceCharAppend` | src/lib.rs:231 | `replace` of a char distributes over concatenation |
| `CmdEscape.EscapeCons` | src/lib.rs:231 | the two `replace` passes escape character by character: `^` becomes `^^`, `&` becomes `^&`, and the carets the second pass adds are not doubled |
| `CmdEscape.UnescapeEscape` | src/lib.rs:231 | reading the escaped path with `cmd.exe`'s caret rule outside double quotes gives back the path |
| `CmdEscape.EscapeHasNoBareAmpersand` | src/lib.rs:231 | no `&` of the escaped path is left unprotected by a caret, so none can separate commands |
| `CmdEscape.EscapeKeepsPlainPath` | src/lib.rs:231 | a path with neither `^` nor `&` is unchanged |
| `Discovery.VswhereArgs` | src/lib.rs:169-172 | `-prerelease`, then the substitute arguments or `-latest`, then `-property installationPath -utf8` |
| `Discovery.SubstituteReplacesLatest` | src/lib.rs:171 | `-latest` is passed exactly when no substitute is set or the substitute itself holds it |
| `Discovery.CmdArgs` | src/lib.rs:231-243 | definition: `/C`, the escaped script path, the token, `&&`, `echo.` with the separator line, `&&`, `set`; the token's place is stated by `CmdRunsWithToken` |
| `Discovery.EarlyError` | src/lib.rs:140-166 | definition: the first failing check in the source's order (`PROGRAMFILES(X86)`, `WINDIR`, `CARGO_CFG_TARGET_ARCH`, then the `vswhere.exe` file); `BuildConsumesSubstitute` states that nothing is spawned on these paths |
| `Discovery.AfterVswhere` | src/lib.rs:169-194 | definition: a spawn error of `vswhere.exe` is `CouldntRun` with its path, otherwise the trimmed output joined with `VC\Auxiliary\Build\vcvarsall.bat` goes on to `AtScript`; its meaning is fixed by `AfterVswhereShape` |
| `Discovery.AtScript` | src/lib.rs:196-231 | definition: a missing script is `FileNotFound`, then an unsupported pair is `UnsupportedArch`, otherwise `cmd.exe` runs; stated by `AfterVswhereShape` and `UnsupportedArchAfterVswhere` |
| `Discovery.RunCmd` | src/lib.rs:237-262 | definition: a spawn error of `cmd.exe` is `CouldntRun` with its path, otherwise the output goes to `ParseOutput` whatever the exit status; stated by `BuildSuccess` and `ExitStatusIgnored` |
| `Discovery.Build` | src/lib.rs:136-283 | definition of one run of `make_env_map`: result, the substitute arguments left, and the processes spawned; its meaning is fixed by `BuildConsumesSubstitute`, `UnsupportedArchAfterVswhere`, `CmdRunsWithToken`, `BuildSuccess` and `ExitStatusIgnored`, and `Vcvars.MakeEnvMap` is proved to compute it |
| `Discovery.AfterVswhereShape` | src/lib.rs:179-262 | after `vswhere.exe` at most `cmd.exe` is spawned, only for a supported pair and the located script; `UnsupportedArch` comes exactly from an unsupported pair once the script exists; a success ran `cmd.exe` and is the parse of its output |
| `Discovery.BuildConsumesSubstitute` | src/lib.rs:140-171 | at most two processes are spawned; before `vswhere.exe` runs nothing is spawned and the substitute stays; once it runs the substitute is taken and `vswhere.exe` is the first process, with the arguments built from it |
| `Discovery.RetryUsesLatest` | src/lib.rs:171 | a build run after one that reached `vswhere.exe` passes `-latest` |
| `Discovery.UnsupportedArchAfterVswhere` | src/lib.rs:196-223 | `UnsupportedArch` results exactly when `vswhere.exe` ran, the script was found, and the pair has no token; only `vswhere.exe` was spawned |
| `Discovery.CmdRunsWithToken` | src/lib.rs:206-244 | `cmd.exe` runs only for a supported pair, under `WINDIR\System32`, with that pair's token |
| `Discovery.BuildSuccess` | src/lib.rs:238-282 | a successful build ran both processes, the output had no error marker, and the map is the parse of that output with uppercase names |
| `Discovery.ExitStatusIgnored` | src/lib.rs:246-262 | processes that print the same text give the same build whatever their exit statuses |
| `Resolver.Lookup` | src/lib.rs:122-125 | an error exactly when the uppercased name is absent from the map, and then `VarNotFound` carrying the name as requested; otherwise the value stored under the uppercased name |
| `Resolver.GetFrom` | src/lib.rs:122-125 | a build error is passed on unchanged; with a map, an error exactly when the uppercased name is absent (then `VarNotFound` with the name as requested), otherwise its value |
| `Resolver.CacheDir` | src/lib.rs:80-82 | definition: `vcvars-cache` pushed onto `OUT_DIR`; `Vcvars.GetCached` states that it is the directory created |
| `Resolver.CacheFile` | src/lib.rs:90-91 | definition: `filenamify` of the name as requested plus `.txt`, pushed onto the cache directory; `Vcvars.GetCached` states that it is the file read or written |
| `Resolver.LookupIgnoresCase` | src/lib.rs:122 | the name, its uppercase and its lowercase find the same value, or all fail |
| `Resolver.LookupFindsDumpedValue` | src/lib.rs:122-125 | a variable the dump sets is found under any spelling of its name, with the value of its last defining line |
| `Resolver.Vcvars.constructor` | src/lib.rs:35-43 | a new object has no map, no substitute arguments and no builds |
| `Resolver.Vcvars.NotVswhereLatestBut` | src/lib.rs:45-59 | sets the substitute arguments and nothing else |
| `Resolver.Vcvars.MakeEnvMap` | src/lib.rs:136-283 | the step-by-step build returns `Build`'s result and leaves `Build`'s substitute arguments |
| `Resolver.Vcvars.EnsureEnvMap` | src/lib.rs:128-134 | with a map present, returns it with no build; otherwise one build runs, a success is kept, and a failure leaves the map absent for a retry; at most one build per object ever succeeds |
| `Resolver.Vcvars.Get` | src/lib.rs:116-126 | the build error, or the lookup of the uppercased name in the (possibly just built) map |
| `Resolver.Vcvars.GetCached` | src/lib.rs:61-114 | creates the cache directory or fails with `CacheFailed`; a present cache file is returned unchanged without building or touching the map; on a miss the value found as `get` finds it is written to the file named after the name as requested, and returned; lookup and build errors leave the files unchanged |
| `Resolver.GetTwice` | src/lib.rs:320-346 | the second `get` on an object is answered from the map the first built, whatever the machine looks like by then, and after a successful first build the toolchain ran once in all |
| `Resolver.CachedValueOutlivesObject` | src/lib.rs:348-381 | a value cached on a cold directory is what a fresh object then reads back, with no build of its own |
| `Resolver.RetryAfterFailedBuild` | src/lib.rs:128-134 | after a failed build the next `get` builds again, with `-latest` if `vswhere.exe` had run |

## Left out

- Spawning `vswhere.exe` and `cmd.exe` is the `Host.spawn` oracle. It maps a program and its
  arguments to an exit status and decoded standard output, or to a spawn error. Timing, hangs
  and the child's own behaviour are not modelled.
- UTF-8 decoding is not modelled: the panic on invalid `vswhere` output and the lossy
  decoding of the `cmd.exe` output. The model starts from decoded strings.
- `PROGRAMFILES(X86)`, `WINDIR`, `CARGO_CFG_TARGET_ARCH` and `env::consts::ARCH` are fields of
  `Host`. A variable with a non-Unicode value counts as unset, as it does for `env::var`.
- `Discovery.Push`: `PathBuf::push` is modelled for relative components only. A separator is
  added unless the base is empty or ends with one. The drive-relative case (`C:` + `x`) and
  absolute components are not modelled. `is_file` is membership in `Host.regularFiles`.
- `filenamify` is a parameter (`string -> string`) of `get_cached`. Names that it maps to
  the same file collide, as the source's own documentation warns.
- `Resolver.Vcvars.GetCached`: the `OUT_DIR` panic and assertion are the precondition that
  `outDir` is an existing directory. Disk failures are given as a `CacheFaults` value instead
  of happening nondeterministically.
- `Resolver.Vcvars.GetCached`: a failed `create_dir_all` or `fs::write` leaves the store
  unchanged. A real failure may leave intermediate directories or a truncated file. A
  successful `create_dir_all` records only the cache directory itself.
- `Resolver.Vcvars.GetCached`: a cache path that exists but is a directory is not modelled.
  Only files are in the store.
- `Text.Upper`: only ASCII letters are mapped. Rust's `to_uppercase` also maps other letters,
  some of them to several characters.
- `CmdEscape.Unescape` models how `cmd.exe` reads carets outside double quotes only. The
  quoting `Command::args` adds to an argument holding a space or tab, inside which a caret is
  literal, and the quote stripping of `cmd /C` are not modelled.
- `Text.UpperOfLower`, `Resolver.LookupIgnoresCase`: hold for the ASCII mapping only. With
  Rust's Unicode mapping a name such as U+212A KELVIN SIGN finds a different key than its
  lowercase form `k` (likewise U+2126 OHM SIGN and U+212B ANGSTROM SIGN).
- `CmdEscape.Escape`: `%` is not escaped, as in the source; a path with two `%` around the name
  of a set variable would be expanded by `cmd.exe`, and that expansion is not modelled.
- `Text.Lines` follows the current `str::lines`. A `\r` is removed only directly before a
  `\n`, and a final line ending does not start an empty line.
- The `thiserror` display messages are formatting only.
- `Cow` borrowing and lifetimes are not modelled. Values are copied strings.
- The crate's timing-based tests are stated as the scenarios `GetTwice` and
  `CachedValueOutlivesObject`, about results and build counts rather than elapsed time.
- Concurrency between processes sharing a cache directory is not modelled.
