# WASIX environment builder and console boot command, in Dafny

This project models two parts of the WASIX runtime of Wasmer and proves
properties of the model.

**`WasiEnvBuilder` and `build_init`** (`lib/wasix/src/state/builder.rs`). The
builder is a mutable staging object. It collects the following, by ordered
appends and overwrites:
- program arguments;
- `(key, value)` environment pairs;
- preopened host directories and virtual preopen paths;
- stdio overrides and a root-filesystem selection (a `Sandbox` or a `Backing` filesystem);
- a setup callback, a runtime, packages, a command map and capabilities.

`build_init` first validates everything:
- no argument may hold a nul byte;
- no environment key may hold a nul or `=` byte;
- no environment value may hold a nul byte.

Only after that does it assemble a `WasiEnvInit`. It asks the filesystem
collaborator for a `WasiFs`, binds stdin and any stdout and stderr overrides,
and runs the setup callback. It turns each pair into a `key=value` string and
fills every other field, some of them with fixed values.

`PreopenDirBuilder` records a directory, an optional alias (stored without
leading `/`) and the read, write and create flags. Setting create also sets
write. Its `build` rejects a preopen with no permission, with no path, or
whose alias holds a nul byte. `wasi_exit_code` normalises a run result: an
explicit exit with a success code counts as success.

**`Console`** (`lib/wasix/src/os/console/mod.rs`) is a staging object for a
terminal session. It holds a boot command, a set of used packages and
presentation settings. Its `run` does four things:
- splits the boot command into a package id, a program name and arguments;
- configures a `WasiEnvBuilder` from them;
- checks that a memory limiter is only applied to a sandbox root;
- chooses the size of the welcome banner.

Layout:

| file | module | models |
|---|---|---|
| `wasix_types.dfy` | `WasixTypes` | bytes, `Option`, `Result`, the "first position where" search behind `find_map`, the byte scans of `build_init` and `split_once` |
| `state_errors.dfy` | `StateErrors` | `WasiStateCreationError`, with structured reasons in place of message strings |
| `preopen.dfy` | `Preopen` | `PreopenDirBuilder` as a class, `validate_mapped_dir_alias`, `build` |
| `env_validation.dfy` | `EnvValidation` | the validation pass of `build_init` and the `key=value` strings |
| `env_builder.dfy` | `EnvBuilder` | `WasiEnvBuilder` as a class, the assembly of `build_init`, the filesystem collaborator |
| `exit_code.dfy` | `ExitCodes` | `wasi_exit_code` |
| `console.dfy` | `OsConsole` | `Console` as a class, the boot-command split, the limiter check, the welcome choice |

Modelling choices:
- **Text as bytes.** Strings, paths, arguments and environment keys and values are byte sequences (`Bytes`).
- **Errors.** Error messages are replaced by the value they name: the offending key, value, argument or alias.
- **Mutable objects.** The Rust builders update fields in place, so each becomes a Dafny `class`. Its setters state the whole new state as an update of a value snapshot (`Snapshot()`, `Config()`, `State()`). The consuming setter (`env`, `arg`, `fs`, …) and its `&mut` twin (`add_env`, `add_arg`, `set_fs`, …) change the same field in the same way, so each pair is one method. The model does not capture that the consuming forms, and `build_init`, take the builder by value (see "## Left out").
- **The filesystem collaborator.** The collaborator of `build_init` is a `Host` value. It holds:
  - `WasiFs::new_with_preopen` and `swap_file`, as total functions that may fail;
  - the identity of a fresh `TmpFileSystem`;
  - the 32-byte random secret;
  - the default runtime.
- **`build_init`.** It is specified by the function `BuildInitSpec`. The method `WasiEnvBuilder.BuildInit` keeps the source's loops with early returns, and is proved equal to `BuildInitSpec`.

## Model

| member | source | states |
|---|---|---|
| `Preopen.ValidateMappedDirAlias` | lib/wasix/src/state/builder.rs:118-126 | An alias is accepted exactly when it has no nul byte; otherwise the error names the alias |
| `Preopen.TrimLeadingSlashes` | lib/wasix/src/state/builder.rs:1025-1032 | The result is a suffix of the input, everything removed is `/`, and the result does not start with `/` |
| `Preopen.TrimLeadingSlashesUnique` | lib/wasix/src/state/builder.rs:1025-1032 | Those three facts determine the trimmed alias uniquely (independent characterisation of `trim_start_matches('/')`) |
| `Preopen.TrimKeepsNul` | lib/wasix/src/state/builder.rs:1025-1032 | Trimming slashes neither adds nor removes a nul byte, so validating the trimmed alias judges the given one |
| `Preopen.BuildPreopen` | lib/wasix/src/state/builder.rs:1060-1090 | No permission → `PreopenedDirectoryError(NoPermission)`, checked before the path; no path → `NoHostPath`; nul in alias → `MappedDirAliasFormattingError`; success exactly otherwise, copying path, alias and flags |
| `Preopen.Apply` | lib/wasix/src/state/builder.rs:1014-1058 | One builder call on a configuration value: keeps a normalized alias normalized; `create(true)` sets create and write; only `write` and `create(true)` change write |
| `Preopen.ApplyAll` | lib/wasix/src/state/builder.rs:416-421 | The calls of a `preopen_build` closure, left to right: without a `directory` call the path is unchanged, without an `alias` call the alias is unchanged |
| `Preopen.PreopenDirBuilder.Perform` | lib/wasix/src/state/builder.rs:1014-1058 | Performing one call on the builder changes its fields exactly as `Apply` does |
| `Preopen.ApplyAllNormalizesAlias` | lib/wasix/src/state/builder.rs:1025-1032 | After any sequence of builder calls the stored alias, and the alias of any built preopen, does not start with `/` |
| `Preopen.CreateImpliesWrite` | lib/wasix/src/state/builder.rs:1051-1058 | `create(true)` sets create and write; `create(false)` clears create and leaves write and the other fields alone |
| `Preopen.CreateWithoutWriteIsBuilt` | lib/wasix/src/state/builder.rs:1042-1058 | `create(true)` then `write(false)` builds a preopen with create set and write clear: create implies write only at the time of the call |
| `Preopen.PreopenDirBuilder.constructor` | lib/wasix/src/state/builder.rs:1009-1011 | A new builder has no path, no alias and all flags clear |
| `Preopen.PreopenDirBuilder.Directory` | lib/wasix/src/state/builder.rs:1014-1022 | Sets the path; nothing else changes |
| `Preopen.PreopenDirBuilder.Alias` | lib/wasix/src/state/builder.rs:1025-1032 | Stores the alias without its leading `/`; nothing else changes |
| `Preopen.PreopenDirBuilder.Read` | lib/wasix/src/state/builder.rs:1035-1039 | Sets read; nothing else changes |
| `Preopen.PreopenDirBuilder.Write` | lib/wasix/src/state/builder.rs:1042-1046 | Sets write; nothing else changes |
| `Preopen.PreopenDirBuilder.Create` | lib/wasix/src/state/builder.rs:1051-1058 | Sets create, and sets write when create is turned on |
| `Preopen.PreopenDirBuilder.Build` | lib/wasix/src/state/builder.rs:1060-1090 | Succeeds exactly when a permission is set, a path is given and the alias has no nul byte; the result copies the fields |
| `EnvValidation.ValidateArgs` | lib/wasix/src/state/builder.rs:584-590 | The argument pass; an error is `ArgumentContainsNulByte` naming one of the arguments, which holds a nul byte (first one: `ArgsVerdict`) |
| `EnvValidation.KeyFault` | lib/wasix/src/state/builder.rs:597-625 | The `find_map` over a key: `Nul` only for a key holding a nul, `Equal` only for a key holding `=` (both directions: `KeyVerdict`) |
| `EnvValidation.PairFault` | lib/wasix/src/state/builder.rs:597-631 | A key fault names the key and comes from `KeyFault`; a value fault names the value, which holds a nul, and arises only for a clean key (exact condition: `PairVerdict`) |
| `EnvValidation.ValidateEnvs` | lib/wasix/src/state/builder.rs:592-633 | An error is `EnvironmentVariableFormatError` carrying the fault of one of the pairs (the first: `EnvsVerdict`) |
| `EnvValidation.Validate` | lib/wasix/src/state/builder.rs:583-633 | The whole pass succeeds exactly when the argument pass and the environment pass both succeed; once the arguments pass, any error is an environment error |
| `EnvValidation.EnvString` | lib/wasix/src/state/builder.rs:688-693 | `key=value` has length `|key| + 1 + |value|`, `=` at position `|key|`, and holds a nul exactly when key or value does (round trip: `EnvStringRoundTrip`) |
| `EnvValidation.ArgsVerdict` | lib/wasix/src/state/builder.rs:584-590 | The argument pass succeeds exactly when no argument holds a nul byte; otherwise it names the first such argument |
| `EnvValidation.KeyVerdict` | lib/wasix/src/state/builder.rs:597-625 | A key is faulted exactly when it holds a nul or `=`; the fault reported is the kind of the first such byte (both directions) |
| `EnvValidation.PairVerdict` | lib/wasix/src/state/builder.rs:597-631 | A pair is accepted exactly when its key has no nul and no `=` and its value has no nul; `=` in the value is allowed; key faults take precedence over value faults |
| `EnvValidation.EnvsVerdict` | lib/wasix/src/state/builder.rs:583-633 | The first rejected pair is reported, and only once every argument has passed |
| `EnvValidation.EnvStrings` | lib/wasix/src/state/builder.rs:684-695 | One string per pair, same order and count, each `key ++ "=" ++ value` |
| `EnvValidation.EnvStringRoundTrip` | lib/wasix/src/state/builder.rs:684-695 | For an accepted pair, splitting the string at its first `=` gives the pair back, and the string has no nul byte |
| `EnvValidation.EqualInKeyCase` | lib/wasix/src/state/builder.rs:1099-1105 | `"HOM=E"` as a key is rejected with the equal-sign fault |
| `EnvValidation.NulInKeyCase` | lib/wasix/src/state/builder.rs:1108-1114 | `"HOME\0"` as a key is rejected with the nul fault |
| `EnvValidation.EqualInValueCase` | lib/wasix/src/state/builder.rs:1117-1123 | `"/home/home=home"` as a value is accepted |
| `EnvValidation.NulInValueCase` | lib/wasix/src/state/builder.rs:1126-1132 | `"/home/home\0"` as a value is rejected with the value fault |
| `EnvValidation.NulCharacterInArgsCases` | lib/wasix/src/state/builder.rs:1137-1155 | `"--h\0elp"` is rejected, and `["--help", "--wat\0"]` is rejected naming `"--wat\0"` |
| `EnvBuilder.AssembleFs` | lib/wasix/src/state/builder.rs:642-682 | Filesystem assembly fails only with `WasiFsCreationError`, `FileSystemError` or `WasiFsSetupError`; a failed `new_with_preopen` is returned as `WasiFsCreationError`; a setup error needs a setup callback (every swap failure and the assembled contents: `BuildInitPropagatesHostErrors`, `BuildInitFsContents`) |
| `EnvBuilder.Assemble` | lib/wasix/src/state/builder.rs:642-748 | Assembly succeeds exactly when the filesystem assembles; the root is the selected filesystem or a fresh sandbox, the args are copied, the runtime is the one set or the default, the capabilities are copied |
| `EnvBuilder.BuildInitSpec` | lib/wasix/src/state/builder.rs:583-748 | `build_init`: a validation error is returned as is; success needs valid inputs and a filesystem that assembled (all fields: `BuildInitAssembles`) |
| `EnvBuilder.BuildInitValidatesFirst` | lib/wasix/src/state/builder.rs:583-633 | A validation failure is returned before any collaborator is consulted: the outcome does not depend on the host |
| `EnvBuilder.BuildInitAssembles` | lib/wasix/src/state/builder.rs:583-749 | On success: all inputs were valid, args copied, env strings are `key=value` per pair, `preopen` is the virtual preopens, secret from the host, empty futexes, clock offset 0, root is the selected filesystem or a fresh sandbox, runtime as set or the default, packages, commands and capabilities copied, control plane from the threading capabilities, `call_initialize`, not `can_deep_sleep`, no memory type, process or thread |
| `EnvBuilder.BuildInitErrorKinds` | lib/wasix/src/state/builder.rs:583-682 | `build_init` fails only with an argument, environment, filesystem-creation, file-system or setup error |
| `EnvBuilder.BuildInitAcceptsValidInputs` | lib/wasix/src/state/builder.rs:583-682 | With a filesystem that never fails and no setup callback, `build_init` succeeds exactly when arguments and pairs are valid |
| `EnvBuilder.BuildInitPropagatesHostErrors` | lib/wasix/src/state/builder.rs:655-679 | For valid inputs: a failed `new_with_preopen` gives `WasiFsCreationError` with its message, a failed `swap_file` of stdin, of the stdout override or of the stderr override gives `FileSystemError` with its error, and a failed setup callback after successful swaps gives `WasiFsSetupError` with its message |
| `EnvBuilder.BuildInitFsContents` | lib/wasix/src/state/builder.rs:655-681 | When creation and every swap succeed: without a callback the built filesystem is the one after the last swap; with a callback it is the callback's result, or its failure is `WasiFsSetupError` with its message |
| `EnvBuilder.BuildInitDefaultStdin` | lib/wasix/src/state/builder.rs:643-646 | Without a stdin override, `build_init` behaves as if the default console stdin had been set |
| `EnvBuilder.BuildInitStdoutOnlyWhenOverridden` | lib/wasix/src/state/builder.rs:666-670 | Without a stdout override, slot 1 is never swapped: the result does not depend on `swap_file` at that slot |
| `EnvBuilder.BuildInitStderrOnlyWhenOverridden` | lib/wasix/src/state/builder.rs:672-676 | Without a stderr override, slot 2 is never swapped: the result does not depend on `swap_file` at that slot |
| `EnvBuilder.InsertAll` | lib/wasix/src/state/builder.rs:326-330 | Repeated `HashMap::insert`: the last pair inserted maps to its target (the full meaning: `InsertAllLastWins`) |
| `EnvBuilder.RunPreopenBuild` | lib/wasix/src/state/builder.rs:416-421 | The closure's calls on a fresh `PreopenDirBuilder`, then `build`, give exactly `BuildPreopen(ApplyAll(default, calls))` |
| `EnvBuilder.BuildMapped` | lib/wasix/src/state/builder.rs:455-462 | The builder calls of `add_map_dir` build exactly the mapped read-write-create preopen with the trimmed alias, and fail exactly when the alias holds a nul byte, naming the trimmed alias |
| `EnvBuilder.MapEach` | lib/wasix/src/state/builder.rs:474-478 | The loop of `map_dirs`: appends the mapped preopen of each pair in order up to the first alias holding a nul byte, whose trimmed form the error names; with none, every pair is appended |
| `EnvBuilder.InsertAllLastWins` | lib/wasix/src/state/builder.rs:320-331 | After inserting command mappings in turn, every inserted name maps to its last target, and other names keep theirs |
| `EnvBuilder.WasiEnvBuilder.constructor` | lib/wasix/src/state/builder.rs:134-139 | The argument list is exactly `[program_name]`; every other field has its default |
| `EnvBuilder.WasiEnvBuilder.AddEnv` | lib/wasix/src/state/builder.rs:146-169 | Appends one pair at the end; nothing else changes |
| `EnvBuilder.WasiEnvBuilder.AddEnvs` | lib/wasix/src/state/builder.rs:176-201 | Appends the pairs in iteration order, as `add_env` on each |
| `EnvBuilder.WasiEnvBuilder.AddArg` | lib/wasix/src/state/builder.rs:217-235 | Appends one argument at the end; nothing else changes |
| `EnvBuilder.WasiEnvBuilder.AddArgs` | lib/wasix/src/state/builder.rs:240-261 | Appends the arguments in order, as `add_arg` on each |
| `EnvBuilder.WasiEnvBuilder.AddWebc` | lib/wasix/src/state/builder.rs:277-289 | Appends one package |
| `EnvBuilder.WasiEnvBuilder.Uses` | lib/wasix/src/state/builder.rs:295-304 | Appends the packages in order, as `add_webc` on each |
| `EnvBuilder.WasiEnvBuilder.MapCommand` | lib/wasix/src/state/builder.rs:307-316 | Maps the name to the target, replacing an earlier mapping |
| `EnvBuilder.WasiEnvBuilder.MapCommands` | lib/wasix/src/state/builder.rs:320-331 | Inserts each mapping in turn |
| `EnvBuilder.WasiEnvBuilder.AddPreopenDir` | lib/wasix/src/state/builder.rs:338-362 | Always succeeds and appends exactly one read-write-create preopen of the directory with no alias |
| `EnvBuilder.WasiEnvBuilder.PreopenDirs` | lib/wasix/src/state/builder.rs:368-378 | Always succeeds and appends one such preopen per directory, in order |
| `EnvBuilder.WasiEnvBuilder.AddPreopenBuild` | lib/wasix/src/state/builder.rs:394-424 | Runs the configuring calls on a fresh `PreopenDirBuilder`; on success appends exactly the built preopen, on failure returns its error and changes nothing |
| `EnvBuilder.WasiEnvBuilder.PreopenVfsDirs` | lib/wasix/src/state/builder.rs:430-440 | Always succeeds and appends the virtual paths in order |
| `EnvBuilder.WasiEnvBuilder.AddMapDir` | lib/wasix/src/state/builder.rs:442-467 | Succeeds exactly when the alias has no nul byte, then appends one read-write-create preopen with the trimmed alias; on error the preopens are unchanged and the error names the trimmed alias |
| `EnvBuilder.WasiEnvBuilder.MapDirs` | lib/wasix/src/state/builder.rs:470-480 | Maps the pairs in order and stops at the first alias holding a nul byte, reporting its trimmed form; on success every pair is appended in order |
| `EnvBuilder.WasiEnvBuilder.SetStdout` | lib/wasix/src/state/builder.rs:484-494 | Replaces the stdout override |
| `EnvBuilder.WasiEnvBuilder.SetStderr` | lib/wasix/src/state/builder.rs:498-507 | Replaces the stderr override |
| `EnvBuilder.WasiEnvBuilder.SetStdin` | lib/wasix/src/state/builder.rs:511-521 | Replaces the stdin override |
| `EnvBuilder.WasiEnvBuilder.SetFs` | lib/wasix/src/state/builder.rs:526-533 | Selects a `Backing` root, replacing any earlier selection |
| `EnvBuilder.WasiEnvBuilder.SandboxFs` | lib/wasix/src/state/builder.rs:538-541 | Selects a `Sandbox` root, replacing any earlier selection |
| `EnvBuilder.WasiEnvBuilder.SetupFs` | lib/wasix/src/state/builder.rs:545-549 | Sets the setup callback |
| `EnvBuilder.WasiEnvBuilder.SetRuntime` | lib/wasix/src/state/builder.rs:553-560 | Sets the runtime |
| `EnvBuilder.WasiEnvBuilder.SetCapabilities` | lib/wasix/src/state/builder.rs:562-573 | Replaces the capabilities |
| `EnvBuilder.WasiEnvBuilder.BuildInit` | lib/wasix/src/state/builder.rs:583-749 | The loops with early returns compute exactly `BuildInitSpec` of the builder's state, whose properties are the `BuildInit*` lemmas |
| `EnvBuilder.CheckArgs` | lib/wasix/src/state/builder.rs:584-590 | The nested byte scan returns exactly the argument verdict (first argument holding a nul byte) |
| `EnvBuilder.CheckPair` | lib/wasix/src/state/builder.rs:597-631 | The `find_map` over the key and the scan of the value return exactly the pair's fault |
| `EnvBuilder.CheckEnvs` | lib/wasix/src/state/builder.rs:592-633 | The loop over pairs returns exactly the environment verdict (first rejected pair) |
| `EnvBuilder.BuildWithOneEnv` | lib/wasix/src/state/builder.rs:1097-1134 | Building with one pair reports the pair's fault when it is rejected, and otherwise yields the single `key=value` string |
| `EnvBuilder.BuildWithArgs` | lib/wasix/src/state/builder.rs:1136-1155 | Building with arguments reports the first one holding a nul byte; with none, the arguments come back unchanged, no env strings, a fresh sandbox root |
| `ExitCodes.WasiExitCode` | lib/wasix/src/state/builder.rs:871-889 | `Ok` → `(Ok, Success)`; explicit success exit → `(Ok, Success)`; other explicit exit → same error and that code; other error → same error and `Noexec`; the verdict is `Ok` exactly when the code is success |
| `ExitCodes.WasiExitCodeIdempotent` | lib/wasix/src/state/builder.rs:871-889 | Normalising a normalised result changes nothing |
| `ExitCodes.WasiExitCodeMonotone` | lib/wasix/src/state/builder.rs:871-889 | `Ok` stays `Ok`; a result that stays an error was an error and never gets the success code |
| `ExitCodes.WasiExitCodeCases` | lib/wasix/src/state/builder.rs:871-889 | The four cases on concrete values, with `Noexec` = 45 |
| `OsConsole.SplitOnce` | lib/wasix/src/os/console/mod.rs:156 | `split_once`: none exactly when the separator is absent; otherwise the text is `before ++ [sep] ++ after` with no separator in `before` |
| `OsConsole.SplitAll` | lib/wasix/src/os/console/mod.rs:160 | `split`: at least one piece, and no piece holds the separator (round trips: `JoinSplitAll`, `SplitAllJoin`) |
| `OsConsole.SplitBootCmd` | lib/wasix/src/os/console/mod.rs:156-170 | The boot-command split: the package id is a space-free prefix of the command, the program is `ProgOf` the id, and without arguments the id is the whole command (round trips: `SplitBootCmdReconstructs`, `SplitBootCmdOfJoin`) |
| `OsConsole.SplitOnceUnique` | lib/wasix/src/os/console/mod.rs:156-160 | Splitting at the first separator is determined by "no separator before it" |
| `OsConsole.SplitAllFromText` | lib/wasix/src/os/console/mod.rs:160 | A byte absent from the text is absent from every piece of its split |
| `OsConsole.JoinSplitAll` | lib/wasix/src/os/console/mod.rs:160 | Joining the pieces of `split(' ')` with spaces gives the text back |
| `OsConsole.SplitAllJoin` | lib/wasix/src/os/console/mod.rs:160 | Splitting a join of space-free pieces gives the pieces back |
| `OsConsole.ProgOf` | lib/wasix/src/os/console/mod.rs:159-167 | The program name is the text after the first `/` of the package id, or the whole id without a `/` |
| `OsConsole.SplitBootCmdReconstructs` | lib/wasix/src/os/console/mod.rs:156-170 | The package id has no space; there are arguments exactly when the command has a space; no argument has a space; id and arguments joined by spaces give the command back |
| `OsConsole.SplitBootCmdOfJoin` | lib/wasix/src/os/console/mod.rs:156-170 | A space-free id and non-empty space-free arguments are recovered from the command they form |
| `OsConsole.TrailingSpaceKeepsEmptyArgument` | lib/wasix/src/os/console/mod.rs:160 | A trailing space yields an empty last argument: empty pieces are kept |
| `OsConsole.NewConsoleUse` | lib/wasix/src/os/console/mod.rs:58-62 | As written: the package `Console::new` registers is the text after the first space, or the whole command |
| `OsConsole.BootPackage` | lib/wasix/src/os/console/mod.rs:91-93 | The package of a boot command is the space-free text before the first space, or the whole command |
| `OsConsole.BootPackageIsWebc` | lib/wasix/src/os/console/mod.rs:91-93 | The package `with_boot_cmd` registers is the package id `run` resolves |
| `OsConsole.NewConsoleUseIsArgumentText` | lib/wasix/src/os/console/mod.rs:58-62 | For a command with arguments, `Console::new` registers the argument text while `run` resolves the text before the space |
| `OsConsole.NewConsoleRegistersArgument` | lib/wasix/src/os/console/mod.rs:58-67 | `"sharrattj/bash --norc"` registers `"--norc"`, not the package `"sharrattj/bash"` |
| `OsConsole.ApplyLimiter` | lib/wasix/src/os/console/mod.rs:203-213 | A limiter on a `Backing` root is a `BadRequest`; on a `Sandbox` root it is installed; with no limiter nothing is checked |
| `OsConsole.WelcomeFor` | lib/wasix/src/os/console/mod.rs:283-288 | Medium exactly when mobile; small exactly when not mobile and ssh; large otherwise |
| `OsConsole.Console.constructor` | lib/wasix/src/os/console/mod.rs:58-84 | Boot command as given, `uses` the single package `NewConsoleUse` picks, prompt `wasmer.sh`, empty env, three distinct fresh pipes for stdin, stdout and stderr, defaults elsewhere |
| `OsConsole.Console.WithPrompt` | lib/wasix/src/os/console/mod.rs:86-89 | Replaces the prompt |
| `OsConsole.Console.WithBootCmd` | lib/wasix/src/os/console/mod.rs:91-96 | Adds the command's package to `uses`, keeps the others, and replaces the boot command; the package `run` resolves is then registered |
| `OsConsole.Console.WithUses` | lib/wasix/src/os/console/mod.rs:98-101 | `uses` becomes exactly the distinct names listed |
| `OsConsole.Console.WithEnv` | lib/wasix/src/os/console/mod.rs:103-106 | Replaces the environment map |
| `OsConsole.Console.WithUserAgent` | lib/wasix/src/os/console/mod.rs:108-113 | Records the user agent and the mobile and ssh verdicts for it |
| `OsConsole.Console.WithNoWelcome` | lib/wasix/src/os/console/mod.rs:115-118 | Sets the no-welcome flag |
| `OsConsole.Console.WithToken` | lib/wasix/src/os/console/mod.rs:120-123 | Sets the token |
| `OsConsole.Console.WithCapabilities` | lib/wasix/src/os/console/mod.rs:125-128 | Replaces the capabilities |
| `OsConsole.Console.WithStdin` | lib/wasix/src/os/console/mod.rs:130-133 | Replaces stdin |
| `OsConsole.Console.WithStdout` | lib/wasix/src/os/console/mod.rs:135-138 | Replaces stdout |
| `OsConsole.Console.WithStderr` | lib/wasix/src/os/console/mod.rs:140-143 | Replaces stderr |
| `OsConsole.Console.WithMemFsMemoryLimiter` | lib/wasix/src/os/console/mod.rs:145-151 | Sets the memory limiter |
| `OsConsole.StartBuilder` | lib/wasix/src/os/console/mod.rs:183-187 | The builder holds `[prog] ++ args`, the environment pairs, the console's stdin and a sandbox root, and still the default capabilities `WasiEnv::builder` starts from |
| `OsConsole.AddRunPreopens` | lib/wasix/src/os/console/mod.rs:188-191 | `preopen_dir("/")` and `map_dir(".", "/")` cannot fail (the `unwrap`s never panic) and append exactly those two preopens |
| `OsConsole.ConfigureBuilder` | lib/wasix/src/os/console/mod.rs:183-195 | The builder calls of `run` produce exactly the configuration `RunConfig` |
| `OsConsole.Console.Run` | lib/wasix/src/os/console/mod.rs:153-220 | Fails only with `InternalError`, exactly when `build_init` fails; otherwise the guest gets `[prog] ++ args`, the root is the sandbox (so the limiter check never fails here), the limiter is installed, and a banner is chosen by `WelcomeFor` unless whitelabel or no-welcome is set |
| `OsConsole.RunConfigAccepted` | lib/wasix/src/os/console/mod.rs:183-198 | With a filesystem that never fails, `run` passes `build_init` exactly when the program name, every argument and every pair are valid |
| `OsConsole.RunAcceptsNulFreeCommand` | lib/wasix/src/os/console/mod.rs:156-198 | A nul-free boot command with well-formed pairs always passes `build_init` |
| `OsConsole.BootPiecesNulFree` | lib/wasix/src/os/console/mod.rs:156-170 | A nul-free boot command gives a nul-free program name and nul-free arguments |

## Left out

- Deep sleep and asynchronous driving are not modelled: `run_with_deep_sleep`, `handle_result` and `run_with_store_async`. They need the wasm engine, task scheduling and a channel between threads.
- `build`, `finalize`, `instantiate`, `run` and `run_with_store` of the builder are not modelled. They need a Wasmer `Store`, `Module` and `Instance`.
- The inside of the filesystem work in `build_init` is not modelled: `WasiFs::new_with_preopen`, `swap_file` and the setup callback. These are functions of a `Host` that may fail. Their errors map to `WasiFsCreationError`, `FileSystemError` and `WasiFsSetupError`.
- The model assumes the filesystem keeps the backing it was given as its root.
- The inode table is not modelled.
- The random secret is not generated. It is an arbitrary 32-byte value supplied by the host.
- Choosing the default runtime is not modelled; the host supplies it.
- The `panic!` in builds without a default runtime is not modelled.
- `BinFactory` and `WasiControlPlane` objects are not built. Only the control-plane configuration is modelled.
- `Capabilities` keeps only the two threading fields that `build_init` reads. `Capabilities::default()` is a parameter, because its definition is not part of this model.
- `String::from_utf8_lossy` in `add_env` and `add_arg` is taken as the identity: keys and arguments are bytes throughout.
- The accessors `get_env`, `get_env_mut`, `get_args`, `get_args_mut` and `capabilities_mut` are not modelled. They hand out references and change nothing themselves.
- The `Debug` impl and tracing calls are not modelled.
- `ExitCodes.WasiExitCode`: an exit code is its raw number, and success is 0. The `ExitCode` type and `Errno` are not part of this model, so `Errno::Noexec` is written as WASI errno 45.
- `ExitCodes.WasiExitCode`: `WasiRuntimeError` is reduced to what `as_exit_code` returns, plus an opaque detail.
- `OsConsole.Console.Run`: these parts of `run` are not modelled:
  - the creation of the store and of the root filesystem, which is a fresh sandbox given by identity;
  - `WasiEnv::from_init`;
  - the text of the welcome banner;
  - parsing the package id;
  - registry resolution;
  - loading `uses`;
  - `spawn_exec`;
  - the writes to stderr.

  These are I/O or foreign code, so `run` is modelled up to the banner decision.
- The order in which `run` passes environment pairs is a parameter (`envPairs`): a `HashMap` has no specified iteration order.
- `OsConsole.Console.WithUserAgent`: `is_mobile` and `is_ssh` come from a module that is not part of this model. Their verdicts are parameters.
- `OsConsole.Console.WithUses`: `uses` is a set. The insertion order of `LinkedHashSet` is not modelled, because nothing in the core reads it.
- Ownership is not modelled. The consuming forms (`preopen_dirs`, `map_dirs`, `map_dir`, `preopen_build`, …) take `mut self` and drop the builder on error, so a partly applied `map_dirs` is never observable in the source; the model's `MapDirs` keeps the builder and its partial state. Likewise `build_init(mut self)` consumes the builder and moves stdin, stdout, stderr and the filesystem out of it, while `WasiEnvBuilder.BuildInit` leaves the builder unchanged and reusable.
- Streams and file objects are identities (`VirtualFile`), not behaviour.
- `lib/virtual-fs/src/tmp_fs.rs` is not modelled. Each of its methods delegates to the in-memory filesystem, which is not part of this model.
- `PreopenDirBuilder::create` documents "create implies write". The code sets write only when `create(true)` is called, so a later `write(false)` clears it again. The model follows the code (`Preopen.CreateWithoutWriteIsBuilt`). The model does not claim that every built preopen with create set also has write set.

## Findings

| source | as written | input that shows it | evidently intended | confidence | as-written member | corrected member |
|---|---|---|---|---|---|---|
| lib/wasix/src/os/console/mod.rs:59-65 | `Console::new` registers `split_once(' ').map(\|a\| a.1)`: the text after the first space, i.e. the arguments | boot package `"sharrattj/bash --norc"` registers `"--norc"` as a used package, while `run` resolves `"sharrattj/bash"` | register the package id, the text before the first space, as `with_boot_cmd` does at line 92 | medium, not executed | `OsConsole.NewConsoleRegistersArgument` (about `OsConsole.NewConsoleUse`) | `OsConsole.BootPackage`, proved equal to the package `run` resolves by `OsConsole.BootPackageIsWebc`, used by `OsConsole.Console.WithBootCmd` |
