/// `WasiEnvBuilder` (lib/wasix/src/state/builder.rs): the mutable staging
/// object that collects arguments, environment pairs, preopens, stdio
/// overrides, a filesystem selection, packages, commands and capabilities,
/// and `build_init`, which validates all of it and then assembles a
/// `WasiEnvInit`.
module EnvBuilder {
  import opened WasixTypes
  import opened StateErrors
  import opened Preopen
  import opened EnvValidation

  /// Well-known descriptor slots.
  const STDIN_FILENO: nat := 0
  const STDOUT_FILENO: nat := 1
  const STDERR_FILENO: nat := 2

  /** A `Box<dyn VirtualFile>`: the default console stdin, the sending end
      of a fresh pipe channel, or any other file object; pipes and other
      files are told apart by an identity. */
  datatype VirtualFile = DefaultStdin | UnconnectedPipe(channel: nat) | HostFile(id: nat)

  /** `WasiFsRoot`: an owned in-memory `TmpFileSystem`, or an externally
      supplied filesystem; both told apart by an identity. */
  datatype FsRoot = Sandbox(tmpFs: nat) | Backing(fs: nat)

  /** The inode and descriptor tables the filesystem collaborator builds. */
  datatype FsState = FsState(id: nat)

  /** `WasiFs`: its root and the rest of its state. */
  datatype WasiFs = WasiFs(rootFs: FsRoot, contents: FsState)

  /** The post-assembly callback `setup_fs_fn`. */
  type SetupFsFn = FsState -> Result<FsState, Bytes>

  /** An `Arc<dyn Runtime>`, told apart by an identity. */
  type RuntimeHandle = nat

  datatype BinaryPackage = BinaryPackage(id: nat)

  /** The part of `Capabilities` that `build_init` reads. */
  datatype Threading = Threading(maxThreads: Option<nat>, enableAsynchronousThreading: bool)
  datatype Capabilities = Capabilities(threading: Threading)

  /** The 32-byte random secret of a `WasiState`. */
  type Secret = s: Bytes | |s| == 32 witness seq(32, i => 0)

  /** The fields of a `WasiEnvBuilder`, as a value. */
  datatype BuilderConfig = BuilderConfig(
    args: seq<Bytes>,
    envs: seq<(Bytes, Bytes)>,
    preopens: seq<PreopenedDir>,
    vfsPreopens: seq<Bytes>,
    setupFsFn: Option<SetupFsFn>,
    stdout: Option<VirtualFile>,
    stderr: Option<VirtualFile>,
    stdin: Option<VirtualFile>,
    fs: Option<FsRoot>,
    runtime: Option<RuntimeHandle>,
    uses: seq<BinaryPackage>,
    mapCommands: map<Bytes, Bytes>,
    capabilities: Capabilities)

  /** `WasiEnvBuilder::new(program_name)`: default fields, one argument. */
  function NewConfig(programName: Bytes, defaultCapabilities: Capabilities): BuilderConfig {
    BuilderConfig([programName], [], [], [], None, None, None, None, None, None, [], map[], defaultCapabilities)
  }

  datatype ControlPlaneConfig = ControlPlaneConfig(maxTaskCount: Option<nat>, enableAsynchronousThreading: bool)

  /** `WasiState` */
  datatype WasiState = WasiState(
    fs: WasiFs,
    secret: Secret,
    args: seq<Bytes>,
    preopen: seq<Bytes>,
    futexs: map<nat, nat>,
    clockOffset: int,
    envs: seq<Bytes>)

  /** `WasiEnvInit`; the memory type, process and thread handles are foreign
      objects, given by an identity when present. */
  datatype WasiEnvInit = WasiEnvInit(
    state: WasiState,
    runtime: RuntimeHandle,
    webcDependencies: seq<BinaryPackage>,
    mappedCommands: map<Bytes, Bytes>,
    controlPlane: ControlPlaneConfig,
    capabilities: Capabilities,
    memoryTy: Option<nat>,
    process: Option<nat>,
    thread: Option<nat>,
    callInitialize: bool,
    canDeepSleep: bool)

  /** What `build_init` asks of the world: the filesystem collaborator
      (`WasiFs::new_with_preopen`, `swap_file`), the identity of a freshly
      created `TmpFileSystem`, the random secret and the default runtime. */
  datatype Host = Host(
    newWithPreopen: (seq<PreopenedDir>, seq<Bytes>, FsRoot) -> Result<FsState, Bytes>,
    swapFile: (FsState, nat, VirtualFile) -> Result<FsState, FsError>,
    freshSandbox: nat,
    secret: Secret,
    defaultRuntime: RuntimeHandle)

  /** A host whose filesystem operations never fail. */
  ghost predicate Permissive(h: Host) {
    && (forall p, v, b :: h.newWithPreopen(p, v, b).Ok?)
    && (forall f, fd, file :: h.swapFile(f, fd, file).Ok?)
  }

  /** `swap_file` on a slot only when an override was given. */
  function SwapOverride(h: Host, fs: FsState, fd: nat, file: Option<VirtualFile>): Result<FsState, FsError> {
    match file
    case None => Ok(fs)
    case Some(f) => h.swapFile(fs, fd, f)
  }

  /** Filesystem assembly (builder.rs 655-682): create from the preopens, bind
      stdin, then the stdout and stderr overrides, then run the setup callback. */
  function AssembleFs(c: BuilderConfig, h: Host, backing: FsRoot): (r: Result<FsState, WasiStateCreationError>)
    ensures r.Err? ==> r.error.WasiFsCreationError? || r.error.FileSystemError? || r.error.WasiFsSetupError?
    ensures h.newWithPreopen(c.preopens, c.vfsPreopens, backing).Err? ==>
              r == Err(WasiFsCreationError(h.newWithPreopen(c.preopens, c.vfsPreopens, backing).error))
    ensures r.Err? && r.error.WasiFsSetupError? ==> c.setupFsFn.Some?
  {
    match h.newWithPreopen(c.preopens, c.vfsPreopens, backing)
    case Err(message) => Err(WasiFsCreationError(message))
    case Ok(fs0) =>
      match h.swapFile(fs0, STDIN_FILENO, c.stdin.GetOr(DefaultStdin))
      case Err(e) => Err(FileSystemError(e))
      case Ok(fs1) =>
        match SwapOverride(h, fs1, STDOUT_FILENO, c.stdout)
        case Err(e) => Err(FileSystemError(e))
        case Ok(fs2) =>
          match SwapOverride(h, fs2, STDERR_FILENO, c.stderr)
          case Err(e) => Err(FileSystemError(e))
          case Ok(fs3) =>
            match c.setupFsFn
            case None => Ok(fs3)
            case Some(setup) =>
              match setup(fs3)
              case Err(message) => Err(WasiFsSetupError(message))
              case Ok(fs4) => Ok(fs4)
  }

  /** Everything `build_init` does after validation (builder.rs 642-748). */
  function Assemble(c: BuilderConfig, h: Host): (r: Result<WasiEnvInit, WasiStateCreationError>)
    ensures r.Ok? <==> AssembleFs(c, h, c.fs.GetOr(Sandbox(h.freshSandbox))).Ok?
    ensures r.Ok? ==> r.value.state.fs.rootFs == c.fs.GetOr(Sandbox(h.freshSandbox)) && r.value.state.args == c.args
    ensures r.Ok? ==> r.value.runtime == c.runtime.GetOr(h.defaultRuntime) && r.value.capabilities == c.capabilities
  {
    var backing := c.fs.GetOr(Sandbox(h.freshSandbox));
    match AssembleFs(c, h, backing)
    case Err(e) => Err(e)
    case Ok(contents) =>
      var state := WasiState(WasiFs(backing, contents), h.secret, c.args, c.vfsPreopens, map[], 0, EnvStrings(c.envs));
      var plane := ControlPlaneConfig(c.capabilities.threading.maxThreads, c.capabilities.threading.enableAsynchronousThreading);
      Ok(WasiEnvInit(state, c.runtime.GetOr(h.defaultRuntime), c.uses, c.mapCommands, plane, c.capabilities,
                     None, None, None, true, false))
  }

  /** `build_init`: validation over the whole configuration, then assembly. */
  function BuildInitSpec(c: BuilderConfig, h: Host): (r: Result<WasiEnvInit, WasiStateCreationError>)
    ensures Validate(c.args, c.envs).Err? ==> r == Err(Validate(c.args, c.envs).error)
    ensures r.Ok? ==> Validate(c.args, c.envs).Ok? && AssembleFs(c, h, c.fs.GetOr(Sandbox(h.freshSandbox))).Ok?
  {
    match Validate(c.args, c.envs)
    case Err(e) => Err(e)
    case Ok(_) => Assemble(c, h)
  }

  /** A validation failure is reported before any collaborator is consulted:
      the outcome does not depend on the host at all. */
  lemma BuildInitValidatesFirst(c: BuilderConfig, h1: Host, h2: Host)
    requires Validate(c.args, c.envs).Err?
    ensures BuildInitSpec(c, h1) == BuildInitSpec(c, h2) == Err(Validate(c.args, c.envs).error)
  {
  }

  /** What a successful `build_init` produces. */
  lemma BuildInitAssembles(c: BuilderConfig, h: Host)
    requires BuildInitSpec(c, h).Ok?
    ensures var init := BuildInitSpec(c, h).value;
      && (forall i :: 0 <= i < |c.args| ==> NUL !in c.args[i])
      && (forall i :: 0 <= i < |c.envs| ==> NUL !in c.envs[i].0 && EQUALS !in c.envs[i].0 && NUL !in c.envs[i].1)
      && init.state.args == c.args
      && |init.state.envs| == |c.envs|
      && (forall i :: 0 <= i < |c.envs| ==> init.state.envs[i] == c.envs[i].0 + [EQUALS] + c.envs[i].1)
      && init.state.preopen == c.vfsPreopens
      && init.state.secret == h.secret
      && init.state.futexs == map[] && init.state.clockOffset == 0
      && init.state.fs.rootFs == (if c.fs.Some? then c.fs.value else Sandbox(h.freshSandbox))
      && init.runtime == (if c.runtime.Some? then c.runtime.value else h.defaultRuntime)
      && init.webcDependencies == c.uses && init.mappedCommands == c.mapCommands
      && init.capabilities == c.capabilities
      && init.controlPlane.maxTaskCount == c.capabilities.threading.maxThreads
      && init.controlPlane.enableAsynchronousThreading == c.capabilities.threading.enableAsynchronousThreading
      && init.callInitialize && !init.canDeepSleep
      && init.memoryTy.None? && init.process.None? && init.thread.None?
  {
    ArgsVerdict(c.args);
    var i := FirstIndex(c.envs, PairRejected);
    assert i == |c.envs|;
    forall k | 0 <= k < |c.envs|
      ensures NUL !in c.envs[k].0 && EQUALS !in c.envs[k].0 && NUL !in c.envs[k].1
    {
      PairVerdict(c.envs[k].0, c.envs[k].1);
    }
  }

  /** `build_init` fails only with a validation error or with one of the
      three collaborator errors. */
  lemma BuildInitErrorKinds(c: BuilderConfig, h: Host)
    requires BuildInitSpec(c, h).Err?
    ensures BuildInitSpec(c, h).error.ArgumentContainsNulByte?
         || BuildInitSpec(c, h).error.EnvironmentVariableFormatError?
         || BuildInitSpec(c, h).error.WasiFsCreationError?
         || BuildInitSpec(c, h).error.FileSystemError?
         || BuildInitSpec(c, h).error.WasiFsSetupError?
  {
  }

  /** With a filesystem that never fails and no setup callback, `build_init`
      succeeds exactly when every argument is nul-free and every pair is well formed. */
  lemma BuildInitAcceptsValidInputs(c: BuilderConfig, h: Host)
    requires Permissive(h) && c.setupFsFn.None?
    ensures BuildInitSpec(c, h).Ok? <==>
              (forall i :: 0 <= i < |c.args| ==> NUL !in c.args[i]) &&
              (forall i :: 0 <= i < |c.envs| ==> NUL !in c.envs[i].0 && EQUALS !in c.envs[i].0 && NUL !in c.envs[i].1)
  {
    ArgsVerdict(c.args);
    forall k | 0 <= k < |c.envs|
      ensures PairRejected(c.envs[k]) <==> !(NUL !in c.envs[k].0 && EQUALS !in c.envs[k].0 && NUL !in c.envs[k].1)
    {
      PairVerdict(c.envs[k].0, c.envs[k].1);
    }
    var i := FirstIndex(c.envs, PairRejected);
    var backing := c.fs.GetOr(Sandbox(h.freshSandbox));
    assert h.newWithPreopen(c.preopens, c.vfsPreopens, backing).Ok?;
    var fs0 := h.newWithPreopen(c.preopens, c.vfsPreopens, backing).value;
    assert h.swapFile(fs0, STDIN_FILENO, c.stdin.GetOr(DefaultStdin)).Ok?;
    var fs1 := h.swapFile(fs0, STDIN_FILENO, c.stdin.GetOr(DefaultStdin)).value;
    assert c.stdout.Some? ==> h.swapFile(fs1, STDOUT_FILENO, c.stdout.value).Ok?;
    var fs2 := SwapOverride(h, fs1, STDOUT_FILENO, c.stdout).value;
    assert c.stderr.Some? ==> h.swapFile(fs2, STDERR_FILENO, c.stderr.value).Ok?;
    assert AssembleFs(c, h, backing).Ok?;
  }

  /** Once validation has passed, each collaborator failure is returned
      as the error of its own kind (builder.rs 655-679): a failed
      `new_with_preopen` as `WasiFsCreationError`, a failed `swap_file` of
      stdin or of a stdout or stderr override as `FileSystemError`, and a
      failed setup callback, after every swap succeeded, as `WasiFsSetupError`. */
  lemma BuildInitPropagatesHostErrors(c: BuilderConfig, h: Host)
    requires Validate(c.args, c.envs).Ok?
    ensures var created := h.newWithPreopen(c.preopens, c.vfsPreopens, c.fs.GetOr(Sandbox(h.freshSandbox)));
      created.Err? ==> BuildInitSpec(c, h) == Err(WasiFsCreationError(created.error))
    ensures var created := h.newWithPreopen(c.preopens, c.vfsPreopens, c.fs.GetOr(Sandbox(h.freshSandbox)));
      created.Ok? ==>
        var bound := h.swapFile(created.value, STDIN_FILENO, c.stdin.GetOr(DefaultStdin));
        bound.Err? ==> BuildInitSpec(c, h) == Err(FileSystemError(bound.error))
    ensures var created := h.newWithPreopen(c.preopens, c.vfsPreopens, c.fs.GetOr(Sandbox(h.freshSandbox)));
      created.Ok? ==>
        var bound := h.swapFile(created.value, STDIN_FILENO, c.stdin.GetOr(DefaultStdin));
        bound.Ok? ==>
          var outBound := SwapOverride(h, bound.value, STDOUT_FILENO, c.stdout);
          outBound.Err? ==> BuildInitSpec(c, h) == Err(FileSystemError(outBound.error))
    ensures var created := h.newWithPreopen(c.preopens, c.vfsPreopens, c.fs.GetOr(Sandbox(h.freshSandbox)));
      created.Ok? ==>
        var bound := h.swapFile(created.value, STDIN_FILENO, c.stdin.GetOr(DefaultStdin));
        bound.Ok? ==>
          var outBound := SwapOverride(h, bound.value, STDOUT_FILENO, c.stdout);
          outBound.Ok? ==>
            var errBound := SwapOverride(h, outBound.value, STDERR_FILENO, c.stderr);
            errBound.Err? ==> BuildInitSpec(c, h) == Err(FileSystemError(errBound.error))
    ensures var created := h.newWithPreopen(c.preopens, c.vfsPreopens, c.fs.GetOr(Sandbox(h.freshSandbox)));
      created.Ok? ==>
        var bound := h.swapFile(created.value, STDIN_FILENO, c.stdin.GetOr(DefaultStdin));
        bound.Ok? ==>
          var outBound := SwapOverride(h, bound.value, STDOUT_FILENO, c.stdout);
          outBound.Ok? ==>
            var errBound := SwapOverride(h, outBound.value, STDERR_FILENO, c.stderr);
            errBound.Ok? && c.setupFsFn.Some? && c.setupFsFn.value(errBound.value).Err? ==>
              BuildInitSpec(c, h) == Err(WasiFsSetupError(c.setupFsFn.value(errBound.value).error))
  {
  }

  /** When every collaborator call succeeds, the filesystem of the built
      environment is the one they produced in turn (builder.rs 655-681):
      created from the preopens, stdin bound, the stdout and stderr overrides
      swapped in, then the setup callback's result, if there is a callback. */
  lemma BuildInitFsContents(c: BuilderConfig, h: Host, created: FsState, bound: FsState, outBound: FsState, errBound: FsState)
    requires Validate(c.args, c.envs).Ok?
    requires h.newWithPreopen(c.preopens, c.vfsPreopens, c.fs.GetOr(Sandbox(h.freshSandbox))) == Ok(created)
    requires h.swapFile(created, STDIN_FILENO, c.stdin.GetOr(DefaultStdin)) == Ok(bound)
    requires SwapOverride(h, bound, STDOUT_FILENO, c.stdout) == Ok(outBound)
    requires SwapOverride(h, outBound, STDERR_FILENO, c.stderr) == Ok(errBound)
    ensures c.setupFsFn.None? ==> BuildInitSpec(c, h).Ok? && BuildInitSpec(c, h).value.state.fs.contents == errBound
    ensures c.setupFsFn.Some? && c.setupFsFn.value(errBound).Ok? ==>
              BuildInitSpec(c, h).Ok? && BuildInitSpec(c, h).value.state.fs.contents == c.setupFsFn.value(errBound).value
    ensures c.setupFsFn.Some? && c.setupFsFn.value(errBound).Err? ==>
              BuildInitSpec(c, h) == Err(WasiFsSetupError(c.setupFsFn.value(errBound).error))
  {
  }

  /** Without a stdin override, stdin is bound to the default console stdin
      (builder.rs 643-646). */
  lemma BuildInitDefaultStdin(c: BuilderConfig, h: Host)
    requires c.stdin.None?
    ensures BuildInitSpec(c, h) == BuildInitSpec(c.(stdin := Some(DefaultStdin)), h)
  {
  }

  /** Without a stdout override, slot 1 is never swapped (builder.rs
      666-670): hosts that differ only in `swap_file` on that slot give the
      same result. */
  lemma BuildInitStdoutOnlyWhenOverridden(c: BuilderConfig, h: Host, swap: (FsState, nat, VirtualFile) -> Result<FsState, FsError>)
    requires c.stdout.None?
    requires forall f, fd, file :: fd != STDOUT_FILENO ==> swap(f, fd, file) == h.swapFile(f, fd, file)
    ensures BuildInitSpec(c, h) == BuildInitSpec(c, h.(swapFile := swap))
  {
    var h' := h.(swapFile := swap);
    var backing := c.fs.GetOr(Sandbox(h.freshSandbox));
    assert AssembleFs(c, h, backing) == AssembleFs(c, h', backing) by {
      match h.newWithPreopen(c.preopens, c.vfsPreopens, backing)
      case Err(_) =>
      case Ok(fs0) =>
        assert swap(fs0, STDIN_FILENO, c.stdin.GetOr(DefaultStdin)) == h.swapFile(fs0, STDIN_FILENO, c.stdin.GetOr(DefaultStdin));
        match h.swapFile(fs0, STDIN_FILENO, c.stdin.GetOr(DefaultStdin))
        case Err(_) =>
        case Ok(fs1) =>
          if c.stderr.Some? {
            assert swap(fs1, STDERR_FILENO, c.stderr.value) == h.swapFile(fs1, STDERR_FILENO, c.stderr.value);
          }
    }
  }

  /** Without a stderr override, slot 2 is never swapped (builder.rs
      672-676). */
  lemma BuildInitStderrOnlyWhenOverridden(c: BuilderConfig, h: Host, swap: (FsState, nat, VirtualFile) -> Result<FsState, FsError>)
    requires c.stderr.None?
    requires forall f, fd, file :: fd != STDERR_FILENO ==> swap(f, fd, file) == h.swapFile(f, fd, file)
    ensures BuildInitSpec(c, h) == BuildInitSpec(c, h.(swapFile := swap))
  {
    var h' := h.(swapFile := swap);
    var backing := c.fs.GetOr(Sandbox(h.freshSandbox));
    assert AssembleFs(c, h, backing) == AssembleFs(c, h', backing) by {
      match h.newWithPreopen(c.preopens, c.vfsPreopens, backing)
      case Err(_) =>
      case Ok(fs0) =>
        assert swap(fs0, STDIN_FILENO, c.stdin.GetOr(DefaultStdin)) == h.swapFile(fs0, STDIN_FILENO, c.stdin.GetOr(DefaultStdin));
        match h.swapFile(fs0, STDIN_FILENO, c.stdin.GetOr(DefaultStdin))
        case Err(_) =>
        case Ok(fs1) =>
          if c.stdout.Some? {
            assert swap(fs1, STDOUT_FILENO, c.stdout.value) == h.swapFile(fs1, STDOUT_FILENO, c.stdout.value);
          }
    }
  }

  /** Appends `PreopenedDir(dir, None, true, true, true)` for each directory. */
  function PlainPreopens(dirs: seq<Bytes>): (r: seq<PreopenedDir>)
    ensures |r| == |dirs|
  {
    seq(|dirs|, i requires 0 <= i < |dirs| => PreopenedDir(dirs[i], None, true, true, true))
  }

  /** The preopens `map_dir` builds for `(alias, dir)` pairs. */
  function MappedPreopens(mapped: seq<(Bytes, Bytes)>): (r: seq<PreopenedDir>)
    ensures |r| == |mapped|
  {
    seq(|mapped|, i requires 0 <= i < |mapped| => MappedEntry(mapped[i].0, mapped[i].1))
  }

  /** The preopen `map_dir(alias, dir)` appends. */
  function MappedEntry(alias: Bytes, dir: Bytes): PreopenedDir {
    PreopenedDir(dir, Some(TrimLeadingSlashes(alias)), true, true, true)
  }

  lemma MappedPreopensSnoc(mapped: seq<(Bytes, Bytes)>, i: nat)
    requires i < |mapped|
    ensures MappedPreopens(mapped[..i + 1]) == MappedPreopens(mapped[..i]) + [MappedEntry(mapped[i].0, mapped[i].1)]
  {
  }

  predicate AliasHasNul(pair: (Bytes, Bytes)) { NUL in pair.0 }

  /** `HashMap::insert` of each pair in turn. */
  function InsertAll(m: map<Bytes, Bytes>, pairs: seq<(Bytes, Bytes)>): (r: map<Bytes, Bytes>)
    ensures pairs != [] ==> pairs[|pairs| - 1].0 in r && r[pairs[|pairs| - 1].0] == pairs[|pairs| - 1].1
    decreases |pairs|
  {
    if pairs == [] then m
    else InsertAll(m, pairs[..|pairs| - 1])[pairs[|pairs| - 1].0 := pairs[|pairs| - 1].1]
  }

  /** Inserting pairs in turn: every name is mapped, to the target of its last
      occurrence; names not inserted keep their old target. */
  lemma {:induction false} InsertAllLastWins(m: map<Bytes, Bytes>, pairs: seq<(Bytes, Bytes)>)
    ensures forall k :: k in InsertAll(m, pairs) <==> k in m || exists i :: 0 <= i < |pairs| && pairs[i].0 == k
    ensures forall i :: 0 <= i < |pairs| && (forall j :: i < j < |pairs| ==> pairs[j].0 != pairs[i].0) ==>
              InsertAll(m, pairs)[pairs[i].0] == pairs[i].1
    ensures forall k :: k in m && (forall i :: 0 <= i < |pairs| ==> pairs[i].0 != k) ==> InsertAll(m, pairs)[k] == m[k]
    decreases |pairs|
  {
    if pairs != [] {
      var init := pairs[..|pairs| - 1];
      InsertAllLastWins(m, init);
      forall k ensures k in InsertAll(m, pairs) <==> k in m || exists i :: 0 <= i < |pairs| && pairs[i].0 == k {
        if exists i :: 0 <= i < |pairs| && pairs[i].0 == k {
          var i :| 0 <= i < |pairs| && pairs[i].0 == k;
          if i < |pairs| - 1 {
            assert init[i].0 == k;
          }
        }
      }
      var last := pairs[|pairs| - 1];
      forall i | 0 <= i < |pairs| && (forall j :: i < j < |pairs| ==> pairs[j].0 != pairs[i].0)
        ensures InsertAll(m, pairs)[pairs[i].0] == pairs[i].1
      {
        if i < |pairs| - 1 {
          assert init[i] == pairs[i] && last.0 != pairs[i].0;
          assert forall j :: i < j < |init| ==> init[j].0 != init[i].0;
        }
      }
      forall k | k in m && (forall i :: 0 <= i < |pairs| ==> pairs[i].0 != k)
        ensures InsertAll(m, pairs)[k] == m[k]
      {
        assert last.0 != k;
        assert forall i :: 0 <= i < |init| ==> init[i].0 != k;
      }
    }
  }

  /** The closure of `preopen_build` run on a fresh `PreopenDirBuilder`,
      then `build` (builder.rs 416-421). */
  method RunPreopenBuild(steps: seq<PreopenStep>) returns (built: Result<PreopenedDir, WasiStateCreationError>)
    ensures built == BuildPreopen(ApplyAll(EmptyConfig, steps))
  {
    var pdb := new PreopenDirBuilder();
    var i := 0;
    while i < |steps|
      invariant 0 <= i <= |steps|
      invariant pdb.Config() == ApplyAll(EmptyConfig, steps[..i])
    {
      pdb.Perform(steps[i]);
      assert steps[..i + 1][..i] == steps[..i];
      i := i + 1;
    }
    assert steps[..i] == steps;
    built := pdb.Build();
  }

  /** The `PreopenDirBuilder` calls of `add_map_dir` (builder.rs 456-464):
      it builds exactly the mapped preopen, and fails exactly when the alias
      holds a nul byte, naming the trimmed alias. */
  method BuildMapped(alias: Bytes, dir: Bytes) returns (built: Result<PreopenedDir, WasiStateCreationError>)
    ensures built.Ok? <==> NUL !in alias
    ensures built.Ok? ==> built.value == MappedEntry(alias, dir)
    ensures built.Err? ==> built.error == MappedDirAliasFormattingError(TrimLeadingSlashes(alias))
  {
    TrimKeepsNul(alias);
    var pdb := new PreopenDirBuilder();
    pdb.Directory(dir);
    pdb.Alias(alias);
    pdb.Read(true);
    pdb.Write(true);
    pdb.Create(true);
    built := pdb.Build();
  }

  /** The loop of `map_dirs` over a preopen list: the `PreopenDirBuilder`
      calls of `add_map_dir` for each pair in turn, appending each built
      preopen, up to the first alias holding a nul byte, whose error is returned. */
  method MapEach(preopens: seq<PreopenedDir>, mapped: seq<(Bytes, Bytes)>)
    returns (extended: seq<PreopenedDir>, r: Result<(), WasiStateCreationError>)
    ensures var i := FirstIndex(mapped, AliasHasNul);
      && r == (if i < |mapped| then Err(MappedDirAliasFormattingError(TrimLeadingSlashes(mapped[i].0))) else Ok(()))
      && extended == preopens + MappedPreopens(mapped[..i])
  {
    extended := preopens;
    var i := 0;
    while i < |mapped|
      invariant 0 <= i <= |mapped|
      invariant forall k :: 0 <= k < i ==> !AliasHasNul(mapped[k])
      invariant extended == preopens + MappedPreopens(mapped[..i])
    {
      var built := BuildMapped(mapped[i].0, mapped[i].1);
      if built.Err? {
        assert AliasHasNul(mapped[i]);
        FirstIndexAt(mapped, AliasHasNul, i);
        return extended, Err(built.error);
      }
      MappedPreopensSnoc(mapped, i);
      extended := extended + [built.value];
      i := i + 1;
    }
    FirstIndexAt(mapped, AliasHasNul, i);
    assert mapped[..i] == mapped;
    return extended, Ok(());
  }

  class WasiEnvBuilder {
    var args: seq<Bytes>
    var envs: seq<(Bytes, Bytes)>
    var preopens: seq<PreopenedDir>
    var vfsPreopens: seq<Bytes>
    var setupFsFn: Option<SetupFsFn>
    var stdout: Option<VirtualFile>
    var stderr: Option<VirtualFile>
    var stdin: Option<VirtualFile>
    var fs: Option<FsRoot>
    var runtime: Option<RuntimeHandle>
    var uses: seq<BinaryPackage>
    var mapCommands: map<Bytes, Bytes>
    var capabilities: Capabilities

    /** The builder's fields as a value. */
    function Snapshot(): BuilderConfig
      reads this
    {
      BuilderConfig(args, envs, preopens, vfsPreopens, setupFsFn, stdout, stderr, stdin, fs, runtime, uses,
                    mapCommands, capabilities)
    }

    /** `new(program_name)`; `defaultCapabilities` stands for `Capabilities::default()`. */
    constructor (programName: Bytes, defaultCapabilities: Capabilities)
      ensures Snapshot() == NewConfig(programName, defaultCapabilities)
      ensures args == [programName]
    {
      args, envs, preopens, vfsPreopens := [programName], [], [], [];
      setupFsFn, stdout, stderr, stdin := None, None, None, None;
      fs, runtime, uses, mapCommands := None, None, [], map[];
      capabilities := defaultCapabilities;
    }

    /** `add_env` / `env` */
    method AddEnv(key: Bytes, value: Bytes)
      modifies this
      ensures Snapshot() == old(Snapshot()).(envs := old(envs) + [(key, value)])
    {
      envs := envs + [(key, value)];
    }

    /** `add_envs` / `envs`: `add_env` for each pair, in order. */
    method AddEnvs(pairs: seq<(Bytes, Bytes)>)
      modifies this
      ensures Snapshot() == old(Snapshot()).(envs := old(envs) + pairs)
    {
      var i := 0;
      while i < |pairs|
        invariant 0 <= i <= |pairs|
        invariant Snapshot() == old(Snapshot()).(envs := old(envs) + pairs[..i])
      {
        AddEnv(pairs[i].0, pairs[i].1);
        assert pairs[..i + 1] == pairs[..i] + [pairs[i]];
        i := i + 1;
      }
      assert pairs[..i] == pairs;
    }

    /** `add_arg` / `arg` */
    method AddArg(arg: Bytes)
      modifies this
      ensures Snapshot() == old(Snapshot()).(args := old(args) + [arg])
    {
      args := args + [arg];
    }

    /** `add_args` / `args`: `add_arg` for each argument, in order. */
    method AddArgs(newArgs: seq<Bytes>)
      modifies this
      ensures Snapshot() == old(Snapshot()).(args := old(args) + newArgs)
    {
      var i := 0;
      while i < |newArgs|
        invariant 0 <= i <= |newArgs|
        invariant Snapshot() == old(Snapshot()).(args := old(args) + newArgs[..i])
      {
        AddArg(newArgs[i]);
        assert newArgs[..i + 1] == newArgs[..i] + [newArgs[i]];
        i := i + 1;
      }
      assert newArgs[..i] == newArgs;
    }

    /** `add_webc` / `use_webc` */
    method AddWebc(pkg: BinaryPackage)
      modifies this
      ensures Snapshot() == old(Snapshot()).(uses := old(uses) + [pkg])
    {
      uses := uses + [pkg];
    }

    /** `uses`: `add_webc` for each package, in order. */
    method Uses(pkgs: seq<BinaryPackage>)
      modifies this
      ensures Snapshot() == old(Snapshot()).(uses := old(uses) + pkgs)
    {
      var i := 0;
      while i < |pkgs|
        invariant 0 <= i <= |pkgs|
        invariant Snapshot() == old(Snapshot()).(uses := old(uses) + pkgs[..i])
      {
        AddWebc(pkgs[i]);
        assert pkgs[..i + 1] == pkgs[..i] + [pkgs[i]];
        i := i + 1;
      }
      assert pkgs[..i] == pkgs;
    }

    /** `map_command`: a later mapping of the same name replaces the earlier one. */
    method MapCommand(name: Bytes, target: Bytes)
      modifies this
      ensures Snapshot() == old(Snapshot()).(mapCommands := old(mapCommands)[name := target])
    {
      mapCommands := mapCommands[name := target];
    }

    /** `map_commands`: `map_command` for each pair, in order. */
    method MapCommands(pairs: seq<(Bytes, Bytes)>)
      modifies this
      ensures Snapshot() == old(Snapshot()).(mapCommands := InsertAll(old(mapCommands), pairs))
    {
      var i := 0;
      while i < |pairs|
        invariant 0 <= i <= |pairs|
        invariant Snapshot() == old(Snapshot()).(mapCommands := InsertAll(old(mapCommands), pairs[..i]))
      {
        MapCommand(pairs[i].0, pairs[i].1);
        assert pairs[..i + 1][..i] == pairs[..i];
        i := i + 1;
      }
      assert pairs[..i] == pairs;
    }

    /** `add_preopen_dir` / `preopen_dir`: a read-write-create preopen of `dir`
        with no alias; it never fails. */
    method AddPreopenDir(dir: Bytes) returns (r: Result<(), WasiStateCreationError>)
      modifies this
      ensures r == Ok(())
      ensures Snapshot() == old(Snapshot()).(preopens := old(preopens) + [PreopenedDir(dir, None, true, true, true)])
    {
      var pdb := new PreopenDirBuilder();
      pdb.Directory(dir);
      pdb.Read(true);
      pdb.Write(true);
      pdb.Create(true);
      var built := pdb.Build();
      assert built.Ok?;
      preopens := preopens + [built.value];
      return Ok(());
    }

    /** `preopen_dirs`: `add_preopen_dir` for each directory, in order. */
    method PreopenDirs(dirs: seq<Bytes>) returns (r: Result<(), WasiStateCreationError>)
      modifies this
      ensures r == Ok(())
      ensures Snapshot() == old(Snapshot()).(preopens := old(preopens) + PlainPreopens(dirs))
    {
      var i := 0;
      while i < |dirs|
        invariant 0 <= i <= |dirs|
        invariant Snapshot() == old(Snapshot()).(preopens := old(preopens) + PlainPreopens(dirs[..i]))
      {
        var step := AddPreopenDir(dirs[i]);
        assert PlainPreopens(dirs[..i + 1]) == PlainPreopens(dirs[..i]) + [PreopenedDir(dirs[i], None, true, true, true)];
        i := i + 1;
      }
      assert dirs[..i] == dirs;
      return Ok(());
    }

    /** `add_preopen_build` / `preopen_build`: the closure's calls are run on
        a fresh `PreopenDirBuilder`, and the built preopen is appended. */
    method AddPreopenBuild(steps: seq<PreopenStep>) returns (r: Result<(), WasiStateCreationError>)
      modifies this
      ensures var built := BuildPreopen(ApplyAll(EmptyConfig, steps));
        && (r.Ok? <==> built.Ok?)
        && (r.Err? ==> r.error == built.error && Snapshot() == old(Snapshot()))
        && (r.Ok? ==> Snapshot() == old(Snapshot()).(preopens := old(preopens) + [built.value]))
    {
      var built := RunPreopenBuild(steps);
      if built.Err? {
        return Err(built.error);
      }
      preopens := preopens + [built.value];
      return Ok(());
    }

    /** `preopen_vfs_dirs`: appends each virtual path, in order; never fails. */
    method PreopenVfsDirs(dirs: seq<Bytes>) returns (r: Result<(), WasiStateCreationError>)
      modifies this
      ensures r == Ok(())
      ensures Snapshot() == old(Snapshot()).(vfsPreopens := old(vfsPreopens) + dirs)
    {
      var i := 0;
      while i < |dirs|
        invariant 0 <= i <= |dirs|
        invariant Snapshot() == old(Snapshot()).(vfsPreopens := old(vfsPreopens) + dirs[..i])
      {
        vfsPreopens := vfsPreopens + [dirs[i]];
        assert dirs[..i + 1] == dirs[..i] + [dirs[i]];
        i := i + 1;
      }
      assert dirs[..i] == dirs;
      return Ok(());
    }

    /** `add_map_dir` / `map_dir`: a read-write-create preopen of `dir` under
        `alias` without its leading '/'; fails, changing nothing, when the
        alias holds a nul byte. */
    method AddMapDir(alias: Bytes, dir: Bytes) returns (r: Result<(), WasiStateCreationError>)
      modifies this
      ensures r.Ok? <==> NUL !in alias
      ensures r.Err? ==> r.error == MappedDirAliasFormattingError(TrimLeadingSlashes(alias)) && Snapshot() == old(Snapshot())
      ensures r.Ok? ==> Snapshot() == old(Snapshot()).(preopens := old(preopens) + [MappedEntry(alias, dir)])
    {
      ghost var before := Snapshot();
      var built := BuildMapped(alias, dir);
      if built.Err? {
        assert Snapshot() == before;
        return Err(built.error);
      }
      assert built.value == MappedEntry(alias, dir);
      preopens := preopens + [built.value];
      assert Snapshot() == before.(preopens := before.preopens + [MappedEntry(alias, dir)]);
      return Ok(());
    }

    /** `map_dirs`: `add_map_dir` for each pair, stopping at the first alias
        holding a nul byte (the preopens mapped before it stay appended). */
    method MapDirs(mapped: seq<(Bytes, Bytes)>) returns (r: Result<(), WasiStateCreationError>)
      modifies this
      ensures var i := FirstIndex(mapped, AliasHasNul);
        && r == (if i < |mapped| then Err(MappedDirAliasFormattingError(TrimLeadingSlashes(mapped[i].0))) else Ok(()))
        && Snapshot() == old(Snapshot()).(preopens := old(preopens) + MappedPreopens(mapped[..i]))
    {
      var extended;
      extended, r := MapEach(preopens, mapped);
      preopens := extended;
    }

    /** `set_stdout` / `stdout`: the last override wins. */
    method SetStdout(file: VirtualFile)
      modifies this
      ensures Snapshot() == old(Snapshot()).(stdout := Some(file))
    {
      stdout := Some(file);
    }

    /** `set_stderr` / `stderr` */
    method SetStderr(file: VirtualFile)
      modifies this
      ensures Snapshot() == old(Snapshot()).(stderr := Some(file))
    {
      stderr := Some(file);
    }

    /** `set_stdin` / `stdin` */
    method SetStdin(file: VirtualFile)
      modifies this
      ensures Snapshot() == old(Snapshot()).(stdin := Some(file))
    {
      stdin := Some(file);
    }

    /** `set_fs` / `fs`: selects an external backing, replacing any earlier selection. */
    method SetFs(backing: nat)
      modifies this
      ensures Snapshot() == old(Snapshot()).(fs := Some(Backing(backing)))
    {
      fs := Some(Backing(backing));
    }

    /** `sandbox_fs`: selects a sandbox, replacing any earlier selection. */
    method SandboxFs(tmpFs: nat)
      modifies this
      ensures Snapshot() == old(Snapshot()).(fs := Some(Sandbox(tmpFs)))
    {
      fs := Some(Sandbox(tmpFs));
    }

    /** `setup_fs` */
    method SetupFs(setup: SetupFsFn)
      modifies this
      ensures Snapshot() == old(Snapshot()).(setupFsFn := Some(setup))
    {
      setupFsFn := Some(setup);
    }

    /** `set_runtime` / `runtime` */
    method SetRuntime(rt: RuntimeHandle)
      modifies this
      ensures Snapshot() == old(Snapshot()).(runtime := Some(rt))
    {
      runtime := Some(rt);
    }

    /** `set_capabilities` / `capabilities` */
    method SetCapabilities(caps: Capabilities)
      modifies this
      ensures Snapshot() == old(Snapshot()).(capabilities := caps)
    {
      capabilities := caps;
    }

    /** `build_init`: the arguments are checked, then the environment pairs,
        with an early return at the first fault; only then is anything assembled. */
    method BuildInit(h: Host) returns (r: Result<WasiEnvInit, WasiStateCreationError>)
      ensures r == BuildInitSpec(Snapshot(), h)
    {
      var checked := CheckArgs(args);
      if checked.Err? {
        return Err(checked.error);
      }
      checked := CheckEnvs(envs);
      if checked.Err? {
        return Err(checked.error);
      }
      r := Assemble(Snapshot(), h);
    }
  }

  /** The argument loop of `build_init` (builder.rs 584-590): each argument is
      scanned byte by byte, and the first one holding a nul byte is reported. */
  method CheckArgs(args: seq<Bytes>) returns (r: Result<(), WasiStateCreationError>)
    ensures r == ValidateArgs(args)
  {
    var i := 0;
    while i < |args|
      invariant 0 <= i <= |args|
      invariant forall k :: 0 <= k < i ==> !ContainsNul(args[k])
    {
      var arg := args[i];
      var j := 0;
      while j < |arg|
        invariant 0 <= j <= |arg|
        invariant forall m :: 0 <= m < j ==> arg[m] != NUL
      {
        if arg[j] == NUL {
          FirstIndexAt(args, ContainsNul, i);
          return Err(ArgumentContainsNulByte(arg));
        }
        j := j + 1;
      }
      i := i + 1;
    }
    FirstIndexAt(args, ContainsNul, |args|);
    return Ok(());
  }

  /** The check of one pair in `build_init` (builder.rs 597-631): the
      `find_map` over the key for the first nul or '=' byte, then the scan of
      the value for a nul byte. */
  method CheckPair(key: Bytes, value: Bytes) returns (fault: Option<EnvFormatFault>)
    ensures fault == PairFault(key, value)
  {
    var j := 0;
    while j < |key|
      invariant 0 <= j <= |key|
      invariant forall m :: 0 <= m < j ==> !IsKeyFault(key[m])
    {
      if key[j] == NUL {
        FirstIndexAt(key, IsKeyFault, j);
        return Some(NulInKey(key));
      } else if key[j] == EQUALS {
        FirstIndexAt(key, IsKeyFault, j);
        return Some(EqualInKey(key));
      }
      j := j + 1;
    }
    FirstIndexAt(key, IsKeyFault, |key|);
    j := 0;
    while j < |value|
      invariant 0 <= j <= |value|
      invariant forall m :: 0 <= m < j ==> value[m] != NUL
    {
      if value[j] == NUL {
        return Some(NulInValue(value));
      }
      j := j + 1;
    }
    return None;
  }

  /** The environment loop of `build_init` (builder.rs 592-633): the first
      rejected pair is reported. */
  method CheckEnvs(envs: seq<(Bytes, Bytes)>) returns (r: Result<(), WasiStateCreationError>)
    ensures r == ValidateEnvs(envs)
  {
    var i := 0;
    while i < |envs|
      invariant 0 <= i <= |envs|
      invariant forall k :: 0 <= k < i ==> !PairRejected(envs[k])
    {
      var fault := CheckPair(envs[i].0, envs[i].1);
      if fault.Some? {
        FirstIndexAt(envs, PairRejected, i);
        return Err(EnvironmentVariableFormatError(fault.value));
      }
      i := i + 1;
    }
    FirstIndexAt(envs, PairRejected, |envs|);
    return Ok(());
  }

  /** `WasiEnvBuilder::new(program).env(key, value).build_init()`, the shape of
      the test `env_var_errors` (builder.rs 1097-1134): a rejected pair is
      reported as such; an accepted one becomes the single `key=value` string
      when the filesystem does not fail. */
  method BuildWithOneEnv(h: Host, caps: Capabilities, program: Bytes, key: Bytes, value: Bytes)
    returns (r: Result<WasiEnvInit, WasiStateCreationError>)
    requires NUL !in program
    ensures PairRejected((key, value)) ==> r == Err(EnvironmentVariableFormatError(PairFault(key, value).value))
    ensures Permissive(h) && !PairRejected((key, value)) ==> r.Ok? && r.value.state.envs == [key + [EQUALS] + value]
  {
    var b := new WasiEnvBuilder(program, caps);
    b.AddEnv(key, value);
    r := b.BuildInit(h);
    var c := b.Snapshot();
    FirstIndexAt(c.args, ContainsNul, 1);
    if PairRejected((key, value)) {
      FirstIndexAt(c.envs, PairRejected, 0);
    } else {
      PairVerdict(key, value);
      if Permissive(h) {
        BuildInitAcceptsValidInputs(c, h);
        BuildInitAssembles(c, h);
      }
    }
  }

  /** `WasiEnvBuilder::new(program).args(extra).build_init()`, the shape of the
      test `nul_character_in_args` (builder.rs 1136-1155): the first argument
      holding a nul byte is reported; with none, and a filesystem that does
      not fail, the arguments come back unchanged, there are no environment
      strings, and the root is a fresh sandbox. */
  method BuildWithArgs(h: Host, caps: Capabilities, program: Bytes, extra: seq<Bytes>)
    returns (r: Result<WasiEnvInit, WasiStateCreationError>)
    ensures var all := [program] + extra;
      && (r.Err? && r.error.ArgumentContainsNulByte? ==>
            exists j :: 0 <= j < |all| && NUL in all[j] && r.error.arg == all[j] && forall k :: 0 <= k < j ==> NUL !in all[k])
      && ((exists j :: 0 <= j < |all| && NUL in all[j]) ==> r.Err? && r.error.ArgumentContainsNulByte?)
      && (Permissive(h) && (forall j :: 0 <= j < |all| ==> NUL !in all[j]) ==>
            && r.Ok?
            && r.value.state.args == all
            && r.value.state.envs == []
            && r.value.state.fs.rootFs == Sandbox(h.freshSandbox))
  {
    var b := new WasiEnvBuilder(program, caps);
    b.AddArgs(extra);
    r := b.BuildInit(h);
    ghost var c := b.Snapshot();
    ArgsVerdict(c.args);
    if Permissive(h) && ValidateArgs(c.args).Ok? {
      BuildInitAcceptsValidInputs(c, h);
      BuildInitAssembles(c, h);
    }
  }
}
