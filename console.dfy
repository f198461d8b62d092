/// `Console` (lib/wasix/src/os/console/mod.rs): a staging object for a
/// terminal session that records a boot command, the packages it uses and
/// presentation settings, and whose `run` turns the boot command into a
/// package, a program name and arguments for a `WasiEnvBuilder`.
module OsConsole {
  import opened WasixTypes
  import opened Preopen
  import opened EnvBuilder

  /** The `SpawnError` variants `run` produces in the modelled part. */
  datatype SpawnError = InternalError | BadRequest | NotFound

  /** `str::split_once(sep)`: the text before and after the first `sep`. */
  function SplitOnce(s: Bytes, sep: Byte): (r: Option<(Bytes, Bytes)>)
    ensures r.None? <==> sep !in s
    ensures r.Some? ==> s == r.value.0 + [sep] + r.value.1 && sep !in r.value.0
  {
    var i := FirstIndex(s, (b: Byte) => b == sep);
    if i < |s| then
      assert s == s[..i] + [sep] + s[i + 1..];
      Some((s[..i], s[i + 1..]))
    else
      None
  }

  /** What SplitOnce promises determines it: a split at a separator with no
      separator before it is the first split. */
  lemma SplitOnceUnique(a: Bytes, sep: Byte, b: Bytes)
    requires sep !in a
    ensures SplitOnce(a + [sep] + b, sep) == Some((a, b))
  {
    var s := a + [sep] + b;
    FirstIndexAt(s, (x: Byte) => x == sep, |a|);
    assert s[..|a|] == a;
    assert s[|a| + 1..] == b;
  }

  /** `str::split(sep)`: every piece between separators, empty ones included. */
  function SplitAll(s: Bytes, sep: Byte): (r: seq<Bytes>)
    ensures |r| >= 1
    ensures forall i :: 0 <= i < |r| ==> sep !in r[i]
    decreases |s|
  {
    match SplitOnce(s, sep)
    case None => [s]
    case Some((before, after)) => [before] + SplitAll(after, sep)
  }

  /** Every piece of a split is made of bytes of the text. */
  lemma {:induction false} SplitAllFromText(s: Bytes, sep: Byte, b: Byte)
    requires b !in s
    ensures forall i :: 0 <= i < |SplitAll(s, sep)| ==> b !in SplitAll(s, sep)[i]
    decreases |s|
  {
    var split := SplitOnce(s, sep);
    if split.Some? {
      var before, after := split.value.0, split.value.1;
      assert forall k :: 0 <= k < |before| ==> before[k] == s[k];
      assert forall k :: 0 <= k < |after| ==> after[k] == s[|before| + 1 + k];
      SplitAllFromText(after, sep, b);
      var pieces, rest := SplitAll(s, sep), SplitAll(after, sep);
      assert pieces == [before] + rest;
      forall i | 0 <= i < |pieces| ensures b !in pieces[i] {
        if i > 0 {
          assert pieces[i] == rest[i - 1];
        }
      }
    }
  }

  /** `[T]::join(sep)`: the pieces with one separator between neighbours. */
  function Join(pieces: seq<Bytes>, sep: Byte): Bytes
    requires |pieces| >= 1
    decreases |pieces|
  {
    if |pieces| == 1 then pieces[0] else pieces[0] + [sep] + Join(pieces[1..], sep)
  }

  /** Joining the pieces of a split gives back the text. */
  lemma {:induction false} JoinSplitAll(s: Bytes, sep: Byte)
    ensures Join(SplitAll(s, sep), sep) == s
    decreases |s|
  {
    match SplitOnce(s, sep)
    case None =>
    case Some((before, after)) =>
      JoinSplitAll(after, sep);
      assert SplitAll(s, sep)[1..] == SplitAll(after, sep);
  }

  /** Splitting a join of separator-free pieces gives back the pieces. */
  lemma {:induction false} SplitAllJoin(pieces: seq<Bytes>, sep: Byte)
    requires |pieces| >= 1
    requires forall i :: 0 <= i < |pieces| ==> sep !in pieces[i]
    ensures SplitAll(Join(pieces, sep), sep) == pieces
    decreases |pieces|
  {
    if |pieces| > 1 {
      SplitAllJoin(pieces[1..], sep);
      assert sep !in pieces[0];
      SplitOnceUnique(pieces[0], sep, Join(pieces[1..], sep));
      assert SplitAll(Join(pieces, sep), sep) == [pieces[0]] + pieces[1..];
    } else {
      assert sep !in pieces[0];
    }
  }

  /** The program name of a package id: the text after its first '/', or the
      whole id when it has none. */
  function ProgOf(webc: Bytes): (prog: Bytes)
    ensures SLASH in webc ==> exists ns :: SLASH !in ns && webc == ns + [SLASH] + prog
    ensures SLASH !in webc ==> prog == webc
  {
    match SplitOnce(webc, SLASH)
    case Some((ns, after)) => after
    case None => webc
  }

  /** `run`'s reading of the boot command. */
  datatype BootCommand = BootCommand(webc: Bytes, prog: Bytes, args: seq<Bytes>)

  /** The boot-command split of `run`: the package id is the text before the
      first space and the arguments are the rest split at every space; without
      a space the whole command is the package id and there are no arguments. */
  function SplitBootCmd(cmd: Bytes): (r: BootCommand)
    ensures r.webc <= cmd && SPACE !in r.webc
    ensures r.prog == ProgOf(r.webc)
    ensures r.args == [] ==> r.webc == cmd
  {
    match SplitOnce(cmd, SPACE)
    case Some((webc, rest)) => BootCommand(webc, ProgOf(webc), SplitAll(rest, SPACE))
    case None => BootCommand(cmd, ProgOf(cmd), [])
  }

  /** The split loses nothing: the package id has no space, there are
      arguments exactly when the command has a space, no argument holds a
      space, and package id and arguments joined by spaces give the command back. */
  lemma SplitBootCmdReconstructs(cmd: Bytes)
    ensures var bc := SplitBootCmd(cmd);
      && SPACE !in bc.webc
      && (bc.args == [] <==> SPACE !in cmd)
      && (forall i :: 0 <= i < |bc.args| ==> SPACE !in bc.args[i])
      && cmd == (if bc.args == [] then bc.webc else bc.webc + [SPACE] + Join(bc.args, SPACE))
      && bc.prog == ProgOf(bc.webc)
  {
    match SplitOnce(cmd, SPACE)
    case None =>
    case Some((webc, rest)) => JoinSplitAll(rest, SPACE);
  }

  /** Conversely, a package id and a non-empty list of arguments, none holding
      a space, are recovered from the command they form. */
  lemma SplitBootCmdOfJoin(webc: Bytes, args: seq<Bytes>)
    requires SPACE !in webc && |args| >= 1
    requires forall i :: 0 <= i < |args| ==> SPACE !in args[i]
    ensures SplitBootCmd(webc + [SPACE] + Join(args, SPACE)) == BootCommand(webc, ProgOf(webc), args)
  {
    SplitOnceUnique(webc, SPACE, Join(args, SPACE));
    SplitAllJoin(args, SPACE);
  }

  /** A boot command whose argument text has a trailing space keeps an empty
      last argument, as `str::split` does. */
  lemma TrailingSpaceKeepsEmptyArgument(webc: Bytes, arg: Bytes)
    requires SPACE !in webc && SPACE !in arg
    ensures SplitBootCmd(webc + [SPACE] + arg + [SPACE]).args == [arg, []]
  {
    var pieces: seq<Bytes> := [arg, []];
    assert pieces[1..] == [[]];
    assert Join(pieces, SPACE) == arg + [SPACE] + [];
    SplitBootCmdOfJoin(webc, pieces);
    assert webc + [SPACE] + arg + [SPACE] == webc + [SPACE] + Join(pieces, SPACE);
  }

  /** The package `Console::new` registers, as written: the text AFTER the
      first space, i.e. the first argument rather than the package. */
  function NewConsoleUse(bootPackage: Bytes): (r: Bytes)
    ensures SPACE !in bootPackage ==> r == bootPackage
    ensures SPACE in bootPackage ==> exists before :: SPACE !in before && bootPackage == before + [SPACE] + r
  {
    match SplitOnce(bootPackage, SPACE)
    case Some((_, after)) => after
    case None => bootPackage
  }

  /** The package a boot command needs: the text before its first space, as
      `with_boot_cmd` registers it. */
  function BootPackage(cmd: Bytes): (r: Bytes)
    ensures SPACE !in r
    ensures SPACE !in cmd ==> r == cmd
    ensures SPACE in cmd ==> exists rest :: cmd == r + [SPACE] + rest
  {
    match SplitOnce(cmd, SPACE)
    case Some((before, _)) => before
    case None => cmd
  }

  /** The package a boot command needs is the one `run` resolves. */
  lemma BootPackageIsWebc(cmd: Bytes)
    ensures BootPackage(cmd) == SplitBootCmd(cmd).webc
  {
  }

  /** For a boot command with arguments, `Console::new` registers the text
      after the first space, while `run` resolves the text before it. */
  lemma NewConsoleUseIsArgumentText(webc: Bytes, rest: Bytes)
    requires SPACE !in webc
    ensures NewConsoleUse(webc + [SPACE] + rest) == rest
    ensures BootPackage(webc + [SPACE] + rest) == webc == SplitBootCmd(webc + [SPACE] + rest).webc
  {
    SplitOnceUnique(webc, SPACE, rest);
  }

  /** A boot command with an argument: `Console::new` registers the argument
      as a package, not the package `run` resolves. */
  lemma NewConsoleRegistersArgument()
    ensures var cmd := Ascii("sharrattj/bash") + [SPACE] + Ascii("--norc");
      && NewConsoleUse(cmd) == Ascii("--norc")
      && BootPackage(cmd) == Ascii("sharrattj/bash")
      && NewConsoleUse(cmd) != SplitBootCmd(cmd).webc
  {
    var webc, arg := Ascii("sharrattj/bash"), Ascii("--norc");
    assert forall i :: 0 <= i < |webc| ==> webc[i] != SPACE;
    NewConsoleUseIsArgumentText(webc, arg);
    assert webc[0] != arg[0];
  }

  /** The root filesystem variant check of `run`: a configured memory limiter
      is installed on a sandbox root (`Ok(Some(limiter))`); on a backing root
      it is a `BadRequest`; with no limiter nothing is checked (`Ok(None)`). */
  function ApplyLimiter(root: FsRoot, limiter: Option<nat>): (r: Result<Option<nat>, SpawnError>)
    ensures r == Err(BadRequest) <==> limiter.Some? && root.Backing?
    ensures r.Err? ==> r == Err(BadRequest)
    ensures r.Ok? && r.value.Some? ==> root.Sandbox? && r.value == limiter
    ensures limiter.None? ==> r == Ok(None)
  {
    match limiter
    case None => Ok(None)
    case Some(l) =>
      match root
      case Sandbox(_) => Ok(Some(l))
      case Backing(_) => Err(BadRequest)
  }

  /** The banner sizes of `draw_welcome`. */
  datatype Welcome = WelcomeMedium | WelcomeSmall | WelcomeLarge

  /** `draw_welcome`'s choice: mobile wins over ssh. */
  function WelcomeFor(isMobile: bool, isSsh: bool): (w: Welcome)
    ensures w == WelcomeMedium <==> isMobile
    ensures w == WelcomeSmall <==> !isMobile && isSsh
    ensures w == WelcomeLarge <==> !isMobile && !isSsh
  {
    match (isMobile, isSsh)
    case (true, _) => WelcomeMedium
    case (_, true) => WelcomeSmall
    case (_, _) => WelcomeLarge
  }

  /** The fields of a `Console`, as a value. */
  datatype ConsoleState = ConsoleState(
    userAgent: Option<Bytes>,
    bootCmd: Bytes,
    uses: set<Bytes>,
    isMobile: bool,
    isSsh: bool,
    whitelabel: bool,
    token: Option<Bytes>,
    noWelcome: bool,
    prompt: Bytes,
    env: map<Bytes, Bytes>,
    runtime: RuntimeHandle,
    stdin: VirtualFile,
    stdout: VirtualFile,
    stderr: VirtualFile,
    capabilities: Capabilities,
    memfsMemoryLimiter: Option<nat>)

  /** `pairs` lists every entry of `m` once, in some order (the iteration
      order of a `HashMap` is not specified). */
  ghost predicate Enumerates(pairs: seq<(Bytes, Bytes)>, m: map<Bytes, Bytes>) {
    && (forall i :: 0 <= i < |pairs| ==> pairs[i].0 in m && m[pairs[i].0] == pairs[i].1)
    && (forall i, j :: 0 <= i < j < |pairs| ==> pairs[i].0 != pairs[j].0)
    && (forall k :: k in m ==> exists i :: 0 <= i < |pairs| && pairs[i].0 == k)
  }

  /** The builder configuration `run` assembles (lines 183-195), call by
      call: a builder for the program name, then stdin, the arguments, the
      environment and the sandbox root, then the root preopen and "." mapped
      to "/", then stdout, stderr, the runtime and the capabilities. */
  function RunConfig(s: ConsoleState, envPairs: seq<(Bytes, Bytes)>, rootFs: nat): BuilderConfig {
    var bc := SplitBootCmd(s.bootCmd);
    var started := NewConfig(bc.prog, s.capabilities).(stdin := Some(s.stdin), args := [bc.prog] + bc.args,
                                                       envs := envPairs, fs := Some(Sandbox(rootFs)));
    started.(preopens := started.preopens + [PreopenedDir([SLASH], None, true, true, true)] + [MappedEntry([DOT], [SLASH])],
             stdout := Some(s.stdout), stderr := Some(s.stderr), runtime := Some(s.runtime), capabilities := s.capabilities)
  }

  /** What the modelled part of `run` hands on: the prepared environment, the
      package to resolve, the program to spawn, the limiter installed on the
      sandbox, and the banner drawn, if any. */
  datatype Launch = Launch(init: WasiEnvInit, webc: Bytes, prog: Bytes, limiter: Option<nat>, welcome: Option<Welcome>)

  class Console {
    var userAgent: Option<Bytes>
    var bootCmd: Bytes
    var uses: set<Bytes>
    var isMobile: bool
    var isSsh: bool
    var whitelabel: bool
    var token: Option<Bytes>
    var noWelcome: bool
    var prompt: Bytes
    var env: map<Bytes, Bytes>
    var runtime: RuntimeHandle
    var stdin: VirtualFile
    var stdout: VirtualFile
    var stderr: VirtualFile
    var capabilities: Capabilities
    var memfsMemoryLimiter: Option<nat>

    /** The console's fields as a value. */
    function State(): ConsoleState
      reads this
    {
      ConsoleState(userAgent, bootCmd, uses, isMobile, isSsh, whitelabel, token, noWelcome, prompt, env, runtime,
                   stdin, stdout, stderr, capabilities, memfsMemoryLimiter)
    }

    /** `Console::new`; `defaultCapabilities` stands for `Capabilities::default()`,
        and `pipes` identifies the three fresh `Pipe::channel()` objects.
        As written, the package registered is `NewConsoleUse(bootPackage)`. */
    constructor (bootPackage: Bytes, rt: RuntimeHandle, defaultCapabilities: Capabilities, pipes: (nat, nat, nat))
      requires pipes.0 != pipes.1 && pipes.0 != pipes.2 && pipes.1 != pipes.2
      ensures State() == ConsoleState(None, bootPackage, {NewConsoleUse(bootPackage)}, false, false, false, None, false,
                                      Ascii("wasmer.sh"), map[], rt, UnconnectedPipe(pipes.0), UnconnectedPipe(pipes.1),
                                      UnconnectedPipe(pipes.2), defaultCapabilities, None)
      ensures stdin != stdout && stdin != stderr && stdout != stderr
    {
      userAgent, bootCmd, uses := None, bootPackage, {NewConsoleUse(bootPackage)};
      isMobile, isSsh, whitelabel, token, noWelcome := false, false, false, None, false;
      prompt, env, runtime := Ascii("wasmer.sh"), map[], rt;
      stdin, stdout, stderr := UnconnectedPipe(pipes.0), UnconnectedPipe(pipes.1), UnconnectedPipe(pipes.2);
      capabilities, memfsMemoryLimiter := defaultCapabilities, None;
    }

    /** `with_prompt` */
    method WithPrompt(p: Bytes)
      modifies this
      ensures State() == old(State()).(prompt := p)
    {
      prompt := p;
    }

    /** `with_boot_cmd`: registers the command's package, keeps the packages
        already registered, and replaces the boot command. */
    method WithBootCmd(cmd: Bytes)
      modifies this
      ensures State() == old(State()).(bootCmd := cmd, uses := old(uses) + {BootPackage(cmd)})
      ensures SplitBootCmd(cmd).webc in uses && old(uses) <= uses
    {
      BootPackageIsWebc(cmd);
      uses := uses + {BootPackage(cmd)};
      bootCmd := cmd;
    }

    /** `with_uses`: the registered packages become exactly the distinct names listed. */
    method WithUses(names: seq<Bytes>)
      modifies this
      ensures State() == old(State()).(uses := set i | 0 <= i < |names| :: names[i])
      ensures forall n :: n in uses <==> n in names
    {
      uses := set i | 0 <= i < |names| :: names[i];
    }

    /** `with_env` */
    method WithEnv(e: map<Bytes, Bytes>)
      modifies this
      ensures State() == old(State()).(env := e)
    {
      env := e;
    }

    /** `with_user_agent`; `mobile` and `ssh` are what `is_mobile` and `is_ssh`
        report for `ua`. */
    method WithUserAgent(ua: Bytes, mobile: bool, ssh: bool)
      modifies this
      ensures State() == old(State()).(isMobile := mobile, isSsh := ssh, userAgent := Some(ua))
    {
      isMobile := mobile;
      isSsh := ssh;
      userAgent := Some(ua);
    }

    /** `with_no_welcome` */
    method WithNoWelcome(flag: bool)
      modifies this
      ensures State() == old(State()).(noWelcome := flag)
    {
      noWelcome := flag;
    }

    /** `with_token` */
    method WithToken(t: Bytes)
      modifies this
      ensures State() == old(State()).(token := Some(t))
    {
      token := Some(t);
    }

    /** `with_capabilities` */
    method WithCapabilities(caps: Capabilities)
      modifies this
      ensures State() == old(State()).(capabilities := caps)
    {
      capabilities := caps;
    }

    /** `with_stdin` */
    method WithStdin(file: VirtualFile)
      modifies this
      ensures State() == old(State()).(stdin := file)
    {
      stdin := file;
    }

    /** `with_stdout` */
    method WithStdout(file: VirtualFile)
      modifies this
      ensures State() == old(State()).(stdout := file)
    {
      stdout := file;
    }

    /** `with_stderr` */
    method WithStderr(file: VirtualFile)
      modifies this
      ensures State() == old(State()).(stderr := file)
    {
      stderr := file;
    }

    /** `with_mem_fs_memory_limiter` */
    method WithMemFsMemoryLimiter(limiter: nat)
      modifies this
      ensures State() == old(State()).(memfsMemoryLimiter := Some(limiter))
    {
      memfsMemoryLimiter := Some(limiter);
    }

    /** `run` up to the welcome banner (lines 154-220): split the boot command,
        configure a `WasiEnvBuilder` with `[prog] ++ args`, the environment,
        a sandbox root, the root preopen and "." mapped to "/", the stdio and
        the runtime; a failing `build_init` is an `InternalError`. `envPairs`
        is the iteration order of `env`; `rootFs` identifies the fresh root;
        `defaultCapabilities` stands for `Capabilities::default()`. */
    method Run(h: Host, envPairs: seq<(Bytes, Bytes)>, rootFs: nat, defaultCapabilities: Capabilities) returns (r: Result<Launch, SpawnError>)
      requires Enumerates(envPairs, env)
      ensures var bc := SplitBootCmd(bootCmd);
        && (r.Ok? <==> BuildInitSpec(RunConfig(State(), envPairs, rootFs), h).Ok?)
        && (r.Err? ==> r.error == InternalError)
        && (r.Ok? ==>
              && r.value.init == BuildInitSpec(RunConfig(State(), envPairs, rootFs), h).value
              && r.value.webc == bc.webc && r.value.prog == bc.prog
              && r.value.init.state.args == [bc.prog] + bc.args
              && r.value.init.state.fs.rootFs == Sandbox(rootFs)
              && r.value.limiter == memfsMemoryLimiter
              && r.value.welcome == (if !whitelabel && !noWelcome then Some(WelcomeFor(isMobile, isSsh)) else None))
    {
      var bc := SplitBootCmd(bootCmd);
      var b := ConfigureBuilder(State(), envPairs, rootFs, defaultCapabilities);
      var built := b.BuildInit(h);
      if built.Err? {
        return Err(InternalError);
      }
      var init := built.value;
      BuildInitAssembles(b.Snapshot(), h);
      var installed := ApplyLimiter(init.state.fs.rootFs, memfsMemoryLimiter);
      // the root is the sandbox `run` configured, so the check passes
      assert installed.Ok?;
      var welcome := None;
      if !whitelabel && !noWelcome {
        welcome := Some(WelcomeFor(isMobile, isSsh));
      }
      return Ok(Launch(init, bc.webc, bc.prog, installed.value, welcome));
    }
  }

  /** The first builder calls of `run` (lines 183-187): program name,
      stdin, arguments, environment and the sandbox root. `WasiEnv::builder`
      starts from `defaultCapabilities`, which stands for `Capabilities::default()`. */
  method StartBuilder(s: ConsoleState, envPairs: seq<(Bytes, Bytes)>, rootFs: nat, defaultCapabilities: Capabilities)
    returns (b: WasiEnvBuilder)
    ensures fresh(b)
    ensures var bc := SplitBootCmd(s.bootCmd);
      b.Snapshot() == NewConfig(bc.prog, defaultCapabilities).(stdin := Some(s.stdin), args := [bc.prog] + bc.args,
                                                               envs := envPairs, fs := Some(Sandbox(rootFs)))
  {
    var bc := SplitBootCmd(s.bootCmd);
    b := new WasiEnvBuilder(bc.prog, defaultCapabilities);
    b.SetStdin(s.stdin);
    b.AddArgs(bc.args);
    b.AddEnvs(envPairs);
    b.SandboxFs(rootFs);
  }

  /** `preopen_dir("/")` and `map_dir(".", "/")` (lines 188-191): neither can
      fail, so their `unwrap`s never panic. */
  method AddRunPreopens(b: WasiEnvBuilder)
    modifies b
    ensures b.Snapshot() == old(b.Snapshot()).(preopens :=
              old(b.preopens) + [PreopenedDir([SLASH], None, true, true, true)] + [MappedEntry([DOT], [SLASH])])
  {
    var preopened := b.AddPreopenDir([SLASH]);
    var mapped := b.AddMapDir([DOT], [SLASH]);
    assert mapped.Ok?;
  }

  /** The builder calls of `run` (lines 183-195); the capabilities the
      builder starts from are replaced by the console's at line 195. */
  method ConfigureBuilder(s: ConsoleState, envPairs: seq<(Bytes, Bytes)>, rootFs: nat, defaultCapabilities: Capabilities)
    returns (b: WasiEnvBuilder)
    ensures fresh(b)
    ensures b.Snapshot() == RunConfig(s, envPairs, rootFs)
  {
    b := StartBuilder(s, envPairs, rootFs, defaultCapabilities);
    AddRunPreopens(b);
    b.SetStdout(s.stdout);
    b.SetStderr(s.stderr);
    b.SetRuntime(s.runtime);
    b.SetCapabilities(s.capabilities);
  }

  /** With a filesystem that never fails, `run` gets past `build_init` exactly
      when the program name, every argument and every environment pair pass
      validation. A nul byte before the '/' of the package id does not reach
      the builder. */
  lemma RunConfigAccepted(s: ConsoleState, envPairs: seq<(Bytes, Bytes)>, rootFs: nat, h: Host)
    requires Permissive(h)
    ensures var bc := SplitBootCmd(s.bootCmd);
      BuildInitSpec(RunConfig(s, envPairs, rootFs), h).Ok? <==>
        && NUL !in bc.prog
        && (forall i :: 0 <= i < |bc.args| ==> NUL !in bc.args[i])
        && (forall i :: 0 <= i < |envPairs| ==> NUL !in envPairs[i].0 && EQUALS !in envPairs[i].0 && NUL !in envPairs[i].1)
  {
    var c := RunConfig(s, envPairs, rootFs);
    var bc := SplitBootCmd(s.bootCmd);
    BuildInitAcceptsValidInputs(c, h);
    ArgsConsNulFree(bc.prog, bc.args);
  }

  /** An argument list headed by a program name is nul-free exactly when the
      name and every argument are. */
  lemma ArgsConsNulFree(prog: Bytes, args: seq<Bytes>)
    ensures (forall i :: 0 <= i < |[prog] + args| ==> NUL !in ([prog] + args)[i]) <==>
            NUL !in prog && (forall i :: 0 <= i < |args| ==> NUL !in args[i])
  {
    var all := [prog] + args;
    assert all[0] == prog;
    assert forall i :: 0 <= i < |args| ==> all[i + 1] == args[i];
  }

  /** In particular `run` gets past `build_init` whenever the boot command has
      no nul byte and the pairs are well formed. */
  lemma RunAcceptsNulFreeCommand(s: ConsoleState, envPairs: seq<(Bytes, Bytes)>, rootFs: nat, h: Host)
    requires Permissive(h) && NUL !in s.bootCmd
    requires forall i :: 0 <= i < |envPairs| ==> NUL !in envPairs[i].0 && EQUALS !in envPairs[i].0 && NUL !in envPairs[i].1
    ensures BuildInitSpec(RunConfig(s, envPairs, rootFs), h).Ok?
  {
    RunConfigAccepted(s, envPairs, rootFs, h);
    BootPiecesNulFree(s.bootCmd);
  }

  /** No byte absent from the boot command appears in the program name or an argument. */
  lemma BootPiecesNulFree(cmd: Bytes)
    requires NUL !in cmd
    ensures NUL !in SplitBootCmd(cmd).prog
    ensures forall i :: 0 <= i < |SplitBootCmd(cmd).args| ==> NUL !in SplitBootCmd(cmd).args[i]
  {
    match SplitOnce(cmd, SPACE)
    case None =>
      ProgFromText(cmd);
    case Some((webc, rest)) =>
      assert forall x :: x in webc ==> x in cmd;
      assert forall x :: x in rest ==> x in cmd;
      ProgFromText(webc);
      SplitAllFromText(rest, SPACE, NUL);
  }

  /** A nul-free package id gives a nul-free program name. */
  lemma ProgFromText(webc: Bytes)
    requires NUL !in webc
    ensures NUL !in ProgOf(webc)
  {
    match SplitOnce(webc, SLASH)
    case None =>
    case Some((ns, after)) =>
      assert forall k :: 0 <= k < |after| ==> after[k] == webc[|ns| + 1 + k];
  }
}
