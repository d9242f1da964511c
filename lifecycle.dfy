/**
 * `main`: the whole bootstrap in order (configuration, logging, validation,
 * component import, socket acquisition, IO loop) and the process lifecycle
 * CREATED -> BOUND -> RUNNING -> STOPPED, where only an interruption of the
 * IO loop leads to STOPPED, after a notice and the engine's cleanup.
 */
module Lifecycle {
  import opened Base
  import opened Settings
  import opened LogSetup
  import opened Importer
  import opened Params
  import opened Validation
  import opened Server

  datatype Phase = Created | Bound | Running | Stopped

  const InterruptNotice: string := "-- thumbor closed by user interruption --\n"

  /**
   * Everything `main` meets outside the server parameters: the contents of
   * the configuration file (None when unreadable), the environment, the
   * importable modules, the executables on `PATH`, and whether the running
   * IO loop is interrupted.
   */
  datatype World = World(
    file: Option<map<Key, Value>>,
    env: Env,
    table: ModuleTable,
    which: PathLookup,
    interrupted: bool)

  /** What the stages before socket acquisition settle. */
  datatype Prepared = Prepared(
    config: Config,
    log: LogSetup,
    securityKey: string,
    gifsiclePath: Option<string>,
    importer: Importer)

  /**
   * The stages before socket acquisition, in the order `main` runs them:
   * load the configuration, configure logging, validate, import components.
   * The first failing stage decides the error.
   */
  function Prepare(w: World, useEnvironment: bool, logLevel: string, securityKey: Option<string>): (r: Result<Prepared>)
    ensures var c := Load(w.file, useEnvironment);
      r.Ok? <==> (ConfigureLog(c, w.env, logLevel).Ok?
        && ResolveSecurityKey(securityKey, c, w.env).Ok?
        && CheckGifsicle(c, w.env, w.which).Ok?
        && Resolvable(w.table, c, w.env))
    ensures var c := Load(w.file, useEnvironment);
      var log := ConfigureLog(c, w.env, logLevel);
      var key := ResolveSecurityKey(securityKey, c, w.env);
      var gifsicle := CheckGifsicle(c, w.env, w.which);
      var importer := GetImporter(w.table, c, w.env);
      r.Err? ==> r.error == (if log.Err? then log.error
                             else if key.Err? then key.error
                             else if gifsicle.Err? then gifsicle.error
                             else importer.error)
    ensures var c := Load(w.file, useEnvironment);
      r.Ok? ==> (r.value.config == c
        && r.value.log == ConfigureLog(c, w.env, logLevel).value
        && r.value.securityKey == ResolveSecurityKey(securityKey, c, w.env).value
        && r.value.gifsiclePath == CheckGifsicle(c, w.env, w.which).value
        && r.value.importer == GetImporter(w.table, c, w.env).value
        && Validated(Some(r.value.securityKey), r.value.gifsiclePath, c, w.env)
        && r.value.importer.engine == Handle(Get(c, w.env, Engine).s, EngineRole))
  {
    var c := Load(w.file, useEnvironment);
    var log :- ConfigureLog(c, w.env, logLevel);
    var key :- ResolveSecurityKey(securityKey, c, w.env);
    var gifsicle :- CheckGifsicle(c, w.env, w.which);
    var importer :- GetImporter(w.table, c, w.env);
    Ok(Prepared(c, log, key, gifsicle, importer))
  }

  /** The calls once the server has started: the IO loop and, on interruption, the notice and the cleanup. */
  function LoopCalls(interrupted: bool, engine: string): (calls: seq<Call>)
    ensures |calls| > 0 && calls[0] == LoopStart
    ensures interrupted ==> calls[1..] == [Write(InterruptNotice), EngineCleanup(engine)]
    ensures !interrupted ==> |calls| == 1
  {
    [LoopStart] + (if interrupted then [Write(InterruptNotice), EngineCleanup(engine)] else [])
  }

  /** The trace, outcome and final phase of `main`. */
  datatype Startup = Startup(calls: seq<Call>, outcome: Outcome, phase: Phase)

  /**
   * How `main` ends, given how the preparation stages ended and the calls
   * `run_server` makes: a failure stops in the CREATED phase; otherwise the
   * IO loop runs, and an interruption stops it.
   */
  function Finish(pre: Result<Prepared>, run: Run, interrupted: bool): (s: Startup)
    ensures s.phase != Bound
    ensures s.outcome.Fail? <==> s.phase == Created
    ensures s.phase != Created ==> pre.Ok? && run.outcome.Pass?
    ensures pre.Ok? && run.outcome.Pass? ==> s.phase == (if interrupted then Stopped else Running)
    ensures pre.Err? ==> s.outcome == Fail(pre.error) && s.calls == []
    ensures pre.Ok? && run.outcome.Fail? ==> s.outcome == run.outcome && s.calls == run.calls
    ensures s.phase != Created ==> (|s.calls| > |run.calls|
      && s.calls[..|run.calls|] == run.calls && s.calls[|run.calls|] == LoopStart)
    ensures s.phase != Created ==> s.calls == run.calls + LoopCalls(interrupted, pre.value.importer.engine.moduleName)
    ensures (forall i :: 0 <= i < |run.calls| ==> SocketCall(run.calls[i])) && s.phase == Created ==>
      forall i :: 0 <= i < |s.calls| ==> !s.calls[i].LoopStart? && !s.calls[i].Write?
    ensures s.phase == Stopped <==> (s.outcome.Pass? && interrupted)
    ensures s.phase == Stopped ==> (|s.calls| >= 2
      && s.calls[|s.calls| - 2] == Write(InterruptNotice)
      && s.calls[|s.calls| - 1] == EngineCleanup(pre.value.importer.engine.moduleName))
  {
    match pre
    case Err(e) => Startup([], Fail(e), Created)
    case Ok(prepared) => Serving(run, prepared.importer.engine.moduleName, interrupted)
  }

  /** How `main` ends once the preparation stages succeeded, with `engine` the imported engine. */
  function Serving(run: Run, engine: string, interrupted: bool): Startup {
    if run.outcome.Fail? then Startup(run.calls, run.outcome, Created)
    else Startup(run.calls + LoopCalls(interrupted, engine), Pass, if interrupted then Stopped else Running)
  }

  /**
   * The pure model of `main()`: the preparation stages, then `run_server`
   * against the host's `files` and `busy` ports, then the IO loop.
   */
  function MainRun(w: World, p: ServerParameters, files: map<string, int>, busy: set<int>): (s: Startup)
    reads p
    ensures Prepare(w, p.useEnvironment, p.logLevel, p.securityKey).Err? ==> (s.calls == [] && s.phase == Created
      && s.outcome == Fail(Prepare(w, p.useEnvironment, p.logLevel, p.securityKey).error))
    ensures s.outcome.Pass? <==> (Prepare(w, p.useEnvironment, p.logLevel, p.securityKey).Ok?
      && RunServerCalls(p.fd, p.port, p.ip, files, busy).outcome.Pass?)
    ensures s.outcome.Pass? ==> s.phase == (if w.interrupted then Stopped else Running)
    ensures s.phase != Created ==> (Prepare(w, p.useEnvironment, p.logLevel, p.securityKey).Ok?
      && RunServerCalls(p.fd, p.port, p.ip, files, busy).outcome.Pass?
      && s.calls == RunServerCalls(p.fd, p.port, p.ip, files, busy).calls
           + LoopCalls(w.interrupted, Prepare(w, p.useEnvironment, p.logLevel, p.securityKey).value.importer.engine.moduleName))
    ensures forall i :: 0 <= i < |s.calls| ==> (SocketCall(s.calls[i]) || s.calls[i].LoopStart?
      || s.calls[i].Write? || s.calls[i].EngineCleanup?)
  {
    Finish(Prepare(w, p.useEnvironment, p.logLevel, p.securityKey),
           RunServerCalls(p.fd, p.port, p.ip, files, busy), w.interrupted)
  }

  /** The number of engine cleanups in a trace. */
  function Cleanups(calls: seq<Call>): nat {
    if calls == [] then 0
    else (if calls[0].EngineCleanup? then 1 else 0) + Cleanups(calls[1..])
  }

  lemma {:induction false} CleanupsAppend(a: seq<Call>, b: seq<Call>)
    ensures Cleanups(a + b) == Cleanups(a) + Cleanups(b)
    decreases |a|
  {
    if a != [] {
      CleanupsAppend(a[1..], b);
      assert (a + b)[1..] == a[1..] + b;
    } else {
      assert a + b == b;
    }
  }

  lemma {:induction false} NoCleanupInSocketCalls(calls: seq<Call>)
    requires forall i :: 0 <= i < |calls| ==> SocketCall(calls[i])
    ensures Cleanups(calls) == 0
    decreases |calls|
  {
    if calls != [] {
      NoCleanupInSocketCalls(calls[1..]);
    }
  }

  /** The engine's cleanup runs exactly once when the running loop is interrupted, and never otherwise. */
  lemma CleanupExactlyOnceOnInterrupt(pre: Result<Prepared>, run: Run, interrupted: bool)
    requires forall i :: 0 <= i < |run.calls| ==> SocketCall(run.calls[i])
    ensures var s := Finish(pre, run, interrupted);
      Cleanups(s.calls) == if s.phase == Stopped then 1 else 0
  {
    NoCleanupInSocketCalls(run.calls);
    if pre.Ok? && run.outcome.Pass? {
      var tail := LoopCalls(interrupted, pre.value.importer.engine.moduleName);
      CleanupsAppend(run.calls, tail);
      assert Cleanups(tail) == if interrupted then 1 else 0 by {
        assert Cleanups(tail) == Cleanups(tail[1..]);
        if interrupted {
          assert Cleanups(tail[1..]) == Cleanups(tail[1..][1..]);
          assert Cleanups(tail[1..][1..]) == 1 + Cleanups(tail[1..][1..][1..]);
          assert tail[1..][1..][1..] == [];
        } else {
          assert tail[1..] == [];
        }
      }
    }
  }

  /** Without a security key anywhere, `main` stops before binding with the exact key error. */
  lemma MissingKeyStopsMain(w: World, useEnvironment: bool, logLevel: string, securityKey: Option<string>, run: Run)
    requires ConfigureLog(Load(w.file, useEnvironment), w.env, logLevel).Ok?
    requires !KeySet(securityKey) && ConfiguredKey(Load(w.file, useEnvironment), w.env).None?
    ensures Finish(Prepare(w, useEnvironment, logLevel, securityKey), run, w.interrupted)
      == Startup([], Fail(RuntimeError(NoSecurityKeyMessage)), Created)
  {
  }

  /** A server only reaches the running phases after every pre-flight check passed and its socket was acquired. */
  lemma RunningImpliesValidated(w: World, p: ServerParameters, files: map<string, int>, busy: set<int>)
    requires MainRun(w, p, files, busy).phase in {Running, Stopped}
    ensures var pre := Prepare(w, p.useEnvironment, p.logLevel, p.securityKey);
      pre.Ok? && Validated(Some(pre.value.securityKey), pre.value.gifsiclePath, pre.value.config, w.env)
      && RunServerCalls(p.fd, p.port, p.ip, files, busy).outcome.Pass?
  {
  }

  /**
   * The security key and gifsicle path `main` leaves in the server
   * parameters: validation runs once logging is configured, and its first
   * check's update stays even when its second check fails. This is the
   * effect `Validation.ValidateConfig`'s ensures give, composed with the
   * logging stage that comes first; `Process.PrepareStages` is proved to match it.
   */
  function ParamsAfter(w: World, useEnvironment: bool, logLevel: string,
                       securityKey: Option<string>, gifsiclePath: Option<string>): (Option<string>, Option<string>)
  {
    var c := Load(w.file, useEnvironment);
    var key := ResolveSecurityKey(securityKey, c, w.env);
    var gifsicle := CheckGifsicle(c, w.env, w.which);
    if ConfigureLog(c, w.env, logLevel).Err? || key.Err? then (securityKey, gifsiclePath)
    else if gifsicle.Ok? && gifsicle.value.Some? then (Some(key.value), gifsicle.value)
    else (Some(key.value), gifsiclePath)
  }

  class Process {
    var phase: Phase

    constructor ()
      ensures phase == Created
    {
      phase := Created;
    }

    /**
     * The stages of `main()` before socket acquisition: load the
     * configuration, configure logging, validate (which completes `p`), and
     * import the components.
     */
    method PrepareStages(p: ServerParameters, w: World) returns (pre: Result<Prepared>)
      modifies p`securityKey, p`gifsiclePath
      ensures pre == old(Prepare(w, p.useEnvironment, p.logLevel, p.securityKey))
      ensures (p.securityKey, p.gifsiclePath)
        == ParamsAfter(w, p.useEnvironment, p.logLevel, old(p.securityKey), old(p.gifsiclePath))
    {
      var c := Load(w.file, p.useEnvironment);
      var log := ConfigureLog(c, w.env, p.logLevel);
      if log.Err? {
        return Err(log.error);
      }
      var validation, lookups := ValidateConfig(c, w.env, p, w.which);
      if validation.Fail? {
        return Err(validation.error);
      }
      var importer := GetImporter(w.table, c, w.env);
      if importer.Err? {
        return Err(importer.error);
      }
      var gifsicle := CheckGifsicle(c, w.env, w.which);
      pre := Ok(Prepared(c, log.value, p.securityKey.value, gifsicle.value, importer.value));
    }

    /** Model of `main()` once the server parameters `p` have been read. */
    method Bootstrap(p: ServerParameters, host: Host, w: World) returns (r: Outcome)
      requires phase == Created
      modifies this, host, p`securityKey, p`gifsiclePath
      ensures var s := old(MainRun(w, p, host.files, host.busy));
        host.calls == old(host.calls) + s.calls && r == s.outcome && phase == s.phase
      ensures (p.securityKey, p.gifsiclePath)
        == ParamsAfter(w, p.useEnvironment, p.logLevel, old(p.securityKey), old(p.gifsiclePath))
    {
      var pre := PrepareStages(p, w);
      if pre.Err? {
        r := Fail(pre.error);
        return;
      }
      r := Serve(p, host, pre.value, w.interrupted);
    }

    /** The stages of `main()` from socket acquisition on: `run_server`, then the IO loop until interrupted. */
    method Serve(p: ServerParameters, host: Host, pre: Prepared, interrupted: bool) returns (r: Outcome)
      requires phase == Created
      modifies this, host
      ensures var s := Serving(RunServerCalls(p.fd, p.port, p.ip, host.files, host.busy),
                               pre.importer.engine.moduleName, interrupted);
        host.calls == old(host.calls) + s.calls && r == s.outcome && phase == s.phase
    {
      r := RunServer(host, p);
      if r.Fail? {
        return;
      }
      phase := Bound;
      host.LoopStart();
      phase := Running;
      if interrupted {
        host.Write(InterruptNotice);
        host.EngineCleanup(pre.importer.engine.moduleName);
        phase := Stopped;
      }
    }
  }

  /** The configuration of the server tests passes every preparation stage. */
  lemma ServerTestPrepares(w: World)
    requires w.file == Some(ServerTestFile()) && w.env == map[] && ProvidesDefaults(w.table)
    ensures var pre := Prepare(w, false, "DEBUG", Some("sec"));
      pre.Ok? && pre.value.importer.engine == Handle("thumbor.engines.pil", EngineRole)
  {
    var c := Load(w.file, false);
    assert Get(c, w.env, ThumborLogConfig) == NoneV;
    assert ConfigureLog(c, w.env, "DEBUG").Ok?;
    assert Get(c, w.env, UseGifsicleEngine) == BoolV(false);
    assert Get(c, w.env, UseCustomErrorHandling) == BoolV(false);
    assert Get(c, w.env, Filters) == Default(Filters);
    assert Get(c, w.env, Detectors) == ListV([]);
    assert Resolvable(w.table, c, w.env);
  }

  /**
   * With the parameters of the server tests, `main` binds, starts the server
   * and the IO loop; when the loop is interrupted it then writes the notice
   * and cleans up the engine.
   */
  lemma ServerTestMainRun(w: World, p: ServerParameters)
    requires w.file == Some(ServerTestFile()) && w.env == map[] && ProvidesDefaults(w.table)
    requires p.fd == NoFd && p.port == 1234 && p.ip == "0.0.0.0"
    requires !p.useEnvironment && p.logLevel == "DEBUG" && p.securityKey == Some("sec")
    ensures MainRun(w, p, map[], {}) == Startup(
      [Bind(1234, "0.0.0.0"), Start(1)] + LoopCalls(w.interrupted, "thumbor.engines.pil"),
      Pass, if w.interrupted then Stopped else Running)
  {
    ServerTestPrepares(w);
    var run := RunServerCalls(NoFd, 1234, "0.0.0.0", map[], {});
    assert run == Run([Bind(1234, "0.0.0.0"), Start(1)], Pass);
  }
}
