/**
 * The bootstrap part of lingmo-session (startup.cpp): the process-wide
 * launch environment, the registry of started processes, and
 * StartServiceJob, a one-shot job that spawns a helper process and is
 * finished either when start() returns or when the helper's D-Bus
 * service registers.
 *
 * The bus, the process launcher and the system environment are not
 * modelled: their answers are parameters (whether a service is already
 * registered, whether the spawn was confirmed) or events the model can
 * deliver (a service registering).
 */
module Startup {
  import opened Wrappers

  /** An environment: variable name to value. */
  type Env = map<string, string>

  function Lookup(env: Env, key: string): Option<string>
  {
    if key in env then Some(env[key]) else None
  }

  // ---------------------------------------------------------------------
  // Environment

  /** A character that QString::toLatin1 keeps unchanged. */
  predicate IsLatin1Char(c: char)
  {
    c as int < 0x100
  }

  predicate IsLatin1(s: string)
  {
    forall i :: 0 <= i < |s| ==> IsLatin1Char(s[i])
  }

  /** QString::toLatin1: a character outside Latin-1 becomes '?'. */
  function Latin1(s: string): (r: string)
    ensures |r| == |s| && IsLatin1(r)
    ensures forall i :: 0 <= i < |s| && IsLatin1Char(s[i]) ==> r[i] == s[i]
    ensures forall i :: 0 <= i < |s| && !IsLatin1Char(s[i]) ==> r[i] == '?'
    ensures IsLatin1(s) ==> r == s
  {
    if s == [] then []
    else [if IsLatin1Char(s[0]) then s[0] else '?'] + Latin1(s[1..])
  }

  /**
   * QProcessEnvironment::insert(const QProcessEnvironment &): every
   * variable of `extra` is added to `base`, its value winning on a clash.
   */
  function Overlay(base: Env, extra: Env): (env: Env)
    ensures env.Keys == base.Keys + extra.Keys
    ensures forall k :: Lookup(env, k) == if k in extra then Some(extra[k]) else Lookup(base, k)
  {
    base + extra
  }

  /** qputenv(key.toLatin1(), value.toLatin1()) on the process environment. */
  function PutEnv(env: Env, key: string, value: string): (r: Env)
    ensures Lookup(r, Latin1(key)) == Some(Latin1(value))
    ensures forall k :: k != Latin1(key) ==> Lookup(r, k) == Lookup(env, k)
  {
    env[Latin1(key) := Latin1(value)]
  }

  /** The process environment after a series of updateLaunchEnv calls, oldest first. */
  function ApplyUpdates(env: Env, updates: seq<(string, string)>): Env
  {
    if updates == [] then env
    else
      var n := |updates| - 1;
      PutEnv(ApplyUpdates(env, updates[..n]), updates[n].0, updates[n].1)
  }

  /** The most recent update that names a variable decides its value. */
  lemma {:induction false} LastUpdateWins(env: Env, updates: seq<(string, string)>, i: nat, key: string)
    requires i < |updates| && Latin1(updates[i].0) == key
    requires forall j :: i < j < |updates| ==> Latin1(updates[j].0) != key
    ensures Lookup(ApplyUpdates(env, updates), key) == Some(Latin1(updates[i].1))
  {
    var n := |updates| - 1;
    if i < n {
      LastUpdateWins(env, updates[..n], i, key);
    }
  }

  /** A variable that no update names keeps its value. */
  lemma {:induction false} UnnamedKeepsValue(env: Env, updates: seq<(string, string)>, key: string)
    requires forall j :: 0 <= j < |updates| ==> Latin1(updates[j].0) != key
    ensures Lookup(ApplyUpdates(env, updates), key) == Lookup(env, key)
  {
    if updates != [] {
      UnnamedKeepsValue(env, updates[..|updates| - 1], key);
    }
  }

  /**
   * A job that starts after a series of updateLaunchEnv calls launches
   * with the last value published for a variable, unless the job's own
   * additional environment sets that variable.
   */
  lemma {:induction false} LaunchSeesLastUpdate(system: Env, updates: seq<(string, string)>, i: nat, additional: Env)
    requires i < |updates|
    requires forall j :: i < j < |updates| ==> Latin1(updates[j].0) != Latin1(updates[i].0)
    ensures var key := Latin1(updates[i].0);
      Lookup(Overlay(ApplyUpdates(system, updates), additional), key)
      == if key in additional then Some(additional[key]) else Some(Latin1(updates[i].1))
  {
    LastUpdateWins(system, updates, i, Latin1(updates[i].0));
  }

  // ---------------------------------------------------------------------
  // What a job does

  /** One observable step of a StartServiceJob. */
  datatype Action =
    | Watch(service: string)    // the constructor connects serviceRegistered of a watcher on `service` to emitResult
    | SetEnvironment(env: Env)  // m_process->setProcessEnvironment(env)
    | Spawn(confirmed: bool)    // Startup::startDetached(m_process), with its outcome
    | EmitResult                // KJob::emitResult()

  /** How often emitResult has been called. */
  function Emits(t: seq<Action>): nat
  {
    if t == [] then 0
    else Emits(t[..|t| - 1]) + if t[|t| - 1] == EmitResult then 1 else 0
  }

  lemma {:induction false} EmitsAppend(a: seq<Action>, b: seq<Action>)
    ensures Emits(a + b) == Emits(a) + Emits(b)
    decreases |b|
  {
    if b == [] {
      assert a + b == a;
    } else {
      var n := |b| - 1;
      assert (a + b)[..|a + b| - 1] == a + b[..n];
      assert (a + b)[|a + b| - 1] == b[n];
      EmitsAppend(a, b[..n]);
    }
  }

  /** Every call of emitResult finishes the job. */
  lemma {:induction false} EmitsCountFinishes(t: seq<Action>)
    ensures Emits(t) > 0 <==> Finished(t)
  {
    if t != [] {
      EmitsCountFinishes(t[..|t| - 1]);
      assert t == t[..|t| - 1] + [t[|t| - 1]];
    }
  }

  /** KJob's finished state: emitResult has been called at least once. */
  predicate Finished(t: seq<Action>)
  {
    EmitResult in t
  }

  predicate Spawned(t: seq<Action>)
  {
    Spawn(true) in t || Spawn(false) in t
  }

  /**
   * What StartServiceJob::start does after setting the launch environment,
   * given the bus's answer to isServiceRegistered (asked only for a
   * non-empty id) and whether startDetached confirmed the spawn.
   */
  function StartTail(serviceId: string, registered: bool, spawnOk: bool): (t: seq<Action>)
    // an already registered service is not started a second time
    ensures !Spawned(t) <==> serviceId != "" && registered
    ensures Spawn(true) in t <==> !(serviceId != "" && registered) && spawnOk
    // a failed spawn finishes the job
    ensures Spawn(false) in t ==> Finished(t)
    // start() leaves the job unfinished exactly when it waits for a non-empty id
    ensures !Finished(t) <==> serviceId != "" && !registered && spawnOk
    // emitResult is reached twice exactly when the spawn failed and there is no id
    ensures Emits(t) <= 2
    ensures Emits(t) == 2 <==> serviceId == "" && !spawnOk
  {
    if serviceId != "" && registered then
      assert Emits([EmitResult]) == Emits([]) + 1;
      [EmitResult]
    else
      var failed: seq<Action> := if !spawnOk then [EmitResult] else [];
      var anonymous: seq<Action> := if serviceId == "" then [EmitResult] else [];
      assert Emits([Spawn(spawnOk)]) == Emits([]);
      assert Emits([EmitResult]) == Emits([]) + 1;
      EmitsAppend([Spawn(spawnOk)], failed);
      EmitsAppend([Spawn(spawnOk)] + failed, anonymous);
      [Spawn(spawnOk)] + failed + anonymous
  }

  /**
   * What the watcher connected in the constructor does for a series of
   * service registrations on the bus: nothing disconnects it when the job
   * finishes, so it calls emitResult for each registration of its service
   * for as long as the job object (the watcher's parent) lives.
   */
  function Deliveries(serviceId: string, names: seq<string>): seq<Action>
  {
    if names == [] then []
    else (if names[0] == serviceId then [EmitResult] else []) + Deliveries(serviceId, names[1..])
  }

  /** The watcher emits once per registration of the job's service, and does nothing else. */
  lemma {:induction false} DeliveriesEmitPerRegistration(serviceId: string, names: seq<string>)
    ensures Emits(Deliveries(serviceId, names)) == multiset(names)[serviceId]
    ensures forall a :: a in Deliveries(serviceId, names) ==> a == EmitResult
  {
    if names != [] {
      var head: seq<Action> := if names[0] == serviceId then [EmitResult] else [];
      var rest := Deliveries(serviceId, names[1..]);
      DeliveriesEmitPerRegistration(serviceId, names[1..]);
      assert Deliveries(serviceId, names) == head + rest;
      assert Emits([EmitResult]) == Emits([]) + 1;
      EmitsAppend(head, rest);
      assert names == [names[0]] + names[1..];
      assert multiset(names) == multiset([names[0]]) + multiset(names[1..]);
    }
  }

  /**
   * After start() the only source of emitResult is the watcher; it also
   * fires on a job that is already finished, so while the job object lives
   * a re-registration of the service reaches emitResult again.
   */
  lemma CompletionAfterStart(serviceId: string, registered: bool, spawnOk: bool, names: seq<string>)
    ensures var t := StartTail(serviceId, registered, spawnOk) + Deliveries(serviceId, names);
      && Emits(t) == Emits(StartTail(serviceId, registered, spawnOk)) + multiset(names)[serviceId]
      && Spawned(t) == Spawned(StartTail(serviceId, registered, spawnOk))
      && (serviceId != "" && !registered && spawnOk ==> (Finished(t) <==> serviceId in names))
  {
    var tail := StartTail(serviceId, registered, spawnOk);
    var watched := Deliveries(serviceId, names);
    DeliveriesEmitPerRegistration(serviceId, names);
    EmitsAppend(tail, watched);
    EmitsCountFinishes(tail + watched);
    EmitsCountFinishes(tail);
    assert serviceId in names <==> multiset(names)[serviceId] > 0;
  }

  // ---------------------------------------------------------------------
  // Objects

  /** A QProcess: program and arguments fixed at construction, environment set before start. */
  class Process {
    const program: string
    const arguments: seq<string>
    /** None: QProcess's default, inherit the caller's environment. */
    var environment: Option<Env>

    constructor (program: string, arguments: seq<string>)
      ensures this.program == program && this.arguments == arguments
      ensures environment == None
    {
      this.program := program;
      this.arguments := arguments;
      environment := None;
    }
  }

  const BridgeProgram: string := "kwin_wayland_wrapper"
  const BridgeArguments: seq<string> := ["--xwayland"]
  const BridgeService: string := "org.kde.KWinWrapper"

  /** qEnvironmentVariable("XDG_SESSION_TYPE") == "wayland"; an unset variable reads as "". */
  predicate IsWaylandSession(env: Env)
  {
    Lookup(env, "XDG_SESSION_TYPE") == Some("wayland")
  }

  /**
   * The Startup singleton: the process environment that qputenv writes and
   * systemEnvironment reads, and the registry m_processes.
   */
  class Session {
    var environment: Env
    var processes: seq<Process>
    /** The blocking bridge job the constructor ran, if any (a local there). */
    ghost var bridge: Job?

    /**
     * Under Wayland the constructor runs the compositor bridge job and
     * blocks in exec() until it is finished. `bridgeRegistered` is the bus's
     * answer for the bridge's service and `bridgeSpawns` the spawn outcome.
     * While the job waits, exec()'s event loop serves bus calls: `updates`
     * are the updateLaunchEnv calls it serves before the bridge's service
     * registers (the bridge publishes WAYLAND_DISPLAY and DISPLAY this way).
     */
    constructor (environment: Env, bridgeRegistered: bool, bridgeSpawns: bool,
                 updates: seq<(string, string)>)
      ensures this.environment ==
        if bridge != null && !bridgeRegistered && bridgeSpawns then ApplyUpdates(environment, updates)
        else environment
      ensures bridge != null <==> IsWaylandSession(environment)
      ensures bridge != null ==>
        && fresh(bridge) && fresh(bridge.process)
        && bridge.process.program == BridgeProgram
        && bridge.process.arguments == BridgeArguments
        && bridge.serviceId == BridgeService
        && bridge.process.environment == Some(environment)
        && Finished(bridge.trace)
      ensures processes ==
        if bridge != null && !bridgeRegistered && bridgeSpawns then [bridge.process] else []
    {
      this.environment := environment;
      processes := [];
      bridge := null;
      new;
      if IsWaylandSession(environment) {
        var job := new Job(BridgeProgram, BridgeArguments, BridgeService, map[]);
        // Startup::getInstance() inside start() is taken to be this object,
        // though no instance pointer has been set yet
        job.Start(this, bridgeRegistered, bridgeSpawns);
        if !job.IsFinished() {
          // exec() runs an event loop until the result is emitted; it serves
          // the updates, and the only connection left that emits the result
          // is the watcher on the bridge's service
          ServeUpdates(updates);
          job.ServiceRegistered(BridgeService);
        }
        assert Overlay(environment, map[]) == environment;
        bridge := job;
      }
    }

    /** updateLaunchEnv: publish a variable to every process started later. */
    method UpdateLaunchEnv(key: string, value: string)
      modifies this`environment
      ensures environment == PutEnv(old(environment), key, value)
    {
      environment := PutEnv(environment, key, value);
    }

    /** The updateLaunchEnv calls an event loop serves, in order. */
    method ServeUpdates(updates: seq<(string, string)>)
      modifies this`environment
      ensures environment == ApplyUpdates(old(environment), updates)
    {
      for i := 0 to |updates|
        invariant environment == ApplyUpdates(old(environment), updates[..i])
      {
        assert updates[..i + 1][..i] == updates[..i];
        UpdateLaunchEnv(updates[i].0, updates[i].1);
      }
      assert updates[..|updates|] == updates;
    }

    /** startDetached: `started` is whether start() and waitForStarted() confirmed the process. */
    method StartDetached(process: Process, started: bool) returns (ok: bool)
      modifies this`processes
      ensures ok == started
      ensures processes == if ok then old(processes) + [process] else old(processes)
    {
      ok := started;
      if ok {
        processes := processes + [process];
      }
    }
  }

  /** StartServiceJob, with its actions recorded in `trace`. */
  class Job {
    const process: Process
    const serviceId: string
    const additionalEnv: Env
    var trace: seq<Action>

    /** The watcher was connected before anything else happened. */
    ghost predicate WatcherFirst()
      reads this
    {
      |trace| > 0 && trace[0] == Watch(serviceId)
    }

    predicate IsFinished()
      reads this
    {
      Finished(trace)
    }

    constructor (program: string, arguments: seq<string>, serviceId: string, additionalEnv: Env)
      ensures fresh(process)
      ensures process.program == program && process.arguments == arguments
      ensures process.environment == None
      ensures this.serviceId == serviceId && this.additionalEnv == additionalEnv
      ensures trace == [Watch(serviceId)] && WatcherFirst() && !IsFinished()
    {
      process := new Process(program, arguments);
      this.serviceId := serviceId;
      this.additionalEnv := additionalEnv;
      trace := [Watch(serviceId)];
    }

    /**
     * start(): `registered` is the bus's answer to isServiceRegistered
     * (asked only for a non-empty id), `spawnOk` the outcome startDetached
     * reports.
     */
    method Start(session: Session, registered: bool, spawnOk: bool)
      modifies this`trace, process`environment, session`processes
      ensures process.environment == Some(Overlay(old(session.environment), additionalEnv))
      ensures trace == old(trace) + [SetEnvironment(Overlay(old(session.environment), additionalEnv))]
                       + StartTail(serviceId, registered, spawnOk)
      ensures session.processes ==
        old(session.processes) + if !(serviceId != "" && registered) && spawnOk then [process] else []
      ensures old(WatcherFirst()) ==> WatcherFirst()
    {
      var env := Overlay(session.environment, additionalEnv);
      process.environment := Some(env);
      trace := trace + [SetEnvironment(env)];
      ghost var before := trace;
      if serviceId != "" && registered {
        trace := trace + [EmitResult];
        assert trace == before + StartTail(serviceId, registered, spawnOk);
        return;
      }
      var ok := session.StartDetached(process, spawnOk);
      trace := trace + [Spawn(ok)];
      if !ok {
        trace := trace + [EmitResult];
      }
      if serviceId == "" {
        trace := trace + [EmitResult];
      }
      assert trace == before + StartTail(serviceId, registered, spawnOk) by {
        assert trace == before + ([Spawn(spawnOk)]
          + (if !spawnOk then [EmitResult] else [])
          + (if serviceId == "" then [EmitResult] else []));
      }
    }

    /** The bus reports that `name` registered; the watcher forwards it for the job's service. */
    method ServiceRegistered(name: string)
      modifies this`trace
      ensures trace == old(trace) + Deliveries(serviceId, [name])
      ensures old(WatcherFirst()) ==> WatcherFirst()
    {
      if name == serviceId {
        trace := trace + [EmitResult];
      }
    }
  }

  /**
   * The launch environment is a snapshot: a variable published between two
   * starts reaches the second job but leaves the first job's environment
   * as it was when that job started.
   */
  method PublishBetweenStarts(system: Env, key: string, value: string, first: Env, second: Env)
    returns (earlier: Env, later: Env)
    ensures earlier == Overlay(system, first)
    ensures later == Overlay(PutEnv(system, key, value), second)
    ensures Latin1(key) !in second ==> Lookup(later, Latin1(key)) == Some(Latin1(value))
  {
    var session := new Session(system, false, false, []);
    var one := new Job("first", [], "org.example.First", first);
    one.Start(session, false, true);
    session.UpdateLaunchEnv(key, value);
    var two := new Job("second", [], "org.example.Second", second);
    two.Start(session, false, true);
    earlier := one.process.environment.value;
    later := two.process.environment.value;
  }
}
