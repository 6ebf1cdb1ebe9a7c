/** Start, stop and status over the pid file (comfyctl/cli.py:193-287 and 554-672) together with
    the running checks of the service (app/services/comfy_service.py:349-352 and 471-474).
    Commands run one at a time; the environment acts between them. A managed process that
    listens does so until it dies, and during a start only the started process takes the port. */
module Processes {
  import opened Wrappers
  import opened Paths

  /** The working directory: a checkout tree, known by identity wherever it is moved. */
  datatype Cwd = InTree(tree: int) | OtherDir

  /** A live process. `manager` remembers the instance whose start spawned it. */
  datatype Proc = Proc(cwd: Cwd, runsMain: bool, port: Option<int>, manager: Option<string>)

  /** What lies in an instance directory. */
  datatype Files = Files(checkout: Option<int>, venv: bool, pidFile: Option<int>)

  /** What is recorded of an instance: records may share a directory. */
  datatype Inst = Inst(dir: Dir, port: int)

  datatype State = State(procs: map<int, Proc>, insts: map<string, Inst>, dirs: map<Dir, Files>)

  datatype Failure =
    | NotInstalled | PortInUse | VenvMissing | PidInvalid | ProcessStartFailed | StopTimeout
    | ProbeFailed | OsError | InstanceRunning

  function FilesAt(s: State, dir: Dir): Files {
    if dir in s.dirs then s.dirs[dir] else Files(None, false, None)
  }

  function FilesOf(s: State, id: string): Files
    requires id in s.insts
  {
    FilesAt(s, s.insts[id].dir)
  }

  predicate PortOpen(s: State, port: int) {
    exists pid <- s.procs :: s.procs[pid].port == Some(port)
  }

  /** The process runs `main.py` in the checkout. */
  predicate Owned(s: State, id: string, pid: int)
    requires id in s.insts
  {
    && pid in s.procs
    && FilesOf(s, id).checkout.Some?
    && s.procs[pid].cwd == InTree(FilesOf(s, id).checkout.value)
    && s.procs[pid].runsMain
  }

  /** `process_owned_by_instance`: it says no as well when working directory or command line of the
      process cannot be read. */
  predicate FoundOwned(s: State, id: string, pid: int, readable: bool)
    requires id in s.insts
  {
    readable && Owned(s, id, pid)
  }

  /** The field `process_alive` of the status payload. */
  predicate ReportedAlive(s: State, id: string, readable: bool)
    requires id in s.insts
  {
    FilesOf(s, id).pidFile.Some? && FoundOwned(s, id, FilesOf(s, id).pidFile.value, readable)
  }

  predicate Managed(s: State, id: string, pid: int) {
    pid in s.procs && s.procs[pid].manager == Some(id)
  }

  /** A managed process of some instance of that directory. */
  predicate LiveIn(s: State, dir: Dir, pid: int) {
    pid in s.procs && s.procs[pid].manager.Some? && s.procs[pid].manager.value in s.insts
    && s.insts[s.procs[pid].manager.value].dir == dir
  }

  // --------------------------------------------------------------- the invariant

  /** Every live managed process of the instance is the one in its pid file, listens on the
      stored port and runs in the active checkout. */
  ghost predicate Tracked(s: State, id: string)
    requires id in s.insts
  {
    forall pid | Managed(s, id, pid) :: InPlace(s, id, pid)
  }

  predicate InPlace(s: State, id: string, pid: int)
    requires id in s.insts && pid in s.procs
  {
    && FilesOf(s, id).pidFile == Some(pid)
    && s.procs[pid].port == Some(s.insts[id].port)
    && Owned(s, id, pid)
  }

  ghost predicate AllTracked(s: State) {
    && (forall id <- s.insts :: Tracked(s, id))
    && (forall pid <- s.procs :: s.procs[pid].manager.Some? ==> s.procs[pid].manager.value in s.insts)
  }

  /** So there is at most one, its port is open, and status reports it whenever it can read it. */
  lemma AtMostOneManaged(s: State, id: string, p: int, q: int, readable: bool)
    requires AllTracked(s) && id in s.insts && Managed(s, id, p) && Managed(s, id, q)
    ensures p == q && PortOpen(s, s.insts[id].port)
    ensures ReportedAlive(s, id, readable) <==> readable
  {
    assert s.procs[p].port == Some(s.insts[id].port);
  }

  /** Where the port is free, or a status that can read processes reports nothing alive, there is none. */
  lemma ManagedMeansPortOpen(s: State, id: string)
    requires AllTracked(s) && id in s.insts
    ensures !PortOpen(s, s.insts[id].port) || !ReportedAlive(s, id, true) ==> forall pid :: !Managed(s, id, pid)
  {
    forall pid | Managed(s, id, pid) ensures PortOpen(s, s.insts[id].port) && ReportedAlive(s, id, true) {
      AtMostOneManaged(s, id, pid, pid, true);
    }
  }

  /** A managed process in a directory is reported by the status of every instance of it. */
  lemma LiveIsReported(s: State, id: string, pid: int, readable: bool)
    requires AllTracked(s) && id in s.insts && LiveIn(s, s.insts[id].dir, pid)
    ensures FilesOf(s, id).pidFile == Some(pid) && Owned(s, id, pid)
    ensures ReportedAlive(s, id, readable) <==> readable
  {
    assert Managed(s, s.procs[pid].manager.value, pid);
  }

  // ------------------------------------------------------------------- commands

  /** What one turn of the polling loop sees. */
  datatype Poll = Exited | Listening | NotYet | ProbeError

  datatype StartEnv = StartEnv(firstProbeFails: bool, writeConfigFails: bool, spawnFails: bool, pid: int,
                               polls: seq<Poll>, writePidFails: bool, pidFileLeft: Option<int>)

  datatype StopEnv = StopEnv(readable: bool, vanished: bool, exits: bool)

  /** The poll that ends the loop; `NotYet` when the deadline does. */
  function Decisive(polls: seq<Poll>): Poll {
    if polls == [] then NotYet
    else if polls[0] != NotYet then polls[0]
    else Decisive(polls[1..])
  }

  function SetFiles(s: State, dir: Dir, files: Files): State {
    s.(dirs := s.dirs[dir := files])
  }

  function SetPidFile(s: State, id: string, pidFile: Option<int>): State
    requires id in s.insts
  {
    SetFiles(s, s.insts[id].dir, FilesOf(s, id).(pidFile := pidFile))
  }

  function Killed(s: State, pid: int): State {
    s.(procs := s.procs - {pid})
  }

  /** Why a start ends before it spawns anything. */
  function StartRefused(s: State, id: string, env: StartEnv): Option<Failure>
    requires id in s.insts
  {
    var files := FilesOf(s, id);
    if files.checkout.None? then Some(NotInstalled)
    else if env.firstProbeFails then Some(ProbeFailed)
    else if PortOpen(s, s.insts[id].port) then Some(PortInUse)
    else if env.writeConfigFails then Some(OsError)
    else if !files.venv then Some(VenvMissing)
    else if env.spawnFails then Some(OsError)
    else None
  }

  /** The spawned process, before and after it opens the port. */
  function Spawned(s: State, id: string, port: Option<int>): Proc
    requires id in s.insts && FilesOf(s, id).checkout.Some?
  {
    Proc(InTree(FilesOf(s, id).checkout.value), true, port, Some(id))
  }

  function AfterStart(s: State, id: string, env: StartEnv): (State, Result<int, Failure>)
    requires id in s.insts
  {
    var refused := StartRefused(s, id, env);
    if refused.Some? then (s, Err(refused.value))
    else
      var running := s.(procs := s.procs[env.pid := Spawned(s, id, None)]);
      var listening := s.(procs := s.procs[env.pid := Spawned(s, id, Some(s.insts[id].port))]);
      match Decisive(env.polls)
      case Exited => (Killed(s, env.pid), Err(ProcessStartFailed))
      case NotYet => (Killed(s, env.pid), Err(ProcessStartFailed))
      case ProbeError => (running, Err(ProbeFailed))
      case Listening =>
        if env.writePidFails then (SetPidFile(listening, id, env.pidFileLeft), Err(OsError))
        else (SetPidFile(listening, id, Some(env.pid)), Ok(env.pid))
  }

  function AfterStop(s: State, id: string, env: StopEnv): (State, Result<bool, Failure>)
    requires id in s.insts
  {
    var pidFile := FilesOf(s, id).pidFile;
    if pidFile.None? then (s, Ok(false))
    else if pidFile.value !in s.procs then (SetPidFile(s, id, None), Ok(false))
    else if !FoundOwned(s, id, pidFile.value, env.readable) then (s, Err(PidInvalid))
    else if env.vanished then (Killed(s, pidFile.value), Err(OsError))
    else if env.exits then (SetPidFile(Killed(s, pidFile.value), id, None), Ok(true))
    else (s, Err(StopTimeout))
  }

  /** An install through the service, as far as it matters here: the checkout is replaced, lost
      or kept (module `Install` says when), and a new one is a new tree. */
  function AfterInstall(s: State, id: string, checkout: Option<int>, venv: bool, readable: bool)
    : (State, Result<(), Failure>)
    requires id in s.insts
  {
    if ReportedAlive(s, id, readable) then (s, Err(InstanceRunning))
    else (SetFiles(s, s.insts[id].dir, FilesOf(s, id).(checkout := checkout, venv := venv)), Ok(()))
  }

  function AfterSetPort(s: State, id: string, port: int, readable: bool): (State, Result<(), Failure>)
    requires id in s.insts
  {
    if ReportedAlive(s, id, readable) then (s, Err(InstanceRunning))
    else (s.(insts := s.insts[id := s.insts[id].(port := port)]), Ok(()))
  }

  // --------------------------------- what the commands promise, read off processes and files

  /** The first turn of the polling loop that sees anything sees `poll`. */
  ghost predicate Settles(polls: seq<Poll>, poll: Poll) {
    exists k | 0 <= k < |polls| :: polls[k] == poll != NotYet && forall j | 0 <= j < k :: polls[j] == NotYet
  }

  ghost predicate NeverSettles(polls: seq<Poll>) {
    forall k | 0 <= k < |polls| :: polls[k] == NotYet
  }

  lemma {:induction false} DecisiveMeans(polls: seq<Poll>)
    ensures forall p | p != NotYet :: Decisive(polls) == p <==> Settles(polls, p)
    ensures Decisive(polls) == NotYet <==> NeverSettles(polls)
  {
    if polls != [] {
      var rest := polls[1..];
      DecisiveMeans(rest);
      if polls[0] == NotYet {
        assert forall k | 0 < k < |polls| :: polls[k] == rest[k - 1];
        forall p | p != NotYet ensures Settles(polls, p) <==> Settles(rest, p) { SettlesLater(polls, p); }
      } else {
        assert Settles(polls, polls[0]);
      }
    }
  }

  lemma SettlesLater(polls: seq<Poll>, p: Poll)
    requires polls != [] && polls[0] == NotYet
    ensures Settles(polls, p) <==> Settles(polls[1..], p)
  {
    var rest := polls[1..];
    assert forall k | 0 <= k < |rest| :: rest[k] == polls[k + 1];
    if k :| 0 <= k < |rest| && rest[k] == p != NotYet && forall j | 0 <= j < k :: rest[j] == NotYet {
      assert polls[k + 1] == p;
      assert forall j | 0 < j < k + 1 :: polls[j] == rest[j - 1];
    }
    if k :| 0 <= k < |polls| && polls[k] == p != NotYet && forall j | 0 <= j < k :: polls[j] == NotYet {
      assert rest[k - 1] == p;
    }
  }

  ghost predicate Installed(s: State, dir: Dir) {
    dir in s.dirs && s.dirs[dir].checkout.Some?
  }

  ghost predicate PortFree(s: State, port: int) {
    forall pid <- s.procs :: s.procs[pid].port != Some(port)
  }

  /** A start answers with a process exactly when nothing kept it from spawning, the port opened before
      the process exited or the deadline came, and the pid file was written. The process then runs in
      the checkout, on the stored port and under the pid in the file. A start that ends its process, or
      spawns none, leaves all as it was. */
  ghost predicate StartPromise(s: State, id: string, env: StartEnv, t: State, r: Result<int, Failure>)
    requires id in s.insts
  {
    var dir, port := s.insts[id].dir, s.insts[id].port;
    var spawns := && Installed(s, dir) && !env.firstProbeFails && PortFree(s, port) && !env.writeConfigFails
                  && s.dirs[dir].venv && !env.spawnFails;
    && (r.Ok? <==> spawns && Settles(env.polls, Listening) && !env.writePidFails)
    && (r.Ok? ==> r.value == env.pid)
    && (!spawns ==>
          t == s && r == Err(if !Installed(s, dir) then NotInstalled
                             else if env.firstProbeFails then ProbeFailed
                             else if !PortFree(s, port) then PortInUse
                             else if env.writeConfigFails then OsError
                             else if !s.dirs[dir].venv then VenvMissing
                             else OsError))
    && (spawns && (Settles(env.polls, Exited) || NeverSettles(env.polls)) ==> t == s && r == Err(ProcessStartFailed))
    && (spawns && Settles(env.polls, ProbeError) ==>
          && r == Err(ProbeFailed) && t.insts == s.insts && t.dirs == s.dirs
          && t.procs == s.procs[env.pid := Proc(InTree(s.dirs[dir].checkout.value), true, None, Some(id))])
    && (spawns && Settles(env.polls, Listening) ==>
          && (r.Err? ==> r.error == OsError) && t.insts == s.insts
          && t.procs == s.procs[env.pid := Proc(InTree(s.dirs[dir].checkout.value), true, Some(port), Some(id))]
          && t.dirs == s.dirs[dir := s.dirs[dir].(pidFile := if r.Ok? then Some(env.pid) else env.pidFileLeft)])
  }

  /** The promise says of a start all there is to say: it fixes the answer and the state after it. */
  lemma StartMeans(s: State, id: string, env: StartEnv, t: State, r: Result<int, Failure>)
    requires id in s.insts && env.pid !in s.procs
    ensures StartPromise(s, id, env, t, r) <==> (t, r) == AfterStart(s, id, env)
  {
    DecisiveMeans(env.polls);
    assert PortFree(s, s.insts[id].port) <==> !PortOpen(s, s.insts[id].port);
    assert s.procs - {env.pid} == s.procs;
    match Decisive(env.polls) {
      case Exited => assert Settles(env.polls, Exited);
      case NotYet =>
      case ProbeError => assert Settles(env.polls, ProbeError);
      case Listening => assert Settles(env.polls, Listening);
    }
  }

  /** A stop answers true exactly when the process in the pid file is found to be the instance's own and
      exits: then it is gone, and the pid file with it. A pid file of no process is removed; the process
      of anyone else is left alone. */
  ghost predicate StopPromise(s: State, id: string, env: StopEnv, t: State, r: Result<bool, Failure>)
    requires id in s.insts
  {
    var dir := s.insts[id].dir;
    if dir !in s.dirs || s.dirs[dir].pidFile == None then t == s && r == Ok(false)
    else
      var files, pid := s.dirs[dir], s.dirs[dir].pidFile.value;
      var found := && env.readable && Installed(s, dir) && pid in s.procs
                   && s.procs[pid].cwd == InTree(files.checkout.value) && s.procs[pid].runsMain;
      && t.insts == s.insts
      && t.procs == (if found && (env.vanished || env.exits) then s.procs - {pid} else s.procs)
      && t.dirs == (if pid !in s.procs || (found && !env.vanished && env.exits)
                    then s.dirs[dir := files.(pidFile := None)] else s.dirs)
      && r == (if pid !in s.procs then Ok(false)
               else if !found then Err(PidInvalid)
               else if env.vanished then Err(OsError)
               else if env.exits then Ok(true)
               else Err(StopTimeout))
  }

  /** The command line tool, with its loops. */
  class Machine {
    var procs: map<int, Proc>
    var insts: map<string, Inst>
    var dirs: map<Dir, Files>

    constructor (s: State)
      ensures Current() == s
    {
      procs, insts, dirs := s.procs, s.insts, s.dirs;
    }

    function Current(): State
      reads this
    {
      State(procs, insts, dirs)
    }

    method WritePidFile(id: string, pidFile: Option<int>)
      requires id in insts
      modifies `dirs
      ensures Current() == SetPidFile(old(Current()), id, pidFile)
    {
      var files := FilesOf(Current(), id);
      dirs := dirs[insts[id].dir := files.(pidFile := pidFile)];
    }

    /** `command_instance_start`: the kernel gives the process a pid that no live one has. */
    method Start(id: string, env: StartEnv) returns (r: Result<int, Failure>)
      requires id in insts && env.pid !in procs
      modifies this
      ensures StartPromise(old(Current()), id, env, Current(), r)
    {
      var files, port := FilesOf(Current(), id), insts[id].port;
      if files.checkout.None? { return Err(NotInstalled); }
      if env.firstProbeFails { return Err(ProbeFailed); }
      if PortOpen(Current(), port) { return Err(PortInUse); }
      if env.writeConfigFails { return Err(OsError); }
      if !files.venv { return Err(VenvMissing); }
      if env.spawnFails { return Err(OsError); }
      procs := procs[env.pid := Proc(InTree(files.checkout.value), true, None, Some(id))];
      ghost var before := old(procs);
      var i := 0;
      while i < |env.polls|
        invariant i <= |env.polls| && insts == old(insts) && dirs == old(dirs)
        invariant procs == before[env.pid := Proc(InTree(files.checkout.value), true, None, Some(id))]
        invariant forall j | 0 <= j < i :: env.polls[j] == NotYet
      {
        match env.polls[i] {
          case Exited =>
            procs := procs - {env.pid};
            assert procs == before - {env.pid};
            return Err(ProcessStartFailed);
          case ProbeError =>
            return Err(ProbeFailed);
          case Listening =>
            procs := procs[env.pid := procs[env.pid].(port := Some(port))];
            assert procs == before[env.pid := Proc(InTree(files.checkout.value), true, Some(port), Some(id))];
            if env.writePidFails {
              WritePidFile(id, env.pidFileLeft);
              return Err(OsError);
            }
            WritePidFile(id, Some(env.pid));
            return Ok(env.pid);
          case NotYet =>
            i := i + 1;
        }
      }
      procs := procs - {env.pid};
      assert procs == before - {env.pid};
      r := Err(ProcessStartFailed);
    }

    method Stop(id: string, env: StopEnv) returns (r: Result<bool, Failure>)
      requires id in insts
      modifies this
      ensures StopPromise(old(Current()), id, env, Current(), r)
      ensures (Current(), r) == AfterStop(old(Current()), id, env)
    {
      var pidFile := FilesOf(Current(), id).pidFile;
      if pidFile.None? { return Ok(false); }
      var pid := pidFile.value;
      if pid !in procs {
        WritePidFile(id, None);
        return Ok(false);
      }
      if !FoundOwned(Current(), id, pid, env.readable) { return Err(PidInvalid); }
      if env.vanished {
        procs := procs - {pid};
        return Err(OsError);
      }
      if !env.exits { return Err(StopTimeout); }
      procs := procs - {pid};
      WritePidFile(id, None);
      r := Ok(true);
    }
  }

  // ----------------------------------------------------------------------- runs

  datatype Action =
    | Start(id: string, startEnv: StartEnv)
    | Stop(id: string, stopEnv: StopEnv)
    | Install(id: string, checkout: Option<int>, venv: bool, readable: bool)
    | SetPort(id: string, port: int, readable: bool)
    // what the environment does
    | AddInstance(id: string, inst: Inst)
    | Die(pid: int)
    | Fork(pid: int, proc: Proc)
    | Listen(pid: int, at: Option<int>)

  /** The environment gives out free pids, reused ones among them, makes unmanaged processes, and
      lets managed ones listen undisturbed. */
  predicate Admissible(s: State, action: Action) {
    match action
    case Start(id, env) => id in s.insts && env.pid !in s.procs
    case Stop(id, _) => id in s.insts
    case Install(id, _, _, _) => id in s.insts
    case SetPort(id, _, _) => id in s.insts
    case AddInstance(id, _) => id !in s.insts
    case Die(_) => true
    case Fork(pid, proc) => pid !in s.procs && proc.manager.None?
    case Listen(pid, _) => pid in s.procs && s.procs[pid].manager.None?
  }

  function Step(s: State, action: Action): State
    requires Admissible(s, action)
  {
    match action
    case Start(id, env) => AfterStart(s, id, env).0
    case Stop(id, env) => AfterStop(s, id, env).0
    case Install(id, checkout, venv, readable) => AfterInstall(s, id, checkout, venv, readable).0
    case SetPort(id, port, readable) => AfterSetPort(s, id, port, readable).0
    case AddInstance(id, inst) => s.(insts := s.insts[id := inst])
    case Die(pid) => Killed(s, pid)
    case Fork(pid, proc) => s.(procs := s.procs[pid := proc])
    case Listen(pid, at) => s.(procs := s.procs[pid := s.procs[pid].(port := at)])
  }

  /** A start that fails after the spawn without ending the process: the port probe of the
      polling loop raises, or the pid file cannot be written. */
  predicate Orphans(s: State, id: string, env: StartEnv)
    requires id in s.insts
  {
    && StartRefused(s, id, env).None?
    && (Decisive(env.polls) == ProbeError
        || (Decisive(env.polls) == Listening && env.writePidFails && env.pidFileLeft != Some(env.pid)))
  }

  /** A start that takes the pid file from a managed process of another instance of the directory. */
  predicate TakesPidFile(s: State, id: string, env: StartEnv)
    requires id in s.insts
  {
    && StartRefused(s, id, env).None? && Decisive(env.polls) == Listening
    && exists pid <- s.procs :: LiveIn(s, s.insts[id].dir, pid)
  }

  /** What makes a command lose track of a managed process: an orphaning start, a start over the pid
      file of another instance, and an install or a port change that passes because the live process
      could not be read. */
  predicate LosesTrack(s: State, action: Action)
    requires Admissible(s, action)
  {
    match action
    case Start(id, env) => Orphans(s, id, env) || TakesPidFile(s, id, env)
    case Install(id, checkout, _, readable) =>
      && !readable && checkout != FilesOf(s, id).checkout
      && exists pid <- s.procs :: LiveIn(s, s.insts[id].dir, pid)
    case SetPort(id, port, readable) =>
      !readable && port != s.insts[id].port && exists pid <- s.procs :: Managed(s, id, pid)
    case _ => false
  }

  /** A process that loses its place makes the whole untracked. */
  lemma OutOfPlace(s: State, id: string, pid: int)
    requires id in s.insts && Managed(s, id, pid) && !InPlace(s, id, pid)
    ensures !AllTracked(s)
  {
    assert !Tracked(s, id);
  }

  /** A start that gets its process to listen. */
  lemma ListeningKeepsTrackedIff(s: State, id: string, env: StartEnv)
    requires AllTracked(s) && Admissible(s, Action.Start(id, env))
    requires StartRefused(s, id, env).None? && Decisive(env.polls) == Listening
    ensures AllTracked(AfterStart(s, id, env).0) <==> !LosesTrack(s, Action.Start(id, env))
  {
    var after := AfterStart(s, id, env).0;
    assert Managed(after, id, env.pid);
    if TakesPidFile(s, id, env) {
      var pid :| pid in s.procs && LiveIn(s, s.insts[id].dir, pid);
      LiveIsReported(s, id, pid, true);
      if FilesOf(after, id).pidFile == Some(env.pid) {
        OutOfPlace(after, s.procs[pid].manager.value, pid);
      } else {
        OutOfPlace(after, id, env.pid);
      }
    } else if Orphans(s, id, env) {
      OutOfPlace(after, id, env.pid);
    } else {
      forall other, pid | other in after.insts && Managed(after, other, pid) ensures InPlace(after, other, pid) {
        if pid != env.pid {
          assert Managed(s, other, pid) && LiveIn(s, s.insts[other].dir, pid) && Tracked(s, other);
        }
      }
    }
  }

  /** A start keeps every process tracked exactly when it orphans none and takes no pid file. */
  lemma StartKeepsTrackedIff(s: State, id: string, env: StartEnv)
    requires AllTracked(s) && Admissible(s, Action.Start(id, env))
    ensures AllTracked(AfterStart(s, id, env).0) <==> !LosesTrack(s, Action.Start(id, env))
  {
    var after := AfterStart(s, id, env).0;
    if StartRefused(s, id, env).None? {
      match Decisive(env.polls) {
        case Listening => ListeningKeepsTrackedIff(s, id, env);
        case ProbeError =>
          assert Managed(after, id, env.pid);
          OutOfPlace(after, id, env.pid);
        case _ => EnvironmentKeepsTracked(s, Die(env.pid));
          assert after.procs == s.procs && Killed(s, env.pid).procs == s.procs;
      }
    }
  }

  lemma StopKeepsTracked(s: State, id: string, env: StopEnv)
    requires AllTracked(s) && id in s.insts
    ensures AllTracked(AfterStop(s, id, env).0)
  {
    var after := AfterStop(s, id, env).0;
    forall other, pid | other in after.insts && Managed(after, other, pid) ensures InPlace(after, other, pid) {
      assert Managed(s, other, pid) && Tracked(s, other);
    }
  }

  /** An install keeps every process tracked exactly when it does not move the checkout from under a
      live process that it could not read. */
  lemma InstallKeepsTrackedIff(s: State, id: string, checkout: Option<int>, venv: bool, readable: bool)
    requires AllTracked(s) && id in s.insts
    ensures AllTracked(AfterInstall(s, id, checkout, venv, readable).0) <==>
      !LosesTrack(s, Install(id, checkout, venv, readable))
  {
    var after := AfterInstall(s, id, checkout, venv, readable).0;
    if LosesTrack(s, Install(id, checkout, venv, readable)) {
      var pid :| pid in s.procs && LiveIn(s, s.insts[id].dir, pid);
      LiveIsReported(s, id, pid, readable);
      OutOfPlace(after, s.procs[pid].manager.value, pid);
    } else {
      forall other, pid | other in after.insts && Managed(after, other, pid) ensures InPlace(after, other, pid) {
        assert Managed(s, other, pid) && LiveIn(s, s.insts[other].dir, pid) && Tracked(s, other);
        if s.insts[other].dir == s.insts[id].dir { LiveIsReported(s, id, pid, readable); }
      }
    }
  }

  /** A port change keeps every process tracked exactly when it does not change the port of a live
      process that it could not read. */
  lemma SetPortKeepsTrackedIff(s: State, id: string, port: int, readable: bool)
    requires AllTracked(s) && id in s.insts
    ensures AllTracked(AfterSetPort(s, id, port, readable).0) <==> !LosesTrack(s, SetPort(id, port, readable))
  {
    var after := AfterSetPort(s, id, port, readable).0;
    if LosesTrack(s, SetPort(id, port, readable)) {
      var pid :| pid in s.procs && Managed(s, id, pid);
      AtMostOneManaged(s, id, pid, pid, readable);
      OutOfPlace(after, id, pid);
    } else {
      forall other, pid | other in after.insts && Managed(after, other, pid) ensures InPlace(after, other, pid) {
        assert Managed(s, other, pid) && Tracked(s, other);
        if other == id { AtMostOneManaged(s, id, pid, pid, readable); }
      }
    }
  }

  lemma EnvironmentKeepsTracked(s: State, action: Action)
    requires AllTracked(s) && Admissible(s, action)
    requires action.AddInstance? || action.Die? || action.Fork? || action.Listen?
    ensures AllTracked(Step(s, action))
  {
    var after := Step(s, action);
    forall id, pid | id in after.insts && Managed(after, id, pid) ensures InPlace(after, id, pid) {
      assert Managed(s, id, pid) && id in s.insts && Tracked(s, id);
    }
  }

  /** Whatever is done, by commands or by the environment, keeps every process tracked exactly when it
      is none of the commands that lose track. */
  lemma ActionKeepsTracked(s: State, action: Action)
    requires AllTracked(s) && Admissible(s, action)
    ensures AllTracked(Step(s, action)) <==> !LosesTrack(s, action)
  {
    match action {
      case Start(id, env) => StartKeepsTrackedIff(s, id, env);
      case Stop(id, env) => StopKeepsTracked(s, id, env);
      case Install(id, checkout, venv, readable) => InstallKeepsTrackedIff(s, id, checkout, venv, readable);
      case SetPort(id, port, readable) => SetPortKeepsTrackedIff(s, id, port, readable);
      case _ => EnvironmentKeepsTracked(s, action);
    }
  }

  ghost predicate AdmissibleRun(s: State, actions: seq<Action>)
    decreases |actions|
  {
    actions == [] || (Admissible(s, actions[0]) && AdmissibleRun(Step(s, actions[0]), actions[1..]))
  }

  ghost function Run(s: State, actions: seq<Action>): State
    requires AdmissibleRun(s, actions)
    decreases |actions|
  {
    if actions == [] then s else Run(Step(s, actions[0]), actions[1..])
  }

  /** Every state of the run has every process tracked. */
  ghost predicate TrackedThroughout(s: State, actions: seq<Action>)
    requires AdmissibleRun(s, actions)
    decreases |actions|
  {
    AllTracked(s) && (actions == [] || TrackedThroughout(Step(s, actions[0]), actions[1..]))
  }

  /** No command of the run loses track. */
  ghost predicate NoneLosesTrack(s: State, actions: seq<Action>)
    requires AdmissibleRun(s, actions)
    decreases |actions|
  {
    actions == [] || (!LosesTrack(s, actions[0]) && NoneLosesTrack(Step(s, actions[0]), actions[1..]))
  }

  /** Over every sequence of commands, deaths, forks with reused pids and foreign listeners: in every
      state each instance has at most one live managed process, named by its pid file and listening on
      the stored port, if and only if no command of the sequence loses track. */
  lemma {:induction false} RunKeepsTracked(s: State, actions: seq<Action>)
    requires AllTracked(s) && AdmissibleRun(s, actions)
    ensures TrackedThroughout(s, actions) <==> NoneLosesTrack(s, actions)
    ensures NoneLosesTrack(s, actions) ==> AllTracked(Run(s, actions))
    decreases |actions|
  {
    if actions != [] {
      ActionKeepsTracked(s, actions[0]);
      if !LosesTrack(s, actions[0]) { RunKeepsTracked(Step(s, actions[0]), actions[1..]); }
    }
  }

  // ------------------------------------------------------- what a caller can see to

  /** No two instances share a directory. */
  ghost predicate DirsApart(s: State) {
    forall a, b | a in s.insts && b in s.insts && a != b :: s.insts[a].dir != s.insts[b].dir
  }

  /** No start orphans, every status can read the process, and every new instance has a directory of its own. */
  ghost predicate Careful(s: State, action: Action)
    requires Admissible(s, action)
  {
    match action
    case Start(id, env) => !Orphans(s, id, env)
    case Install(_, _, _, readable) => readable
    case SetPort(_, _, readable) => readable
    case AddInstance(_, inst) => forall other <- s.insts :: s.insts[other].dir != inst.dir
    case _ => true
  }

  lemma CarefulKeepsTrack(s: State, action: Action)
    requires AllTracked(s) && DirsApart(s) && Admissible(s, action) && Careful(s, action)
    ensures !LosesTrack(s, action) && DirsApart(Step(s, action))
  {
    if action.Start? {
      forall pid | pid in s.procs && LiveIn(s, s.insts[action.id].dir, pid)
        ensures StartRefused(s, action.id, action.startEnv).Some?
      {
        assert Managed(s, action.id, pid);
        AtMostOneManaged(s, action.id, pid, pid, true);
      }
    }
  }

  ghost predicate CarefulRun(s: State, actions: seq<Action>)
    requires AdmissibleRun(s, actions)
    decreases |actions|
  {
    actions == [] || (Careful(s, actions[0]) && CarefulRun(Step(s, actions[0]), actions[1..]))
  }

  /** So where every instance has a directory of its own, careful runs keep every process tracked. */
  lemma {:induction false} CarefulRunKeepsTracked(s: State, actions: seq<Action>)
    requires AllTracked(s) && DirsApart(s) && AdmissibleRun(s, actions) && CarefulRun(s, actions)
    ensures AllTracked(Run(s, actions)) && DirsApart(Run(s, actions))
    decreases |actions|
  {
    if actions != [] {
      CarefulKeepsTrack(s, actions[0]);
      ActionKeepsTracked(s, actions[0]);
      CarefulRunKeepsTracked(Step(s, actions[0]), actions[1..]);
    }
  }

  /** A stop takes down nothing but the process in the pid file, and that only when it is the
      instance's own; when it answers that it stopped, no managed process is left. */
  lemma StopSparesOthers(s: State, id: string, env: StopEnv)
    requires AllTracked(s) && id in s.insts
    ensures var (after, r) := AfterStop(s, id, env);
            && (forall pid <- s.procs :: pid !in after.procs ==>
                  FilesOf(s, id).pidFile == Some(pid) && Owned(s, id, pid))
            && (forall pid <- after.procs :: pid in s.procs && after.procs[pid] == s.procs[pid])
            && (r.Ok? ==> forall pid :: !Managed(after, id, pid))
  {
    var (after, r) := AfterStop(s, id, env);
    forall pid | Managed(after, id, pid) ensures r.Err? {
      assert Tracked(s, id) && Managed(s, id, pid);
    }
  }

  // ------------------------------------------------------- where track is lost

  const DIR := Dir("/data", "a")

  /** A start that goes through. */
  function GoodStart(pid: int): StartEnv {
    StartEnv(false, false, false, pid, [Listening], false, None)
  }

  /** Instances with everything in place. */
  function Ready(insts: map<string, Inst>): State {
    State(map[], insts, map[DIR := Files(Some(7), true, None)])
  }

  /** The instance of `Ready` with its process running. */
  function Up(insts: map<string, Inst>): State {
    State(map[10 := Proc(InTree(7), true, Some(8188), Some("a"))], insts, map[DIR := Files(Some(7), true, Some(10))])
  }

  lemma StartBringsUp(insts: map<string, Inst>)
    requires "a" in insts && insts["a"] == Inst(DIR, 8188)
    ensures AllTracked(Ready(insts)) && AfterStart(Ready(insts), "a", GoodStart(10)) == (Up(insts), Ok(10))
  {
    assert Decisive(GoodStart(10).polls) == Listening;
    var after := AfterStart(Ready(insts), "a", GoodStart(10)).0;
    assert after.procs == Up(insts).procs && after.dirs == Up(insts).dirs;
  }

  /** A second start on a port that is free. */
  lemma StartOnFreePort(s: State, id: string)
    requires id in s.insts && FilesOf(s, id).checkout.Some? && FilesOf(s, id).venv && 11 !in s.procs
    requires !PortOpen(s, s.insts[id].port)
    ensures var after := AfterStart(s, id, GoodStart(11)).0;
      && Managed(after, id, 11) && FilesOf(after, id).pidFile == Some(11)
      && forall pid <- s.procs :: pid in after.procs && after.procs[pid] == s.procs[pid]
  {
    assert Decisive(GoodStart(11).polls) == Listening;
  }

  /** A probe error strands a process that no pid file names, and the next start makes a second
      managed process of the same instance. */
  lemma OrphanLeadsToTwo()
    ensures var s := Ready(map["a" := Inst(DIR, 8188)]);
            var first := StartEnv(false, false, false, 10, [NotYet, ProbeError], false, None);
            && AllTracked(s) && Admissible(s, Action.Start("a", first))
            && var t := AfterStart(s, "a", first).0;
               && Admissible(t, Action.Start("a", GoodStart(11)))
               && var u := AfterStart(t, "a", GoodStart(11)).0;
                  Managed(u, "a", 10) && Managed(u, "a", 11)
  {
    var s := Ready(map["a" := Inst(DIR, 8188)]);
    var first := StartEnv(false, false, false, 10, [NotYet, ProbeError], false, None);
    assert Decisive(first.polls[1..]) == ProbeError;
    assert Decisive(first.polls) == ProbeError;
    var t := AfterStart(s, "a", first).0;
    assert t.procs == map[10 := Proc(InTree(7), true, None, Some("a"))];
    StartOnFreePort(t, "a");
  }

  /** A pid file that cannot be written leaves a process that no status sees, so the port may be changed,
      and the next start makes a second managed process. */
  lemma UnwrittenPidFileLeadsToTwo()
    ensures var s := Ready(map["a" := Inst(DIR, 8188)]);
            var first := StartEnv(false, false, false, 10, [Listening], true, None);
            && AllTracked(s) && Admissible(s, Action.Start("a", first))
            && var t := AfterSetPort(AfterStart(s, "a", first).0, "a", 8189, true).0;
               && Admissible(t, Action.Start("a", GoodStart(11)))
               && var u := AfterStart(t, "a", GoodStart(11)).0;
                  Managed(u, "a", 10) && Managed(u, "a", 11)
  {
    var s := Ready(map["a" := Inst(DIR, 8188)]);
    var first := StartEnv(false, false, false, 10, [Listening], true, None);
    assert Decisive(first.polls) == Listening;
    var t := AfterSetPort(AfterStart(s, "a", first).0, "a", 8189, true).0;
    assert t.procs == map[10 := Proc(InTree(7), true, Some(8188), Some("a"))];
    StartOnFreePort(t, "a");
  }

  /** A status that cannot read the live process lets a port change pass, and the next start makes a
      second managed process on the new port. */
  lemma UnreadableLeadsToTwo()
    ensures var s := AfterStart(Ready(map["a" := Inst(DIR, 8188)]), "a", GoodStart(10)).0;
            && AllTracked(s) && Admissible(s, SetPort("a", 8189, false))
            && var t := AfterSetPort(s, "a", 8189, false).0;
               && Admissible(t, Action.Start("a", GoodStart(11)))
               && var u := AfterStart(t, "a", GoodStart(11)).0;
                  Managed(u, "a", 10) && Managed(u, "a", 11)
  {
    var insts := map["a" := Inst(DIR, 8188)];
    StartBringsUp(insts);
    assert forall pid | Managed(Up(insts), "a", pid) :: InPlace(Up(insts), "a", pid);
    StartOnFreePort(AfterSetPort(Up(insts), "a", 8189, false).0, "a");
  }

  /** A status that cannot read the live process lets an install pass, after which the process runs in a
      tree that is no longer active, and even a stop that can read it takes it for a foreign one. */
  lemma UnreadableInstallStrands()
    ensures var s := AfterStart(Ready(map["a" := Inst(DIR, 8188)]), "a", GoodStart(10)).0;
            && AllTracked(s) && Admissible(s, Install("a", Some(8), true, false))
            && var t := AfterInstall(s, "a", Some(8), true, false).0;
               && Managed(t, "a", 10) && !Owned(t, "a", 10)
               && AfterStop(t, "a", StopEnv(true, false, true)) == (t, Err(PidInvalid))
  {
    var insts := map["a" := Inst(DIR, 8188)];
    StartBringsUp(insts);
    assert forall pid | Managed(Up(insts), "a", pid) :: InPlace(Up(insts), "a", pid);
  }

  /** Two instances that share a directory: the start of the second takes the one pid file, which then
      no longer names the live process of the first. */
  lemma SharedDirLosesFirst()
    ensures var s := AfterStart(Ready(map["a" := Inst(DIR, 8188), "b" := Inst(DIR, 8189)]), "a", GoodStart(10)).0;
            && AllTracked(s) && Admissible(s, Action.Start("b", GoodStart(11)))
            && var t := AfterStart(s, "b", GoodStart(11)).0;
               Managed(t, "a", 10) && FilesOf(t, "a").pidFile == Some(11)
  {
    var insts := map["a" := Inst(DIR, 8188), "b" := Inst(DIR, 8189)];
    StartBringsUp(insts);
    assert forall id, pid | id in insts && Managed(Up(insts), id, pid) :: InPlace(Up(insts), id, pid);
    StartOnFreePort(Up(insts), "b");
  }
}
