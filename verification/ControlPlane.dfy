/** Hosts, model roots, instances and command runs, and the transactions over them
    (app/services/comfy_service.py, app/repositories/comfy_repository.py, app/models/comfy.py).
    A committed transaction is one step. The answers of the command client are handed in. */
module ControlPlane {
  import opened Wrappers

  datatype Root = Root(host: string, path: string)

  datatype Instance = Instance(host: string, slug: string, ref: string, commit: Option<string>, port: int,
                               gpus: seq<string>, primary: Option<string>, launchedAt: Option<int>)

  datatype Kind = InstallRun | StartRun | StopRun

  datatype Phase = Running | Completed | Failed

  datatype CommandRun = CommandRun(kind: Kind, instance: string, phase: Phase, error: Option<string>)

  /** The committed tables. `hosts` holds the data root of each host, as the path that it resolves to;
      `links` holds the model roots of each instance. */
  datatype Db = Db(hosts: map<string, string>, roots: map<string, Root>, instances: map<string, Instance>,
                   links: map<string, set<string>>, runs: map<string, CommandRun>)

  datatype Error =
    | HostNotFound | SlugConflict | ModelRootNotFound | ModelRootConflict | RequestInvalid | InstanceNotFound
    | InstanceRunning | IntegrityFailure | ClientError(code: string)

  // ----------------------------------------------------------------- invariants

  ghost predicate RootsFit(db: Db, host: string, roots: set<string>) {
    forall r <- roots :: r in db.roots && db.roots[r].host == host
  }

  /** The primary root is absent or among the instance's roots, which exist on its own host. */
  ghost predicate InstanceFits(db: Db, id: string)
    requires id in db.instances
  {
    && id in db.links
    && db.instances[id].host in db.hosts
    && RootsFit(db, db.instances[id].host, db.links[id])
    && (db.instances[id].primary.Some? ==> db.instances[id].primary.value in db.links[id])
  }

  ghost predicate Fits(db: Db) {
    && (forall r <- db.roots :: db.roots[r].host in db.hosts)
    && (forall id <- db.instances :: InstanceFits(db, id))
    && (forall a, b | a in db.instances && b in db.instances && a != b ::
          db.instances[a].host != db.instances[b].host || db.instances[a].slug != db.instances[b].slug)
  }

  /** Hosts and model roots are never removed or moved, and an instance keeps its host and slug. */
  ghost predicate Grows(before: Db, after: Db) {
    && (forall h <- before.hosts :: h in after.hosts && after.hosts[h] == before.hosts[h])
    && (forall r <- before.roots :: r in after.roots && after.roots[r] == before.roots[r])
    && (forall id <- before.instances ::
          && id in after.instances
          && after.instances[id].host == before.instances[id].host
          && after.instances[id].slug == before.instances[id].slug)
  }

  predicate NoDuplicates(ids: seq<string>) {
    forall i, j | 0 <= i < j < |ids| :: ids[i] != ids[j]
  }

  function AsSet(ids: seq<string>): set<string> {
    set id | id in ids
  }

  /** A query result without a promised order. */
  ghost predicate Enumerates(ids: seq<string>, s: set<string>) {
    AsSet(ids) == s && NoDuplicates(ids)
  }

  // ------------------------------------------------------------ create an instance

  datatype CreateRequest = CreateRequest(host: string, slug: string, ref: string, port: int, gpus: seq<string>,
                                         roots: seq<string>, primary: Option<string>)

  predicate SlugTaken(db: Db, host: string, slug: string) {
    exists id <- db.instances :: db.instances[id].host == host && db.instances[id].slug == slug
  }

  predicate RootsOnHost(db: Db, host: string, roots: seq<string>) {
    forall r <- roots :: r in db.roots && db.roots[r].host == host
  }

  ghost function RootsOf(db: Db, host: string): set<string> {
    set r | r in db.roots && db.roots[r].host == host
  }

  /** The roots of the request, or else the oldest root of the host, if there is one. */
  function ChosenRoots(request: CreateRequest, listing: seq<string>): seq<string> {
    if request.roots != [] then request.roots else if listing != [] then [listing[0]] else []
  }

  function ChosenPrimary(request: CreateRequest, roots: seq<string>): Option<string> {
    if request.primary.Some? && request.primary.value != "" then request.primary
    else if roots != [] then Some(roots[0])
    else None
  }

  /** The checks of `create_instance`; `listing` are the roots of the host, oldest first. */
  function CheckCreate(db: Db, request: CreateRequest, listing: seq<string>): Result<(Instance, seq<string>), Error> {
    var roots := ChosenRoots(request, listing);
    var primary := ChosenPrimary(request, roots);
    if !NoDuplicates(request.roots) then Err(RequestInvalid)
    else if request.host !in db.hosts then Err(HostNotFound)
    else if SlugTaken(db, request.host, request.slug) then Err(SlugConflict)
    else if primary.Some? && primary.value !in roots then Err(ModelRootNotFound)
    else if !RootsOnHost(db, request.host, roots) then Err(ModelRootNotFound)
    else Ok((Instance(request.host, request.slug, request.ref, None, request.port, request.gpus, primary, None), roots))
  }

  /** The insert, which the unique index over host and slug may still reject. */
  function InsertInstance(db: Db, id: string, instance: Instance, roots: seq<string>): Result<Db, Error> {
    if id in db.instances || SlugTaken(db, instance.host, instance.slug) then Err(IntegrityFailure)
    else Ok(db.(instances := db.instances[id := instance], links := db.links[id := AsSet(roots)]))
  }

  // ------------------------------------------------------ update the launch config

  /** A request field that may be left out or set to null. */
  datatype Field<T> = Unset | Null | Value(value: T)

  datatype LaunchUpdate = LaunchUpdate(port: Field<int>, gpus: Field<seq<string>>, roots: Field<seq<string>>,
                                       primary: Field<string>)

  /** What the read transaction hands on. */
  datatype Context = Context(id: string, instance: Instance, roots: seq<string>)

  /** What the write transaction is going to store. */
  datatype LaunchWrite = LaunchWrite(id: string, host: string, port: int, gpus: seq<string>, primary: Option<string>,
                                     roots: seq<string>)

  function FinalPrimary(context: Context, update: LaunchUpdate, roots: seq<string>): Option<string> {
    match update.primary
    case Value(id) => Some(id)
    case Null => None
    case Unset =>
      var current := context.instance.primary;
      if current.Some? && current.value !in roots then (if roots != [] then Some(roots[0]) else None) else current
  }

  function CheckRequest(update: LaunchUpdate): bool {
    && !(update.port.Unset? && update.gpus.Unset? && update.roots.Unset? && update.primary.Unset?)
    && !update.port.Null? && !update.gpus.Null? && !update.roots.Null?
    && (update.roots.Value? ==> NoDuplicates(update.roots.value))
  }

  /** The part between the two transactions: it works on what the read transaction saw. */
  function CheckLaunch(context: Context, update: LaunchUpdate, processAlive: bool): Result<LaunchWrite, Error> {
    var roots := if update.roots.Value? then update.roots.value else context.roots;
    var primary := FinalPrimary(context, update, roots);
    if !CheckRequest(update) then Err(RequestInvalid)
    else if processAlive then Err(InstanceRunning)
    else if primary.Some? && primary.value !in roots then Err(ModelRootNotFound)
    else Ok(LaunchWrite(context.id, context.instance.host,
                        if update.port.Value? then update.port.value else context.instance.port,
                        if update.gpus.Value? then update.gpus.value else context.instance.gpus,
                        primary, roots))
  }

  /** The write transaction. */
  function WriteLaunch(db: Db, w: LaunchWrite): Result<Db, Error> {
    if w.id !in db.instances then Err(InstanceNotFound)
    else if !RootsOnHost(db, w.host, w.roots) then Err(ModelRootNotFound)
    else
      var instance := db.instances[w.id].(port := w.port, gpus := w.gpus, primary := w.primary);
      Ok(db.(instances := db.instances[w.id := instance],
             links := db.links[w.id := AsSet(w.roots)]))
  }

  /** A write that was checked against an earlier state fits every state that grew from it. */
  ghost predicate WriteFits(db: Db, w: LaunchWrite) {
    && w.id in db.instances && db.instances[w.id].host == w.host
    && (w.primary.Some? ==> w.primary.value in w.roots)
    && NoDuplicates(w.roots)
  }

  lemma CheckedLaunchFits(db: Db, context: Context, update: LaunchUpdate, processAlive: bool)
    requires Fits(db) && context.id in db.instances && context.instance == db.instances[context.id]
    requires Enumerates(context.roots, db.links[context.id])
    requires CheckLaunch(context, update, processAlive).Ok?
    ensures WriteFits(db, CheckLaunch(context, update, processAlive).value)
  {}

  lemma WriteKeepsFits(db: Db, w: LaunchWrite)
    requires Fits(db) && WriteFits(db, w) && WriteLaunch(db, w).Ok?
    ensures Fits(WriteLaunch(db, w).value) && Grows(db, WriteLaunch(db, w).value)
    ensures WriteLaunch(db, w).value.links[w.id] == AsSet(w.roots)
  {}

  /** What was checked against an earlier state keeps the relations in every state that grew from it. */
  lemma LateWriteKeepsFits(db: Db, others: Db, context: Context, update: LaunchUpdate, processAlive: bool)
    requires Fits(db) && context.id in db.instances && context.instance == db.instances[context.id]
    requires Enumerates(context.roots, db.links[context.id])
    requires Fits(others) && Grows(db, others) && CheckLaunch(context, update, processAlive).Ok?
    ensures var w := CheckLaunch(context, update, processAlive).value;
      && NoDuplicates(w.roots)
      && (WriteLaunch(others, w).Ok? ==> Fits(WriteLaunch(others, w).value) && Grows(db, WriteLaunch(others, w).value))
  {
    var w := CheckLaunch(context, update, processAlive).value;
    CheckedLaunchFits(db, context, update, processAlive);
    if WriteLaunch(others, w).Ok? { WriteKeepsFits(others, w); }
  }

  lemma InsertKeepsFits(db: Db, id: string, instance: Instance, roots: seq<string>)
    requires Fits(db) && InsertInstance(db, id, instance, roots).Ok?
    requires instance.host in db.hosts && RootsOnHost(db, instance.host, roots)
    requires instance.primary.Some? ==> instance.primary.value in roots
    ensures Fits(InsertInstance(db, id, instance, roots).value)
    ensures Grows(db, InsertInstance(db, id, instance, roots).value)
  {}

  // ------------------------- what the two writes promise, read off request and rows

  ghost predicate Repeats(ids: seq<string>) {
    exists i, j :: 0 <= i < j < |ids| && ids[i] == ids[j]
  }

  /** One of the roots is not there, or on another host. */
  ghost predicate Strays(s: Db, ids: seq<string>, host: string) {
    exists id <- ids :: id !in s.roots || s.roots[id].host != host
  }

  ghost predicate SlugInUse(s: Db, host: string, slug: string) {
    exists id <- s.instances :: s.instances[id].host == host && s.instances[id].slug == slug
  }

  /** An instance is created with what the request gives, on the oldest root of its host when it names
      none; its primary root is the first one when it names none or an empty one. Every error has its
      own condition and leaves the tables alone. */
  ghost predicate CreatePromise(s: Db, id: string, request: CreateRequest, listing: seq<string>, t: Db,
                                r: Result<Instance, Error>)
  {
    var roots := if request.roots != [] || listing == [] then request.roots else [listing[0]];
    var named := request.primary != None && request.primary != Some("");
    var primary := if named then request.primary else if roots == [] then None else Some(roots[0]);
    && (if Repeats(request.roots) then r == Err(RequestInvalid)
        else if request.host !in s.hosts then r == Err(HostNotFound)
        else if SlugInUse(s, request.host, request.slug) then r == Err(SlugConflict)
        else if (named && request.primary.value !in roots) || Strays(s, roots, request.host) then
          r == Err(ModelRootNotFound)
        else if id in s.instances then r == Err(IntegrityFailure)
        else
          && r == Ok(Instance(request.host, request.slug, request.ref, None, request.port, request.gpus, primary, None))
          && t.instances == s.instances[id := r.value]
          && t.links == s.links[id := set root | root in roots])
    && t.hosts == s.hosts && t.roots == s.roots && t.runs == s.runs
    && (r.Err? ==> t == s)
  }

  /** A launch config takes what the update gives and what the read transaction saw of the rest. The
      primary root is the one that is given, none when null is given, and otherwise the current one
      unless the roots no longer hold it, when the first of them takes its place. Nothing else of what
      `others` have left changes. Every error has its own condition. */
  ghost predicate LaunchPromise(s: Db, context: Context, update: LaunchUpdate, alive: bool, others: Db, t: Db,
                                r: Result<(), Error>)
  {
    var id, current := context.id, context.instance;
    var port := if update.port.Value? then update.port.value else current.port;
    var gpus := if update.gpus.Value? then update.gpus.value else current.gpus;
    var roots := if update.roots.Value? then update.roots.value else context.roots;
    var primary := if update.primary.Value? then Some(update.primary.value)
                   else if update.primary.Null? || current.primary == None then None
                   else if current.primary.value in roots then current.primary
                   else if roots == [] then None else Some(roots[0]);
    if || update == LaunchUpdate(Unset, Unset, Unset, Unset) || update.port == Null || update.gpus == Null
       || update.roots == Null
       || (update.roots.Value? && Repeats(roots)) then
      r == Err(RequestInvalid) && t == s
    else if alive then r == Err(InstanceRunning) && t == s
    else if update.primary.Value? && update.primary.value !in roots then r == Err(ModelRootNotFound) && t == s
    else if Strays(others, roots, current.host) then
      r == Err(ModelRootNotFound) && t == others
    else
      && r == Ok(()) && id in others.instances
      && t.hosts == others.hosts && t.roots == others.roots && t.runs == others.runs
      && t.links == others.links[id := set root | root in roots]
      && t.instances ==
         others.instances[id := others.instances[id].(port := port, gpus := gpus, primary := primary)]
  }

  lemma ConditionsMean(s: Db, ids: seq<string>, host: string, slug: string)
    ensures Repeats(ids) <==> !NoDuplicates(ids)
    ensures Strays(s, ids, host) <==> !RootsOnHost(s, host, ids)
    ensures SlugInUse(s, host, slug) <==> SlugTaken(s, host, slug)
  {}

  lemma CreateMeans(s: Db, id: string, request: CreateRequest, listing: seq<string>)
    ensures match CheckCreate(s, request, listing)
      case Err(e) => CreatePromise(s, id, request, listing, s, Err(e))
      case Ok((instance, roots)) =>
        match InsertInstance(s, id, instance, roots)
        case Err(e) => CreatePromise(s, id, request, listing, s, Err(e))
        case Ok(t) => CreatePromise(s, id, request, listing, t, Ok(instance))
  {
    ConditionsMean(s, request.roots, request.host, request.slug);
    ConditionsMean(s, ChosenRoots(request, listing), request.host, request.slug);
  }

  lemma LaunchMeans(s: Db, context: Context, update: LaunchUpdate, alive: bool, others: Db)
    requires context.id in others.instances
    ensures match CheckLaunch(context, update, alive)
      case Err(e) => LaunchPromise(s, context, update, alive, others, s, Err(e))
      case Ok(w) =>
        match WriteLaunch(others, w)
        case Err(e) => LaunchPromise(s, context, update, alive, others, others, Err(e))
        case Ok(t) => LaunchPromise(s, context, update, alive, others, t, Ok(()))
  {
    var roots := if update.roots.Value? then update.roots.value else context.roots;
    ConditionsMean(others, roots, context.instance.host, "");
  }

  // ---------------------------------------------------------------- command runs

  /** What the command client brings back: the payload of the command, or an error. */
  datatype Answer = Payload(ok: bool, code: string, commit: string) | Raised(code: string)

  predicate Succeeded(answer: Answer) {
    answer.Payload? && answer.ok
  }

  function FinishedRun(run: CommandRun, answer: Answer): CommandRun {
    if Succeeded(answer) then run.(phase := Completed, error := None)
    else run.(phase := Failed, error := Some(answer.code))
  }

  function RecordRun(db: Db, runId: string, run: CommandRun): Db {
    db.(runs := db.runs[runId := run])
  }

  function FinishRun(db: Db, runId: string, answer: Answer): Db
    requires runId in db.runs
  {
    RecordRun(db, runId, FinishedRun(db.runs[runId], answer))
  }

  function CommitOf(text: string): Option<string> {
    if text == "" then None else Some(text)
  }

  function StoreInstall(db: Db, id: string, ref: string, commit: string): Db
    requires id in db.instances
  {
    db.(instances := db.instances[id := db.instances[id].(ref := ref, commit := CommitOf(commit))])
  }

  function StoreLaunch(db: Db, id: string, now: int): Db
    requires id in db.instances
  {
    db.(instances := db.instances[id := db.instances[id].(launchedAt := Some(now))])
  }

  /** What the steps of a start store, and the steps of an install, read off the rows. */
  lemma StepsStore(db: Db, id: string, kind: Kind, ref: string, runId: string, answer: Answer, now: int)
    requires id in db.instances
    ensures var ok, row := answer.Payload? && answer.ok, db.instances[id];
      var finished := FinishRun(RecordRun(db, runId, CommandRun(kind, id, Running, None)), runId, answer);
      var runs := db.runs[runId := CommandRun(kind, id, if ok then Completed else Failed,
                                              if ok then None else Some(answer.code))];
      && finished == db.(runs := runs)
      && StoreLaunch(finished, id, now) ==
         db.(runs := runs, instances := db.instances[id := row.(launchedAt := Some(now))])
      && (ok ==>
            StoreInstall(finished, id, ref, answer.commit) ==
            db.(runs := runs,
                instances := db.instances[id := row.(ref := ref, commit := if answer.commit == "" then None
                                                                           else Some(answer.commit))]))
  {}

  // ------------------------------------------------------------------ the service

  class Service {
    var hosts: map<string, string>
    var roots: map<string, Root>
    var instances: map<string, Instance>
    var links: map<string, set<string>>
    var runs: map<string, CommandRun>

    constructor ()
      ensures Current() == Db(map[], map[], map[], map[], map[])
    {
      hosts, roots, instances, links, runs := map[], map[], map[], map[], map[];
    }

    function Current(): Db
      reads this
    {
      Db(hosts, roots, instances, links, runs)
    }

    /** `set_model_roots`: all links are deleted, then added one by one. */
    method SetModelRoots(id: string, ids: seq<string>)
      requires NoDuplicates(ids)
      modifies `links
      ensures links == old(links)[id := AsSet(ids)]
    {
      links := links[id := {}];
      assert AsSet(ids[..0]) == {};
      for i := 0 to |ids|
        invariant links == old(links)[id := AsSet(ids[..i])]
      {
        assert AsSet(ids[..i + 1]) == AsSet(ids[..i]) + {ids[i]};
        links := links[id := links[id] + {ids[i]}];
      }
      assert ids[..|ids|] == ids;
    }

    method CreateInstance(id: string, request: CreateRequest, listing: seq<string>) returns (r: Result<Instance, Error>)
      requires Fits(Current()) && Enumerates(listing, RootsOf(Current(), request.host))
      modifies this
      ensures Fits(Current()) && Grows(old(Current()), Current())
      ensures CreatePromise(old(Current()), id, request, listing, Current(), r)
      ensures r.Err? ==> Current() == old(Current())
      ensures r.Ok? ==> InsertInstance(old(Current()), id, r.value, ChosenRoots(request, listing)) == Ok(Current())
                        && CheckCreate(old(Current()), request, listing) == Ok((r.value, ChosenRoots(request, listing)))
      ensures r.Ok? <==> CheckCreate(old(Current()), request, listing).Ok? && id !in old(instances)
    {
      CreateMeans(Current(), id, request, listing);
      var checked := CheckCreate(Current(), request, listing);
      if checked.Err? { return Err(checked.error); }
      var (instance, chosen) := checked.value;
      if id in instances || SlugTaken(Current(), instance.host, instance.slug) { return Err(IntegrityFailure); }
      InsertKeepsFits(Current(), id, instance, chosen);
      instances := instances[id := instance];
      SetModelRoots(id, chosen);
      r := Ok(instance);
    }

    /** `update_instance_launch_config`: `others` are the tables as other transactions have left them
        between the read transaction and the write transaction. */
    method UpdateLaunchConfig(context: Context, update: LaunchUpdate, processAlive: bool, others: Db)
      returns (r: Result<(), Error>)
      requires Fits(Current()) && context.id in instances && context.instance == instances[context.id]
      requires Enumerates(context.roots, links[context.id])
      requires Fits(others) && Grows(Current(), others)
      modifies this
      ensures Fits(Current()) && Grows(old(Current()), Current())
      ensures LaunchPromise(old(Current()), context, update, processAlive, others, Current(), r)
      ensures var checked := CheckLaunch(context, update, processAlive);
        if checked.Err? then r == Err(checked.error) && Current() == old(Current())
        else
          var written := WriteLaunch(others, checked.value);
          if written.Err? then r == Err(written.error) && Current() == others
          else r == Ok(()) && Current() == written.value
      ensures processAlive ==> r.Err? && Current() == old(Current())
    {
      LaunchMeans(Current(), context, update, processAlive, others);
      var checked := CheckLaunch(context, update, processAlive);
      if checked.Err? { return Err(checked.error); }
      var w := checked.value;
      LateWriteKeepsFits(Current(), others, context, update, processAlive);
      Overlap(others);
      r := WriteLaunchConfig(w);
    }

    /** What other transactions have left by now. */
    method Overlap(others: Db)
      modifies this
      ensures Current() == others
    {
      hosts, roots, instances, links, runs := others.hosts, others.roots, others.instances, others.links, others.runs;
    }

    /** Its write transaction, on the tables as they are now. */
    method WriteLaunchConfig(w: LaunchWrite) returns (r: Result<(), Error>)
      requires NoDuplicates(w.roots)
      modifies this
      ensures var written := WriteLaunch(old(Current()), w);
        if written.Err? then r == Err(written.error) && Current() == old(Current())
        else r == Ok(()) && Current() == written.value
    {
      if w.id !in instances { return Err(InstanceNotFound); }
      for i := 0 to |w.roots|
        invariant forall j | 0 <= j < i :: w.roots[j] in roots && roots[w.roots[j]].host == w.host
      {
        if w.roots[i] !in roots || roots[w.roots[i]].host != w.host { return Err(ModelRootNotFound); }
      }
      instances := instances[w.id := instances[w.id].(port := w.port, gpus := w.gpus, primary := w.primary)];
      SetModelRoots(w.id, w.roots);
      r := Ok(());
    }

    /** `_run_recorded` together with `_finish_run`. */
    method RunRecorded(runId: string, answer: Answer) returns (r: Result<string, Error>)
      requires runId in runs
      modifies `runs
      ensures Current() == FinishRun(old(Current()), runId, answer)
      ensures var run, ok := old(runs)[runId], answer.Payload? && answer.ok;
              runs == old(runs)[runId := CommandRun(run.kind, run.instance, if ok then Completed else Failed,
                                                    if ok then None else Some(answer.code))]
      ensures r == if answer.Raised? then Err(ClientError(answer.code)) else Ok(answer.commit)
    {
      if answer.Raised? {
        runs := runs[runId := runs[runId].(phase := Failed, error := Some(answer.code))];
        return Err(ClientError(answer.code));
      }
      var ok := answer.ok;
      runs := runs[runId := runs[runId].(phase := if ok then Completed else Failed,
                                         error := if ok then None else Some(answer.code))];
      r := Ok(answer.commit);
    }

    /** A start of an instance that exists. */
    method StartInstance(id: string, runId: string, answer: Answer, now: int) returns (r: Result<(), Error>)
      requires id in instances && runId !in runs
      modifies this
      ensures var ok := answer.Payload? && answer.ok;
              && r == (if ok then Ok(()) else Err(ClientError(answer.code)))
              && runs == old(runs)[runId := CommandRun(StartRun, id, if ok then Completed else Failed,
                                                       if ok then None else Some(answer.code))]
              && instances == (if ok then old(instances)[id := old(instances)[id].(launchedAt := Some(now))]
                               else old(instances))
              && hosts == old(hosts) && roots == old(roots) && links == old(links)
    {
      runs := runs[runId := CommandRun(StartRun, id, Running, None)];
      var payload := RunRecorded(runId, answer);
      if payload.Err? { return Err(payload.error); }
      if !answer.ok { return Err(ClientError(answer.code)); }
      instances := instances[id := instances[id].(launchedAt := Some(now))];
      r := Ok(());
    }

    /** An install of `ref`, with the restart that may follow it. Whatever becomes of the restart,
        a completed install is stored. */
    method InstallInstance(id: string, ref: string, processAlive: bool, runId: string, answer: Answer,
                           restart: bool, restartId: string, restartAnswer: Answer, now: int)
      returns (r: Result<(), Error>)
      requires id in instances && runId !in runs && restartId !in runs && runId != restartId
      modifies this
      ensures processAlive ==> r == Err(InstanceRunning) && Current() == old(Current())
      ensures hosts == old(hosts) && roots == old(roots) && links == old(links)
      ensures !processAlive ==>
                var ok, restarted := answer.Payload? && answer.ok, restartAnswer.Payload? && restartAnswer.ok;
                var run := CommandRun(InstallRun, id, if ok then Completed else Failed,
                                      if ok then None else Some(answer.code));
                var again := CommandRun(StartRun, id, if restarted then Completed else Failed,
                                        if restarted then None else Some(restartAnswer.code));
                var commit := if ok && answer.commit != "" then Some(answer.commit) else None;
                var row := old(instances)[id];
                && runs == (if ok && restart then old(runs)[runId := run][restartId := again]
                            else old(runs)[runId := run])
                && instances == (if !ok then old(instances)
                                 else if restart && restarted then
                                   old(instances)[id := row.(ref := ref, commit := commit, launchedAt := Some(now))]
                                 else old(instances)[id := row.(ref := ref, commit := commit)])
                && r == (if !ok then Err(ClientError(answer.code))
                         else if restart && !restarted then Err(ClientError(restartAnswer.code)) else Ok(()))
    {
      if processAlive { return Err(InstanceRunning); }
      runs := runs[runId := CommandRun(InstallRun, id, Running, None)];
      var payload := RunRecorded(runId, answer);
      if payload.Err? { return Err(payload.error); }
      if !answer.ok { return Err(ClientError(answer.code)); }
      instances := instances[id := instances[id].(ref := ref, commit := CommitOf(payload.value))];
      if restart {
        r := StartInstance(id, restartId, restartAnswer, now);
      } else {
        r := Ok(());
      }
    }
  }
}
