/** All interleavings of the transactions of module `ControlPlane`: calls of any clients are cut
    into their transactions, and between two transactions of one call any others may commit. */
module ControlRuns {
  import opened Wrappers
  import opened ControlPlane
  import opened Paths

  /** An install command has written its manifest; `turn` is the place of that write in the order in
      which the manifest of the directory was written. */
  datatype Landing = Landing(commit: string, turn: nat)

  /** A call between two of its transactions. `landed` tells whether an install command, which runs
      beside the service, has written its manifest by now. */
  datatype Call =
    | Creating(id: string, instance: Instance, roots: seq<string>)
    | Updating(write: LaunchWrite)
    | Executing(runId: string, ref: string, restart: bool, landed: Option<Landing>)
    | InstallDone(runId: string, ref: string, restart: bool, landing: Landing)
    | StartDone(runId: string)
    | Restarting(id: string)

  /** What `manifest.json` of an instance directory says. */
  datatype Manifest = Manifest(ref: string, commit: string)

  /** The active manifest of a directory, and how often install commands have changed it. */
  datatype Disk = Disk(manifest: Option<Manifest>, turns: nat)

  /** The tables, the calls under way, and the instance directories. */
  datatype World = World(db: Db, calls: map<int, Call>, disks: map<Dir, Disk>)

  datatype Action =
    | AddHost(host: string, dataRoot: string)
    | AddRoot(root: string, host: string, path: string)
    | BeginCreate(call: int, id: string, request: CreateRequest, listing: seq<string>)
    | BeginUpdate(call: int, context: Context, update: LaunchUpdate, processAlive: bool)
    | BeginCommand(call: int, runId: string, kind: Kind, id: string, ref: string, restart: bool, processAlive: bool)
    | Write(call: int)
    | Lose(call: int, left: Option<Manifest>)
    | Land(call: int, commit: string)
    | Return(call: int, answer: Answer)
    | Store(call: int, now: int)
    | Restart(call: int, runId: string)

  function RunOf(w: World, runId: string): CommandRun
    requires runId in w.db.runs
  {
    w.db.runs[runId]
  }

  /** Files are found by data root and slug, not by instance id. */
  function DirOf(db: Db, id: string): Dir
    requires id in db.instances
  {
    var i := db.instances[id];
    Dir(if i.host in db.hosts then db.hosts[i.host] else "", i.slug)
  }

  function DiskAt(w: World, dir: Dir): Disk {
    if dir in w.disks then w.disks[dir] else Disk(None, 0)
  }

  function ManifestOf(w: World, id: string): Option<Manifest>
    requires id in w.db.instances
  {
    DiskAt(w, DirOf(w.db, id)).manifest
  }

  /** A call whose command is running, for an instance that is there. */
  predicate IsRunning(w: World, call: int) {
    && call in w.calls && w.calls[call].Executing? && w.calls[call].runId in w.db.runs
    && RunOf(w, w.calls[call].runId).instance in w.db.instances
  }

  /** An install command that has not written its manifest yet. */
  predicate IsInstalling(w: World, call: int) {
    IsRunning(w, call) && w.calls[call].landed.None? && RunOf(w, w.calls[call].runId).kind.InstallRun?
  }

  function DirOfCall(w: World, call: int): Dir
    requires IsRunning(w, call)
  {
    DirOf(w.db, RunOf(w, w.calls[call].runId).instance)
  }

  /** Fresh names, query results that answer the query, and steps of calls that are there to take
      them. An install command prints its success after it has written the manifest, with that commit. */
  ghost predicate Admissible(w: World, action: Action) {
    match action
    case AddHost(host, _) => host !in w.db.hosts
    case AddRoot(root, _, _) => root !in w.db.roots
    case BeginCreate(call, _, request, listing) => call !in w.calls && Enumerates(listing, RootsOf(w.db, request.host))
    case BeginUpdate(call, context, _, _) =>
      && call !in w.calls && context.id in w.db.instances && context.instance == w.db.instances[context.id]
      && context.id in w.db.links && Enumerates(context.roots, w.db.links[context.id])
    case BeginCommand(call, runId, _, id, _, _, _) => call !in w.calls && runId !in w.db.runs && id in w.db.instances
    case Write(call) => call in w.calls && (w.calls[call].Creating? || w.calls[call].Updating?)
    case Lose(call, _) => IsInstalling(w, call)
    case Land(call, _) => IsInstalling(w, call)
    case Return(call, answer) =>
      && IsRunning(w, call)
      && (Succeeded(answer) && RunOf(w, w.calls[call].runId).kind.InstallRun? ==>
            w.calls[call].landed.Some? && answer.commit == w.calls[call].landed.value.commit)
    case Store(call, _) =>
      && call in w.calls && (w.calls[call].InstallDone? || w.calls[call].StartDone?)
      && w.calls[call].runId in w.db.runs && RunOf(w, w.calls[call].runId).instance in w.db.instances
    case Restart(call, runId) => call in w.calls && w.calls[call].Restarting? && runId !in w.db.runs
  }

  function Ended(w: World, call: int): World {
    w.(calls := w.calls - {call})
  }

  /** The transaction that ends a create or an update; a failure changes no table. */
  function AfterWrite(w: World, call: int): World
    requires call in w.calls && (w.calls[call].Creating? || w.calls[call].Updating?)
  {
    var result := match w.calls[call]
      case Creating(id, instance, roots) => InsertInstance(w.db, id, instance, roots)
      case Updating(write) => WriteLaunch(w.db, write);
    Ended(if result.Ok? then w.(db := result.value) else w, call)
  }

  function WithManifest(w: World, dir: Dir, manifest: Option<Manifest>): World {
    w.(disks := w.disks[dir := Disk(manifest, DiskAt(w, dir).turns + 1)])
  }

  /** The promotion moves the old manifest away; a run that fails then leaves nothing or some text. */
  function AfterLose(w: World, call: int, left: Option<Manifest>): World
    requires IsInstalling(w, call)
  {
    WithManifest(w, DirOfCall(w, call), left)
  }

  /** The install command writes its manifest. */
  function AfterLand(w: World, call: int, commit: string): World
    requires IsInstalling(w, call)
  {
    var t, dir := w.calls[call], DirOfCall(w, call);
    WithManifest(w, dir, Some(Manifest(t.ref, commit))).(
      calls := w.calls[call := t.(landed := Some(Landing(commit, DiskAt(w, dir).turns + 1)))])
  }

  /** The service sees the answer of the command and finishes the run. */
  function AfterReturn(w: World, call: int, answer: Answer): World
    requires Admissible(w, Return(call, answer))
  {
    var t := w.calls[call];
    var run := RunOf(w, t.runId);
    var finished := w.(db := FinishRun(w.db, t.runId, answer));
    if !Succeeded(answer) || run.kind.StopRun? then Ended(finished, call)
    else if run.kind.InstallRun? then
      finished.(calls := w.calls[call := InstallDone(t.runId, t.ref, t.restart, t.landed.value)])
    else finished.(calls := w.calls[call := StartDone(t.runId)])
  }

  /** The transaction after a completed command; a requested restart follows. */
  function AfterStore(w: World, call: int, now: int): World
    requires call in w.calls && (w.calls[call].InstallDone? || w.calls[call].StartDone?)
    requires w.calls[call].runId in w.db.runs && RunOf(w, w.calls[call].runId).instance in w.db.instances
  {
    var t := w.calls[call];
    var id := RunOf(w, t.runId).instance;
    match t
    case InstallDone(_, ref, restart, landing) =>
      var stored := w.(db := StoreInstall(w.db, id, ref, landing.commit));
      if restart then stored.(calls := w.calls[call := Restarting(id)]) else Ended(stored, call)
    case StartDone(_) => Ended(w.(db := StoreLaunch(w.db, id, now)), call)
  }

  /** The restart begins as any start does: it looks the instance up and records its run. */
  function AfterRestart(w: World, call: int, runId: string): World
    requires call in w.calls && w.calls[call].Restarting?
  {
    var id := w.calls[call].id;
    if id !in w.db.instances then Ended(w, call)
    else
      w.(db := RecordRun(w.db, runId, CommandRun(StartRun, id, Running, None)),
         calls := w.calls[call := Executing(runId, "", false, None)])
  }

  ghost function Step(w: World, action: Action): World
    requires Admissible(w, action)
  {
    match action
    case AddHost(host, dataRoot) => w.(db := w.db.(hosts := w.db.hosts[host := dataRoot]))
    case AddRoot(root, host, path) =>
      if host !in w.db.hosts || (exists r <- w.db.roots :: w.db.roots[r] == Root(host, path)) then w
      else w.(db := w.db.(roots := w.db.roots[root := Root(host, path)]))
    case BeginCreate(call, id, request, listing) =>
      var checked := CheckCreate(w.db, request, listing);
      if checked.Err? then w else w.(calls := w.calls[call := Creating(id, checked.value.0, checked.value.1)])
    case BeginUpdate(call, context, update, processAlive) =>
      var checked := CheckLaunch(context, update, processAlive);
      if checked.Err? then w else w.(calls := w.calls[call := Updating(checked.value)])
    case BeginCommand(call, runId, kind, id, ref, restart, processAlive) =>
      if kind.InstallRun? && processAlive then w
      else
        w.(db := RecordRun(w.db, runId, CommandRun(kind, id, Running, None)),
           calls := w.calls[call := Executing(runId, ref, restart, None)])
    case Write(call) => AfterWrite(w, call)
    case Lose(call, left) => AfterLose(w, call, left)
    case Land(call, commit) => AfterLand(w, call, commit)
    case Return(call, answer) => AfterReturn(w, call, answer)
    case Store(call, now) => AfterStore(w, call, now)
    case Restart(call, runId) => AfterRestart(w, call, runId)
  }

  // ------------------------------------------------------- relations between tables

  /** What a call under way may rely on when it goes on. */
  ghost predicate CallFits(db: Db, t: Call) {
    match t
    case Creating(_, instance, roots) =>
      && instance.host in db.hosts && RootsOnHost(db, instance.host, roots)
      && (instance.primary.Some? ==> instance.primary.value in roots)
    case Updating(write) => WriteFits(db, write)
    case Executing(runId, _, _, landed) =>
      && runId in db.runs && db.runs[runId].phase == Running && db.runs[runId].instance in db.instances
      && (landed.Some? ==> db.runs[runId].kind == InstallRun)
    case InstallDone(runId, _, _, _) =>
      && runId in db.runs && db.runs[runId].phase == Completed && db.runs[runId].kind == InstallRun
      && db.runs[runId].instance in db.instances
    case StartDone(runId) =>
      && runId in db.runs && db.runs[runId].phase == Completed && db.runs[runId].kind == StartRun
      && db.runs[runId].instance in db.instances
    case Restarting(id) => id in db.instances
  }

  ghost predicate WorldFits(w: World) {
    && Fits(w.db)
    && (forall t <- w.calls :: CallFits(w.db, w.calls[t]))
    && (forall t, u | t in w.calls && u in w.calls && t != u && w.calls[t].Executing? && w.calls[u].Executing? ::
          w.calls[t].runId != w.calls[u].runId)
    && (forall r <- w.db.runs :: w.db.runs[r].phase == Running ==> exists t :: Executes(w, t, r))
  }

  ghost predicate Executes(w: World, call: int, runId: string) {
    call in w.calls && w.calls[call].Executing? && w.calls[call].runId == runId
  }

  /** A finished run stays as it is. */
  ghost predicate RunsSettle(before: Db, after: Db) {
    forall r <- before.runs ::
      && r in after.runs
      && after.runs[r].kind == before.runs[r].kind && after.runs[r].instance == before.runs[r].instance
      && (before.runs[r].phase != Running ==> after.runs[r] == before.runs[r])
  }

  lemma CallFitsGrowing(before: Db, after: Db, t: Call)
    requires CallFits(before, t) && Grows(before, after) && RunsSettle(before, after)
    requires t.Executing? ==> after.runs[t.runId] == before.runs[t.runId]
    ensures CallFits(after, t)
  {}

  /** Steps of one call that leave every other call alone. */
  lemma OthersFit(before: World, after: World, call: int)
    requires WorldFits(before) && Fits(after.db) && Grows(before.db, after.db) && RunsSettle(before.db, after.db)
    requires after.calls - {call} == before.calls - {call}
    requires forall t <- before.calls :: t != call && before.calls[t].Executing? ==>
               after.db.runs[before.calls[t].runId] == before.db.runs[before.calls[t].runId]
    requires call in after.calls ==> CallFits(after.db, after.calls[call])
    requires call in after.calls && after.calls[call].Executing? ==>
               forall t <- before.calls :: t != call && before.calls[t].Executing? ==>
                 before.calls[t].runId != after.calls[call].runId
    requires forall r <- after.db.runs :: after.db.runs[r].phase == Running ==>
               Executes(after, call, r) || exists t :: t != call && Executes(before, t, r)
    ensures WorldFits(after)
  {
    forall t | t in after.calls ensures CallFits(after.db, after.calls[t]) {
      if t != call {
        assert t in after.calls - {call} && (after.calls - {call})[t] == after.calls[t];
        CallFitsGrowing(before.db, after.db, after.calls[t]);
      }
    }
    forall t | t != call ensures t in after.calls <==> t in before.calls
                         ensures t in after.calls ==> after.calls[t] == before.calls[t]
    {
      assert t in after.calls - {call} <==> t in before.calls - {call};
      if t in after.calls { assert (after.calls - {call})[t] == (before.calls - {call})[t]; }
    }
    forall r | r in after.db.runs && after.db.runs[r].phase == Running ensures exists t :: Executes(after, t, r) {
      if !Executes(after, call, r) {
        var t :| t != call && Executes(before, t, r);
        assert Executes(after, t, r);
      }
    }
  }

  /** When no run starts and the call executes none that goes on, every running run has its command yet. */
  lemma OthersExecute(before: World, after: Db, call: int)
    requires WorldFits(before)
    requires forall r <- after.runs :: after.runs[r].phase == Running ==>
               r in before.db.runs && before.db.runs[r].phase == Running && !Executes(before, call, r)
    ensures forall r <- after.runs :: after.runs[r].phase == Running ==> exists t :: t != call && Executes(before, t, r)
  {
    forall r | r in after.runs && after.runs[r].phase == Running
      ensures exists t :: t != call && Executes(before, t, r)
    {
      var t :| Executes(before, t, r);
    }
  }

  lemma WriteKeepsWorldFits(w: World, call: int)
    requires WorldFits(w) && Admissible(w, Write(call))
    ensures var after := AfterWrite(w, call);
            WorldFits(after) && Grows(w.db, after.db) && RunsSettle(w.db, after.db)
  {
    var after := AfterWrite(w, call);
    assert CallFits(w.db, w.calls[call]);
    match w.calls[call] {
      case Creating(id, instance, roots) =>
        if InsertInstance(w.db, id, instance, roots).Ok? { InsertKeepsFits(w.db, id, instance, roots); }
      case Updating(write) =>
        if WriteLaunch(w.db, write).Ok? { WriteKeepsFits(w.db, write); }
    }
    assert after.calls - {call} == w.calls - {call};
    OthersExecute(w, after.db, call);
    OthersFit(w, after, call);
  }

  /** Tables that differ in the runs and in fields of instances that no relation rests on. */
  lemma SameRelations(before: Db, after: Db)
    requires Fits(before)
    requires after.hosts == before.hosts && after.roots == before.roots && after.links == before.links
    requires after.instances.Keys == before.instances.Keys
    requires forall id <- before.instances ::
               && after.instances[id].host == before.instances[id].host
               && after.instances[id].slug == before.instances[id].slug
               && after.instances[id].primary == before.instances[id].primary
    ensures Fits(after) && Grows(before, after)
  {}

  lemma ReturnEffect(w: World, call: int, answer: Answer)
    requires Admissible(w, Return(call, answer))
    ensures var after, t := AfterReturn(w, call, answer), w.calls[call];
            && after.db == FinishRun(w.db, t.runId, answer)
            && after.calls - {call} == w.calls - {call}
            && (call in after.calls ==>
                  && Succeeded(answer)
                  && (after.calls[call] == StartDone(t.runId) ==> RunOf(w, t.runId).kind == StartRun)
                  && (after.calls[call] != StartDone(t.runId) ==>
                        && RunOf(w, t.runId).kind == InstallRun
                        && after.calls[call].InstallDone? && after.calls[call].runId == t.runId))
  {}

  lemma ReturnKeepsWorldFits(w: World, call: int, answer: Answer)
    requires WorldFits(w) && Admissible(w, Return(call, answer))
    ensures var after := AfterReturn(w, call, answer);
            WorldFits(after) && Grows(w.db, after.db) && RunsSettle(w.db, after.db)
  {
    var after, runId := AfterReturn(w, call, answer), w.calls[call].runId;
    ReturnEffect(w, call, answer);
    assert CallFits(w.db, w.calls[call]);
    SameRelations(w.db, after.db);
    OthersExecute(w, after.db, call);
    OthersFit(w, after, call);
  }

  /** Writing the manifest touches no table. */
  lemma LandKeepsWorldFits(w: World, call: int, commit: string)
    requires WorldFits(w) && Admissible(w, Land(call, commit))
    ensures WorldFits(AfterLand(w, call, commit)) && AfterLand(w, call, commit).db == w.db
  {
    var after := AfterLand(w, call, commit);
    assert CallFits(w.db, w.calls[call]);
    assert after.calls - {call} == w.calls - {call};
    forall r | r in w.db.runs && w.db.runs[r].phase == Running
      ensures Executes(after, call, r) || exists t :: t != call && Executes(w, t, r)
    {
      var t :| Executes(w, t, r);
    }
    OthersFit(w, after, call);
  }

  lemma StoreKeepsWorldFits(w: World, call: int, now: int)
    requires WorldFits(w) && Admissible(w, Store(call, now))
    ensures var after := AfterStore(w, call, now);
            WorldFits(after) && Grows(w.db, after.db) && RunsSettle(w.db, after.db)
  {
    var after := AfterStore(w, call, now);
    assert after.calls - {call} == w.calls - {call};
    SameRelations(w.db, after.db);
    OthersExecute(w, after.db, call);
    OthersFit(w, after, call);
  }

  lemma RestartKeepsWorldFits(w: World, call: int, runId: string)
    requires WorldFits(w) && Admissible(w, Restart(call, runId))
    ensures var after := AfterRestart(w, call, runId);
            WorldFits(after) && Grows(w.db, after.db) && RunsSettle(w.db, after.db)
  {
    var after := AfterRestart(w, call, runId);
    assert after.calls - {call} == w.calls - {call};
    SameRelations(w.db, after.db);
    OthersStay(w, after, call, runId);
    OthersFit(w, after, call);
  }

  /** A run that is new belongs to the call that recorded it. */
  lemma OthersStay(before: World, after: World, call: int, runId: string)
    requires WorldFits(before) && runId !in before.db.runs && !(call in before.calls && before.calls[call].Executing?)
    requires forall r <- after.db.runs :: r == runId || (r in before.db.runs && after.db.runs[r] == before.db.runs[r])
    requires runId in after.db.runs ==> Executes(after, call, runId)
    ensures forall r <- after.db.runs :: after.db.runs[r].phase == Running ==>
              Executes(after, call, r) || exists t :: t != call && Executes(before, t, r)
    ensures forall t <- before.calls :: before.calls[t].Executing? ==> before.calls[t].runId != runId
  {}

  lemma BeginCommandKeepsWorldFits(w: World, action: Action)
    requires WorldFits(w) && Admissible(w, action) && action.BeginCommand?
    ensures var after := Step(w, action);
            WorldFits(after) && Grows(w.db, after.db) && RunsSettle(w.db, after.db)
  {
    var after := Step(w, action);
    if after != w {
      assert after.calls - {action.call} == w.calls - {action.call};
      SameRelations(w.db, after.db);
      OthersStay(w, after, action.call, action.runId);
      OthersFit(w, after, action.call);
    }
  }

  /** What a call under way may rely on holds when it begins. */
  lemma BeginKeepsWorldFits(w: World, action: Action)
    requires WorldFits(w) && Admissible(w, action)
    requires action.BeginCreate? || action.BeginUpdate? || action.BeginCommand?
    ensures var after := Step(w, action);
            WorldFits(after) && Grows(w.db, after.db) && RunsSettle(w.db, after.db)
  {
    var after := Step(w, action);
    if action.BeginCommand? {
      BeginCommandKeepsWorldFits(w, action);
    } else if after != w {
      if action.BeginUpdate? { CheckedLaunchFits(w.db, action.context, action.update, action.processAlive); }
      NewCallFits(w, action.call, after.calls[action.call]);
    }
  }

  /** A call that begins without a transaction of its own. */
  lemma NewCallFits(w: World, call: int, t: Call)
    requires WorldFits(w) && call !in w.calls && CallFits(w.db, t) && !t.Executing?
    ensures WorldFits(w.(calls := w.calls[call := t]))
  {
    var after := w.(calls := w.calls[call := t]);
    assert after.calls - {call} == w.calls - {call};
    OthersExecute(w, w.db, call);
    OthersFit(w, after, call);
  }

  /** Tables that grow under calls that stand still. */
  lemma GrowingKeepsWorldFits(before: World, after: World)
    requires WorldFits(before) && Fits(after.db) && Grows(before.db, after.db)
    requires after.calls == before.calls && after.db.runs == before.db.runs
    ensures WorldFits(after)
  {
    forall t | t in after.calls ensures CallFits(after.db, after.calls[t]) {
      CallFitsGrowing(before.db, after.db, before.calls[t]);
    }
    forall r | r in after.db.runs && after.db.runs[r].phase == Running ensures exists t :: Executes(after, t, r) {
      var t :| Executes(before, t, r);
      assert Executes(after, t, r);
    }
  }

  lemma AddKeepsWorldFits(w: World, action: Action)
    requires WorldFits(w) && Admissible(w, action) && (action.AddHost? || action.AddRoot?)
    ensures var after := Step(w, action);
            WorldFits(after) && Grows(w.db, after.db) && RunsSettle(w.db, after.db)
  {
    var after := Step(w, action);
    forall id | id in after.db.instances ensures InstanceFits(after.db, id) {
      assert InstanceFits(w.db, id);
    }
    GrowingKeepsWorldFits(w, after);
  }

  lemma StepKeepsWorldFits(w: World, action: Action)
    requires WorldFits(w) && Admissible(w, action)
    ensures WorldFits(Step(w, action)) && Grows(w.db, Step(w, action).db) && RunsSettle(w.db, Step(w, action).db)
  {
    match action {
      case AddHost(_, _) => AddKeepsWorldFits(w, action);
      case AddRoot(_, _, _) => AddKeepsWorldFits(w, action);
      case Write(call) => WriteKeepsWorldFits(w, call);
      case Return(call, answer) => ReturnKeepsWorldFits(w, call, answer);
      case Lose(_, _) => GrowingKeepsWorldFits(w, Step(w, action));
      case Land(call, commit) => LandKeepsWorldFits(w, call, commit);
      case Store(call, now) => StoreKeepsWorldFits(w, call, now);
      case Restart(call, runId) => RestartKeepsWorldFits(w, call, runId);
      case _ => BeginKeepsWorldFits(w, action);
    }
  }

  // ----------------------------------------------------------------- command runs

  /** The call that an action continues fits the tables, as it does wherever `WorldFits` holds. */
  ghost predicate ActorFits(w: World, action: Action)
    requires Admissible(w, action)
  {
    action.Return? || action.Lose? || action.Land? || action.Store? ==> CallFits(w.db, w.calls[action.call])
  }

  lemma ActorsFit(w: World, action: Action)
    requires WorldFits(w) && Admissible(w, action)
    ensures ActorFits(w, action)
  {}

  /** No other step changes a run that is there. */
  lemma RunsStay(w: World, action: Action, runId: string)
    requires Admissible(w, action) && !action.Return? && runId in w.db.runs
    ensures runId in Step(w, action).db.runs && Step(w, action).db.runs[runId] == w.db.runs[runId]
  {}

  /** A run changes only when its command comes back: from running to completed if and only if
      the payload was ok, else to failed. */
  lemma RunFinishesWithItsAnswer(w: World, action: Action, runId: string)
    requires Admissible(w, action) && ActorFits(w, action) && runId in w.db.runs
    ensures runId in Step(w, action).db.runs
    ensures w.db.runs[runId] != Step(w, action).db.runs[runId] ==>
              && w.db.runs[runId].phase == Running
              && action.Return? && Executes(w, action.call, runId)
    ensures action.Return? && Executes(w, action.call, runId) ==>
              && w.db.runs[runId].phase == Running
              && Step(w, action).db.runs[runId] == FinishedRun(w.db.runs[runId], action.answer)
  {
    if !action.Return? { RunsStay(w, action, runId); }
  }

  /** Creates and launch-config updates leave what an install or a start stored. */
  lemma WriteKeepsStored(w: World, call: int, id: string)
    requires Admissible(w, Write(call)) && id in w.db.instances
    ensures var after := AfterWrite(w, call);
      && after.disks == w.disks && id in after.db.instances
      && after.db.instances[id].ref == w.db.instances[id].ref
      && after.db.instances[id].commit == w.db.instances[id].commit
      && after.db.instances[id].launchedAt == w.db.instances[id].launchedAt
  {}

  /** The launch time moves only with a completed start of that instance. */
  lemma LaunchTimeMovesWithStart(w: World, action: Action, id: string)
    requires Admissible(w, action) && ActorFits(w, action) && id in w.db.instances
    ensures id in Step(w, action).db.instances
    ensures w.db.instances[id].launchedAt != Step(w, action).db.instances[id].launchedAt ==>
              StoresStart(w, action, id)
    ensures StoresStart(w, action, id) ==> Step(w, action).db.instances[id].launchedAt == Some(action.now)
  {
    if action.Write? { WriteKeepsStored(w, action.call, id); }
  }

  // ------------------------------------------------------------------------ runs

  ghost predicate AdmissibleRun(w: World, actions: seq<Action>)
    decreases |actions|
  {
    actions == [] || (Admissible(w, actions[0]) && AdmissibleRun(Step(w, actions[0]), actions[1..]))
  }

  ghost function Run(w: World, actions: seq<Action>): World
    requires AdmissibleRun(w, actions)
    decreases |actions|
  {
    if actions == [] then w else Run(Step(w, actions[0]), actions[1..])
  }

  /** Every committed state keeps the relations between the tables, however the read and write
      transactions of concurrent calls interleave; and a run once finished never changes. */
  lemma {:induction false} RunKeepsWorldFits(w: World, actions: seq<Action>)
    requires WorldFits(w) && AdmissibleRun(w, actions)
    ensures WorldFits(Run(w, actions)) && RunsSettle(w.db, Run(w, actions).db) && Grows(w.db, Run(w, actions).db)
    decreases |actions|
  {
    if actions != [] {
      StepKeepsWorldFits(w, actions[0]);
      RunKeepsWorldFits(Step(w, actions[0]), actions[1..]);
    }
  }

  /** The command of that run comes back. */
  ghost predicate ReturnsRun(w: World, action: Action, runId: string) {
    action.Return? && Executes(w, action.call, runId)
  }

  /** The answers with which the command of a run came back. */
  ghost function Answers(w: World, actions: seq<Action>, runId: string): seq<Answer>
    requires AdmissibleRun(w, actions)
    decreases |actions|
  {
    if actions == [] then []
    else
      (if ReturnsRun(w, actions[0], runId) then [actions[0].answer] else [])
      + Answers(Step(w, actions[0]), actions[1..], runId)
  }

  /** Over any run of the world, a command run that is running gets at most one answer. Without one it
      stays running; with one it is completed if the payload was ok and failed if not. A finished one
      gets none and stays as it is. */
  lemma {:induction false} RunsFinishOnce(w: World, actions: seq<Action>, runId: string)
    requires WorldFits(w) && AdmissibleRun(w, actions) && runId in w.db.runs
    ensures runId in Run(w, actions).db.runs
    ensures var answers, before, after := Answers(w, actions, runId), w.db.runs[runId], Run(w, actions).db.runs[runId];
      if before.phase != Running || answers == [] then answers == [] && after == before
      else
        && |answers| == 1 && after == FinishedRun(before, answers[0])
        && (after.phase == Completed <==> Succeeded(answers[0])) && (after.phase == Failed <==> !Succeeded(answers[0]))
    decreases |actions|
  {
    if actions != [] {
      ActorsFit(w, actions[0]);
      RunFinishesWithItsAnswer(w, actions[0], runId);
      StepKeepsWorldFits(w, actions[0]);
      RunsFinishOnce(Step(w, actions[0]), actions[1..], runId);
    }
  }

  /** The step stores a completed start of that instance. */
  ghost predicate StoresStart(w: World, action: Action, id: string)
    requires Admissible(w, action)
  {
    && action.Store? && w.calls[action.call].StartDone?
    && var run := RunOf(w, w.calls[action.call].runId);
       run.kind == StartRun && run.phase == Completed && run.instance == id
  }

  ghost predicate SomeStepStoresStart(w: World, actions: seq<Action>, id: string)
    requires AdmissibleRun(w, actions)
    decreases |actions|
  {
    actions != [] &&
    (StoresStart(w, actions[0], id) || SomeStepStoresStart(Step(w, actions[0]), actions[1..], id))
  }

  /** Over any run of the world, the launch time of an instance moves only if some step stores a
      completed start of that instance. */
  lemma {:induction false} LaunchTimeMovesOverRuns(w: World, actions: seq<Action>, id: string)
    requires WorldFits(w) && AdmissibleRun(w, actions) && id in w.db.instances
    ensures id in Run(w, actions).db.instances
    ensures w.db.instances[id].launchedAt != Run(w, actions).db.instances[id].launchedAt ==>
              SomeStepStoresStart(w, actions, id)
    decreases |actions|
  {
    if actions != [] {
      ActorsFit(w, actions[0]);
      LaunchTimeMovesWithStart(w, actions[0], id);
      StepKeepsWorldFits(w, actions[0]);
      LaunchTimeMovesOverRuns(Step(w, actions[0]), actions[1..], id);
    }
  }
}
