/** The stored ref and commit of an instance and the manifest in its directory, over the
    interleavings of module `ControlRuns`. */
module ControlDisks {
  import opened Wrappers
  import opened Paths
  import opened ControlPlane
  import opened ControlRuns

  // ------------------------------------------------------- the stored ref and commit

  /** The stored ref and commit are those of the active manifest. */
  ghost predicate Agrees(w: World, id: string)
    requires id in w.db.instances
  {
    Matches(ManifestOf(w, id), w.db.instances[id].ref, w.db.instances[id].commit)
  }

  predicate Matches(manifest: Option<Manifest>, ref: string, commit: Option<string>) {
    manifest.Some? && manifest.value.ref == ref && CommitOf(manifest.value.commit) == commit
  }

  /** What an install call has written, once it has landed. */
  function LandingOf(t: Call): Option<Landing> {
    match t
    case Executing(_, _, _, landed) => landed
    case InstallDone(_, _, _, landing) => Some(landing)
    case _ => None
  }

  /** The manifest that an install has landed is the active one, or another install of the directory
      has changed it since. */
  ghost predicate CallOnDisk(w: World, t: Call)
    requires LandingOf(t).Some? && t.runId in w.db.runs && RunOf(w, t.runId).instance in w.db.instances
  {
    var landing, disk := LandingOf(t).value, DiskAt(w, DirOf(w.db, RunOf(w, t.runId).instance));
    && landing.turn <= disk.turns
    && (landing.turn == disk.turns ==> disk.manifest == Some(Manifest(t.ref, landing.commit)))
  }

  /** A call that has landed, for a run and an instance that are there. */
  predicate HasLanded(w: World, t: int) {
    && t in w.calls && LandingOf(w.calls[t]).Some? && w.calls[t].runId in w.db.runs
    && RunOf(w, w.calls[t].runId).instance in w.db.instances
  }

  ghost predicate DiskFits(w: World) {
    forall t | HasLanded(w, t) :: CallOnDisk(w, w.calls[t])
  }

  /** Steps leave directories where they are. */
  lemma DirsStay(before: Db, after: Db, id: string)
    requires Fits(before) && Grows(before, after) && id in before.instances
    ensures id in after.instances && DirOf(after, id) == DirOf(before, id)
  {}

  /** A landing is new only in the step that lands, where it is the last change of its directory. */
  lemma LandingsCome(w: World, action: Action, t: int)
    requires Admissible(w, action)
    requires HasLanded(Step(w, action), t)
    ensures var after := Step(w, action);
      if action.Land? && action.call == t then
        && after.calls[t].runId == w.calls[t].runId && after.db == w.db
        && LandingOf(after.calls[t]).value.turn == DiskAt(after, DirOfCall(w, t)).turns
        && DiskAt(after, DirOfCall(w, t)).manifest ==
             Some(Manifest(after.calls[t].ref, LandingOf(after.calls[t]).value.commit))
      else
        && t in w.calls && LandingOf(w.calls[t]) == LandingOf(after.calls[t])
        && w.calls[t].runId == after.calls[t].runId && w.calls[t].ref == after.calls[t].ref
  {}

  /** Every change of a manifest takes a turn. */
  lemma TurnsGrow(w: World, action: Action, dir: Dir)
    requires Admissible(w, action)
    ensures var before, after := DiskAt(w, dir), DiskAt(Step(w, action), dir);
      before.turns <= after.turns && (before.turns == after.turns ==> before == after)
  {}

  lemma StepKeepsDiskFits(w: World, action: Action)
    requires WorldFits(w) && DiskFits(w) && Admissible(w, action)
    ensures DiskFits(Step(w, action))
  {
    var after := Step(w, action);
    StepKeepsWorldFits(w, action);
    forall t | HasLanded(after, t) ensures CallOnDisk(after, after.calls[t]) {
      LandingsCome(w, action, t);
      assert CallFits(w.db, w.calls[t]);
      var id := RunOf(w, w.calls[t].runId).instance;
      DirsStay(w.db, after.db, id);
      TurnsGrow(w, action, DirOf(w.db, id));
      assert !(action.Land? && action.call == t) ==> HasLanded(w, t);
    }
  }

  /** A completed install whose manifest nothing has changed since agrees with it once it is stored. A
      restart that fails afterwards changes neither. */
  lemma UnchangedInstallAgrees(w: World, call: int, now: int)
    requires DiskFits(w) && Admissible(w, Store(call, now)) && w.calls[call].InstallDone?
    requires w.calls[call].landing.turn == DiskAt(w, DirOf(w.db, RunOf(w, w.calls[call].runId).instance)).turns
    ensures var id := RunOf(w, w.calls[call].runId).instance;
      id in AfterStore(w, call, now).db.instances && Agrees(AfterStore(w, call, now), id)
  {
    assert HasLanded(w, call);
  }

  // ------------------------------------------------------ from landing to storing

  /** What a step writes into the manifest of a directory, if it changes it. */
  ghost function ChangeOf(w: World, action: Action, dir: Dir): Option<Option<Manifest>>
    requires Admissible(w, action)
  {
    match action
    case Lose(call, left) => if DirOfCall(w, call) == dir then Some(left) else None
    case Land(call, commit) =>
      if DirOfCall(w, call) == dir then Some(Some(Manifest(w.calls[call].ref, commit))) else None
    case _ => None
  }

  /** The last such change of a run, if there is one. */
  ghost function LastChange(w: World, actions: seq<Action>, dir: Dir): Option<Option<Manifest>>
    requires AdmissibleRun(w, actions)
    decreases |actions|
  {
    if actions == [] then None
    else
      var later := LastChange(Step(w, actions[0]), actions[1..], dir);
      if later.Some? then later else ChangeOf(w, actions[0], dir)
  }

  lemma DiskChanges(w: World, action: Action, dir: Dir)
    requires Admissible(w, action)
    ensures var change := ChangeOf(w, action, dir);
      if change.None? then DiskAt(Step(w, action), dir) == DiskAt(w, dir)
      else DiskAt(Step(w, action), dir) == Disk(change.value, DiskAt(w, dir).turns + 1)
  {}

  /** The manifest after a run is what the last change has written, or the one from before. */
  lemma {:induction false} ManifestIsLastChange(w: World, actions: seq<Action>, dir: Dir)
    requires AdmissibleRun(w, actions)
    ensures DiskAt(Run(w, actions), dir).manifest == LastChange(w, actions, dir).GetOr(DiskAt(w, dir).manifest)
    decreases |actions|
  {
    if actions != [] {
      DiskChanges(w, actions[0], dir);
      ManifestIsLastChange(Step(w, actions[0]), actions[1..], dir);
    }
  }

  predicate HasRun(t: Call) {
    t.Executing? || t.InstallDone?
  }

  /** Wherever the command run shows up in a call, it is with this ref and landing. */
  ghost predicate Carries(w: World, runId: string, ref: string, landing: Landing) {
    && runId in w.db.runs
    && forall c <- w.calls :: HasRun(w.calls[c]) && w.calls[c].runId == runId ==>
         w.calls[c].ref == ref && LandingOf(w.calls[c]) == Some(landing)
  }

  /** A call either carries on with its run or begins with a new one. */
  lemma CallsCome(w: World, action: Action, c: int)
    requires Admissible(w, action) && c in Step(w, action).calls && HasRun(Step(w, action).calls[c])
    ensures var t := Step(w, action).calls[c];
      || t.runId !in w.db.runs
      || (&& c in w.calls && HasRun(w.calls[c]) && w.calls[c].runId == t.runId && w.calls[c].ref == t.ref
          && (LandingOf(w.calls[c]).Some? ==> LandingOf(w.calls[c]) == LandingOf(t)))
  {}

  lemma StepCarries(w: World, action: Action, runId: string, ref: string, landing: Landing)
    requires WorldFits(w) && Admissible(w, action) && Carries(w, runId, ref, landing)
    ensures Carries(Step(w, action), runId, ref, landing)
  {
    var after := Step(w, action);
    StepKeepsWorldFits(w, action);
    forall c | c in after.calls && HasRun(after.calls[c]) && after.calls[c].runId == runId
      ensures after.calls[c].ref == ref && LandingOf(after.calls[c]) == Some(landing)
    {
      CallsCome(w, action, c);
    }
  }

  lemma {:induction false} RunCarries(w: World, actions: seq<Action>, runId: string, ref: string, landing: Landing)
    requires WorldFits(w) && AdmissibleRun(w, actions) && Carries(w, runId, ref, landing)
    ensures Carries(Run(w, actions), runId, ref, landing)
    decreases |actions|
  {
    if actions != [] {
      StepCarries(w, actions[0], runId, ref, landing);
      StepKeepsWorldFits(w, actions[0]);
      RunCarries(Step(w, actions[0]), actions[1..], runId, ref, landing);
    }
  }

  /** From the landing of an install, through any run of the world, to its storing: then the instance
      agrees with its manifest if and only if nothing changed the manifest of the directory on the way,
      or what changed it last wrote the same ref and commit. */
  lemma StoredInstallAgreesIff(w: World, landing: int, commit: string, actions: seq<Action>, call: int, now: int)
    requires WorldFits(w) && Admissible(w, Land(landing, commit))
    requires var landed := AfterLand(w, landing, commit);
      && AdmissibleRun(landed, actions)
      && var at := Run(landed, actions);
         && Admissible(at, Store(call, now)) && at.calls[call].InstallDone?
         && at.calls[call].runId == w.calls[landing].runId
    ensures var landed, t := AfterLand(w, landing, commit), w.calls[landing];
      var at, id := Run(landed, actions), RunOf(w, t.runId).instance;
      var last := LastChange(landed, actions, DirOf(w.db, id));
      && id in AfterStore(at, call, now).db.instances
      && (Agrees(AfterStore(at, call, now), id) <==> last.None? || Matches(last.value, t.ref, CommitOf(commit)))
  {
    var landed, t := AfterLand(w, landing, commit), w.calls[landing];
    var at, id := Run(landed, actions), RunOf(w, t.runId).instance;
    var dir := DirOf(w.db, id);
    LandKeepsWorldFits(w, landing, commit);
    OneCallPerRun(w, landing, commit);
    RunCarries(landed, actions, t.runId, t.ref, LandingOf(landed.calls[landing]).value);
    RunKeepsWorldFits(landed, actions);
    DirsStay(landed.db, at.db, id);
    ManifestIsLastChange(landed, actions, dir);
    DiskChanges(w, Land(landing, commit), dir);
    StoreMatches(at, call, now);
  }

  /** A command run that has just landed is carried by the one call that executes it. */
  lemma OneCallPerRun(w: World, call: int, commit: string)
    requires WorldFits(w) && Admissible(w, Land(call, commit))
    ensures var landed := AfterLand(w, call, commit);
      Carries(landed, w.calls[call].runId, w.calls[call].ref, LandingOf(landed.calls[call]).value)
  {
    var landed, runId := AfterLand(w, call, commit), w.calls[call].runId;
    assert CallFits(w.db, w.calls[call]);
    forall c | c in landed.calls && c != call && HasRun(landed.calls[c])
      ensures landed.calls[c].runId != runId
    {
      assert landed.calls[c] == w.calls[c] && CallFits(w.db, w.calls[c]);
    }
  }

  lemma StoreMatches(w: World, call: int, now: int)
    requires Admissible(w, Store(call, now)) && w.calls[call].InstallDone?
    ensures var t, id := w.calls[call], RunOf(w, w.calls[call].runId).instance;
      && id in AfterStore(w, call, now).db.instances
      && (Agrees(AfterStore(w, call, now), id) <==>
            Matches(DiskAt(w, DirOf(w.db, id)).manifest, t.ref, CommitOf(t.landing.commit)))
  {}

  // ---------------------------------------------------- installs that do not overlap

  /** A call that installs: from the record of its run until its result is stored. */
  predicate IsInstall(w: World, call: int) {
    && call in w.calls && HasRun(w.calls[call])
    && w.calls[call].runId in w.db.runs && RunOf(w, w.calls[call].runId).kind.InstallRun?
    && RunOf(w, w.calls[call].runId).instance in w.db.instances
  }

  function DirOfInstall(w: World, call: int): Dir
    requires IsInstall(w, call)
  {
    DirOf(w.db, RunOf(w, w.calls[call].runId).instance)
  }

  /** No directory has two installs under way. */
  ghost predicate OneAtATime(w: World) {
    forall a, b | IsInstall(w, a) && IsInstall(w, b) && a != b :: DirOfInstall(w, a) != DirOfInstall(w, b)
  }

  ghost predicate OneAtATimeThroughout(w: World, actions: seq<Action>)
    requires AdmissibleRun(w, actions)
    decreases |actions|
  {
    OneAtATime(w) && (actions == [] || OneAtATimeThroughout(Step(w, actions[0]), actions[1..]))
  }

  /** Nothing changed the manifest since this install wrote it. */
  predicate IsCurrent(w: World, t: int)
    requires HasLanded(w, t)
  {
    LandingOf(w.calls[t]).value.turn == DiskAt(w, DirOf(w.db, RunOf(w, w.calls[t].runId).instance)).turns
  }

  ghost predicate AllCurrent(w: World) {
    forall t | HasLanded(w, t) :: IsCurrent(w, t)
  }

  /** While another call has landed in the directory, none that installs there changes it. */
  lemma OthersWait(w: World, action: Action, t: int)
    requires Admissible(w, action) && OneAtATime(w) && HasLanded(w, t) && IsInstall(w, t)
    ensures ChangeOf(w, action, DirOfInstall(w, t)).None?
  {
    assert action.Lose? || action.Land? ==> IsInstall(w, action.call);
  }

  /** A call that had landed before the step still is the last to have changed its directory. */
  lemma LandedStaysCurrent(w: World, action: Action, t: int)
    requires WorldFits(w) && Admissible(w, action) && OneAtATime(w) && AllCurrent(w)
    requires HasLanded(Step(w, action), t) && HasLanded(w, t)
    ensures IsCurrent(Step(w, action), t)
  {
    StepKeepsWorldFits(w, action);
    LandingsCome(w, action, t);
    assert CallFits(w.db, w.calls[t]);
    var id := RunOf(w, w.calls[t].runId).instance;
    DirsStay(w.db, Step(w, action).db, id);
    OthersWait(w, action, t);
    DiskChanges(w, action, DirOf(w.db, id));
  }

  lemma StepKeepsCurrent(w: World, action: Action)
    requires WorldFits(w) && Admissible(w, action) && OneAtATime(w) && AllCurrent(w)
    ensures AllCurrent(Step(w, action))
  {
    forall t | HasLanded(Step(w, action), t) ensures IsCurrent(Step(w, action), t) {
      LandingsCome(w, action, t);
      if HasLanded(w, t) { LandedStaysCurrent(w, action, t); }
    }
  }

  lemma {:induction false} RunKeepsCurrent(w: World, actions: seq<Action>)
    requires WorldFits(w) && DiskFits(w) && AllCurrent(w)
    requires AdmissibleRun(w, actions) && OneAtATimeThroughout(w, actions)
    ensures AllCurrent(Run(w, actions)) && DiskFits(Run(w, actions))
    decreases |actions|
  {
    if actions != [] {
      StepKeepsCurrent(w, actions[0]);
      StepKeepsDiskFits(w, actions[0]);
      StepKeepsWorldFits(w, actions[0]);
      RunKeepsCurrent(Step(w, actions[0]), actions[1..]);
    }
  }

  /** Where no install is begun while another one of the directory is not stored yet, every install that
      completes agrees with the manifest once it is stored, whatever other calls do. */
  lemma SeparateInstallsAgree(w: World, actions: seq<Action>, call: int, now: int)
    requires WorldFits(w) && DiskFits(w) && AllCurrent(w)
    requires AdmissibleRun(w, actions) && OneAtATimeThroughout(w, actions)
    requires Admissible(Run(w, actions), Store(call, now)) && Run(w, actions).calls[call].InstallDone?
    ensures var at := Run(w, actions);
      var id := RunOf(at, at.calls[call].runId).instance;
      id in AfterStore(at, call, now).db.instances && Agrees(AfterStore(at, call, now), id)
  {
    RunKeepsCurrent(w, actions);
    assert HasLanded(Run(w, actions), call);
    UnchangedInstallAgrees(Run(w, actions), call, now);
  }

  lemma {:induction false} RunKeepsDiskFits(w: World, actions: seq<Action>)
    requires WorldFits(w) && DiskFits(w) && AdmissibleRun(w, actions)
    ensures DiskFits(Run(w, actions))
    decreases |actions|
  {
    if actions != [] {
      StepKeepsWorldFits(w, actions[0]);
      StepKeepsDiskFits(w, actions[0]);
      RunKeepsDiskFits(Step(w, actions[0]), actions[1..]);
    }
  }

  // -------------------------------------------------------- how long agreement lasts

  /** An install command changes the manifest of the directory of `id`, or an install of `id` is stored. */
  ghost predicate Disturbs(w: World, action: Action, id: string)
    requires Admissible(w, action) && id in w.db.instances
  {
    || ((action.Lose? || action.Land?) && DirOfCall(w, action.call) == DirOf(w.db, id))
    || (action.Store? && w.calls[action.call].InstallDone? && RunOf(w, w.calls[action.call].runId).instance == id)
  }

  lemma DiskStays(w: World, action: Action, id: string)
    requires Admissible(w, action) && id in w.db.instances && !Disturbs(w, action, id)
    ensures DiskAt(Step(w, action), DirOf(w.db, id)) == DiskAt(w, DirOf(w.db, id))
  {}

  lemma StoredStays(w: World, action: Action, id: string)
    requires Admissible(w, action) && id in w.db.instances && !Disturbs(w, action, id)
    ensures id in Step(w, action).db.instances
    ensures Step(w, action).db.instances[id].ref == w.db.instances[id].ref
    ensures Step(w, action).db.instances[id].commit == w.db.instances[id].commit
  {
    if action.Write? { WriteKeepsStored(w, action.call, id); }
  }

  /** Nothing else ends an agreement, so a restart that fails does not. */
  lemma AgreementLasts(w: World, action: Action, id: string)
    requires WorldFits(w) && Admissible(w, action) && id in w.db.instances && Agrees(w, id)
    requires !Disturbs(w, action, id)
    ensures id in Step(w, action).db.instances && Agrees(Step(w, action), id)
  {
    StepKeepsWorldFits(w, action);
    DirsStay(w.db, Step(w, action).db, id);
    DiskStays(w, action, id);
    StoredStays(w, action, id);
  }

  /** No two instances share a directory. */
  ghost predicate DirsApart(db: Db) {
    forall a, b | a in db.instances && b in db.instances && a != b :: DirOf(db, a) != DirOf(db, b)
  }

  /** Slugs are unique per host only, so it takes hosts with data roots of their own. */
  lemma OwnRootsKeepDirsApart(db: Db)
    requires Fits(db)
    requires forall g, h | g in db.hosts && h in db.hosts && g != h :: db.hosts[g] != db.hosts[h]
    ensures DirsApart(db)
  {}

  /** Where no two instances share a directory, an agreement ends only with an install of its own instance. */
  lemma OnlyOwnInstallsDisturb(w: World, action: Action, id: string)
    requires WorldFits(w) && Admissible(w, action) && id in w.db.instances && DirsApart(w.db)
    requires Disturbs(w, action, id)
    ensures w.calls[action.call].runId in w.db.runs
    ensures var run := RunOf(w, w.calls[action.call].runId); run.instance == id && run.kind == InstallRun
  {}

  // ---------------------------------------------------- where the agreement is lost

  function InstanceOn(host: string, ref: string, commit: Option<string>): Instance {
    Instance(host, "s", ref, commit, 8188, [], None, None)
  }

  const COMPLETED := CommandRun(InstallRun, "i", Completed, None)
  const RUNNING := CommandRun(InstallRun, "i", Running, None)

  function Fresh(): World {
    World(Db(map["h" := "/data"], map[], map["i" := InstanceOn("h", "", None)], map["i" := {}], map[]), map[], map[])
  }

  /** Two installs land one after the other; the answer of the second is processed and stored first. */
  function Overtaking(): seq<Action> {
    [BeginCommand(1, "r1", InstallRun, "i", "old", false, false),
     BeginCommand(2, "r2", InstallRun, "i", "new", false, false),
     Land(1, "1"), Land(2, "2"),
     Return(2, Payload(true, "", "2")), Store(2, 0), Return(1, Payload(true, "", "1"))]
  }

  /** Both are on the disk, the second one on top. */
  function BothLanded(): World {
    World(Db(map["h" := "/data"], map[], map["i" := InstanceOn("h", "", None)], map["i" := {}],
             map["r1" := RUNNING, "r2" := RUNNING]),
          map[1 := Executing("r1", "old", false, Some(Landing("1", 1))),
              2 := Executing("r2", "new", false, Some(Landing("2", 2)))],
          map[Dir("/data", "s") := Disk(Some(Manifest("new", "2")), 2)])
  }

  /** The second one is stored, the first one waits to be. */
  function Overtaken(): World {
    World(Db(map["h" := "/data"], map[], map["i" := InstanceOn("h", "new", Some("2"))], map["i" := {}],
             map["r1" := COMPLETED, "r2" := COMPLETED]),
          map[1 := InstallDone("r1", "old", false, Landing("1", 1))],
          map[Dir("/data", "s") := Disk(Some(Manifest("new", "2")), 2)])
  }

  function BothBegun(): World {
    World(BothLanded().db,
          map[1 := Executing("r1", "old", false, None), 2 := Executing("r2", "new", false, None)], map[])
  }

  lemma BothBegin()
    ensures var w, a := Fresh(), Overtaking();
      && Admissible(w, a[0]) && Admissible(Step(w, a[0]), a[1])
      && Step(Step(w, a[0]), a[1]) == BothBegun()
  {}

  lemma BothLand()
    ensures var w, a := BothBegun(), Overtaking();
      && Admissible(w, a[2]) && Admissible(Step(w, a[2]), a[3])
      && Step(Step(w, a[2]), a[3]) == BothLanded()
  {}

  /** The second one is back. */
  function SecondBack(): World {
    World(Db(map["h" := "/data"], map[], map["i" := InstanceOn("h", "", None)], map["i" := {}],
             map["r1" := RUNNING, "r2" := COMPLETED]),
          map[1 := Executing("r1", "old", false, Some(Landing("1", 1))),
              2 := InstallDone("r2", "new", false, Landing("2", 2))],
          map[Dir("/data", "s") := Disk(Some(Manifest("new", "2")), 2)])
  }

  lemma SecondReturns()
    ensures Admissible(BothLanded(), Overtaking()[4]) && Step(BothLanded(), Overtaking()[4]) == SecondBack()
  {}

  /** The second one is stored. */
  function SecondStored(): World {
    World(Db(map["h" := "/data"], map[], map["i" := InstanceOn("h", "new", Some("2"))], map["i" := {}],
             map["r1" := RUNNING, "r2" := COMPLETED]),
          map[1 := Executing("r1", "old", false, Some(Landing("1", 1)))],
          map[Dir("/data", "s") := Disk(Some(Manifest("new", "2")), 2)])
  }

  lemma SecondIsStored()
    ensures Admissible(SecondBack(), Overtaking()[5]) && Step(SecondBack(), Overtaking()[5]) == SecondStored()
  {}

  lemma FirstReturns()
    ensures Admissible(SecondStored(), Overtaking()[6]) && Step(SecondStored(), Overtaking()[6]) == Overtaken()
  {}

  lemma RunFrom(w: World, actions: seq<Action>, k: nat)
    requires k < |actions| && Admissible(w, actions[k]) && AdmissibleRun(Step(w, actions[k]), actions[k + 1..])
    ensures AdmissibleRun(w, actions[k..]) && Run(w, actions[k..]) == Run(Step(w, actions[k]), actions[k + 1..])
  {}

  lemma OvertakingEnds()
    ensures AdmissibleRun(BothLanded(), Overtaking()[4..]) && Run(BothLanded(), Overtaking()[4..]) == Overtaken()
  {
    var a, w4 := Overtaking(), BothLanded();
    SecondReturns();
    SecondIsStored();
    FirstReturns();
    var w5 := SecondBack();
    RunFrom(SecondStored(), a, 6);
    RunFrom(w5, a, 5);
    RunFrom(w4, a, 4);
  }

  lemma OvertakingGoesOn()
    ensures AdmissibleRun(BothBegun(), Overtaking()[2..]) && Run(BothBegun(), Overtaking()[2..]) == Overtaken()
  {
    var a, w2 := Overtaking(), BothBegun();
    BothLand();
    OvertakingEnds();
    RunFrom(Step(w2, a[2]), a, 3);
    RunFrom(w2, a, 2);
  }

  lemma OvertakingRuns()
    ensures AdmissibleRun(Fresh(), Overtaking()) && Run(Fresh(), Overtaking()) == Overtaken()
  {
    var a, w0 := Overtaking(), Fresh();
    BothBegin();
    OvertakingGoesOn();
    RunFrom(Step(w0, a[0]), a, 1);
    RunFrom(w0, a, 0);
    assert a[0..] == a;
  }

  /** A run from a world that fits, in which one install overtakes another: storing the first one
      then takes the agreement away. */
  lemma OvertakenInstallDisagrees()
    ensures WorldFits(Fresh()) && DiskFits(Fresh())
    ensures AdmissibleRun(Fresh(), Overtaking()) && Run(Fresh(), Overtaking()) == Overtaken()
    ensures Agrees(Overtaken(), "i") && Admissible(Overtaken(), Store(1, 0))
    ensures !Agrees(AfterStore(Overtaken(), 1, 0), "i")
  {
    OvertakingRuns();
    assert InstanceFits(Fresh().db, "i");
  }

  /** Two hosts with one data root, and an instance with the same slug on each. */
  function Shared(): World {
    World(Db(map["h" := "/data", "g" := "/data"], map[],
             map["i" := InstanceOn("h", "old", Some("1")), "j" := InstanceOn("g", "", None)],
             map["i" := {}, "j" := {}], map[]),
          map[], map[Dir("/data", "s") := Disk(Some(Manifest("old", "1")), 1)])
  }

  /** An install of the one instance then takes the agreement of the other away. */
  lemma SharedDirDisagrees()
    ensures WorldFits(Shared()) && DiskFits(Shared()) && Agrees(Shared(), "i") && !DirsApart(Shared().db)
    ensures var begin := BeginCommand(1, "r1", InstallRun, "j", "new", false, false);
      && Admissible(Shared(), begin) && Admissible(Step(Shared(), begin), Land(1, "2"))
      && !Agrees(Step(Step(Shared(), begin), Land(1, "2")), "i")
  {
    assert InstanceFits(Shared().db, "i") && InstanceFits(Shared().db, "j");
    assert DirOf(Shared().db, "i") == DirOf(Shared().db, "j");
  }

  /** No step of the run disturbs the agreement of the instance. */
  ghost predicate Undisturbed(w: World, actions: seq<Action>, id: string)
    requires AdmissibleRun(w, actions)
    decreases |actions|
  {
    actions == [] ||
    (&& id in w.db.instances && !Disturbs(w, actions[0], id)
     && Undisturbed(Step(w, actions[0]), actions[1..], id))
  }

  /** An agreement lasts over any run in which no install command changes the manifest of the
      directory and no install of the instance is stored. */
  lemma {:induction false} AgreementOutlastsRuns(w: World, actions: seq<Action>, id: string)
    requires WorldFits(w) && AdmissibleRun(w, actions) && id in w.db.instances && Agrees(w, id)
    requires Undisturbed(w, actions, id)
    ensures id in Run(w, actions).db.instances && Agrees(Run(w, actions), id)
    decreases |actions|
  {
    if actions != [] {
      StepKeepsWorldFits(w, actions[0]);
      AgreementLasts(w, actions[0], id);
      AgreementOutlastsRuns(Step(w, actions[0]), actions[1..], id);
    }
  }
}
