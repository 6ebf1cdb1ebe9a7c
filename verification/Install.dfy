/** Staged installation with promotion and backups (comfyctl/cli.py:304-344 and 421-543).
    Any step may fail; a file operation happens as a whole or not at all; testing and writing
    the lock is one step. */
module Install {
  import opened Wrappers
  import opened Paths

  /** A file, or a directory tree that is only handled as a whole, stands for its content. */
  type Files = map<Place, int>

  datatype StepName =
    | FindGit | FindUv | WriteLock | MakeStaging | ShallowClone | FullClone | CheckoutRef | RevParse | CreateVenv
    | InstallTorch | WriteRequirements | InstallRequirements | CheckTorch | MakeBackup | BackUp(artefact: Artefact)
    | PromoteCheckout | PromoteVenv | WriteManifest | RemoveStaging | RemoveLock

  datatype Failure =
    | DependencyMissing | RequestInvalid | InstanceLocked | GitFailed | UvFailed | PythonDependencyFailed | OsError

  datatype TorchProfile = FromRequirements | WithBackend | WithoutBackend

  /** What the environment decides about one run: which steps fail, the names made from clock
      and process id, the contents that the tools produce, what a failed write of the manifest or
      of the lock leaves behind. */
  datatype Env = Env(fails: StepName -> bool, staging: string, backup: string,
                     supported: bool, profile: TorchProfile, hasRequirements: bool,
                     checkout: int, venv: int, manifest: int, torn: Option<int>, lockLeft: Option<int>)

  function At(files: Files, p: Place): Option<int> {
    if p in files then Some(files[p]) else None
  }

  /** The directory of a run exists when it or something in it does. */
  predicate BackupExists(files: Files, slug: string, run: string) {
    exists p <- files :: InBackup(slug, run, p)
  }

  predicate StagingExists(files: Files, slug: string, run: string) {
    exists p <- files :: InStaging(slug, run, p)
  }

  predicate InStaging(slug: string, run: string, p: Place) {
    p.Staging? && p.slug == slug && p.run == run
  }

  predicate InBackup(slug: string, run: string, p: Place) {
    p.Previous? && p.slug == slug && p.run == run
  }

  predicate IsActive(slug: string, p: Place) {
    p.Active? && p.slug == slug
  }

  // -------------------------------------------------------------- what a run promises

  /** Outside these places an install changes nothing. */
  predicate Touchable(slug: string, env: Env, p: Place) {
    IsActive(slug, p) || p == Lock(slug) || InStaging(slug, env.staging, p) || InBackup(slug, env.backup, p)
  }

  ghost predicate OnlyTouches(before: Files, after: Files, slug: string, env: Env) {
    forall p :: Touchable(slug, env, p) || At(after, p) == At(before, p)
  }

  /** Whatever lay among the backups of any instance still lies there. */
  ghost predicate BackupsKept(before: Files, after: Files) {
    forall p: Place :: p.Previous? && At(before, p).Some? ==> At(after, p) == At(before, p)
  }

  /** What lies at the active place of an artefact after `k` of the seven steps from the first backup
      to the manifest: three backups, two moves, a manifest write that was tried, one that worked. */
  function ActiveAt(before: Files, slug: string, env: Env, a: Artefact, k: nat): Option<int> {
    match a
    case CheckoutTree => if k < 1 then At(before, Active(slug, a)) else if k < 4 then None else Some(env.checkout)
    case VenvTree => if k < 2 then At(before, Active(slug, a)) else if k < 5 then None else Some(env.venv)
    case ManifestFile =>
      if k < 3 then At(before, Active(slug, a))
      else if k < 6 then None
      else if k == 6 then env.torn
      else Some(env.manifest)
  }

  /** What lies in the backup directory then. */
  function BackedUpAt(before: Files, slug: string, a: Artefact, k: nat): Option<int> {
    var turn := match a case CheckoutTree => 0 case VenvTree => 1 case ManifestFile => 2;
    if k > turn then At(before, Active(slug, a)) else None
  }

  ghost predicate Placed(before: Files, after: Files, slug: string, env: Env, a: Artefact, k: nat) {
    && At(after, Active(slug, a)) == ActiveAt(before, slug, env, a, k)
    && At(after, Previous(slug, env.backup, [a])) == BackedUpAt(before, slug, a, k)
  }

  /** The files after `k` steps. */
  ghost predicate PromotedTo(before: Files, after: Files, slug: string, env: Env, k: nat) {
    && Placed(before, after, slug, env, CheckoutTree, k)
    && Placed(before, after, slug, env, VenvTree, k)
    && Placed(before, after, slug, env, ManifestFile, k)
  }

  /** A step that fails before `promote_install`, so that the run ends there. */
  predicate FailsBeforePromotion(env: Env) {
    || env.fails(MakeStaging)
    || (env.fails(ShallowClone) && (env.fails(FullClone) || env.fails(CheckoutRef)))
    || env.fails(RevParse)
    || env.fails(CreateVenv)
    || (env.hasRequirements && FailsWithPackages(env))
  }

  predicate FailsWithPackages(env: Env) {
    || env.profile.WithoutBackend?
    || (env.profile.WithBackend? && (env.fails(InstallTorch) || env.fails(WriteRequirements)))
    || env.fails(InstallRequirements)
    || env.fails(CheckTorch)
  }

  /** An artefact is backed up only if it exists. */
  predicate FailsToMove(before: Files, slug: string, env: Env, a: Artefact) {
    At(before, Active(slug, a)).Some? && env.fails(BackUp(a))
  }

  /** How far the backup loop gets. */
  function BackedUp(before: Files, slug: string, env: Env): nat {
    if FailsToMove(before, slug, env, CheckoutTree) then 0
    else if FailsToMove(before, slug, env, VenvTree) then 1
    else if FailsToMove(before, slug, env, ManifestFile) then 2
    else 3
  }

  /** How far `promote_install` and the manifest after it get: 7 when nothing fails. */
  function Progress(before: Files, slug: string, env: Env): nat {
    if env.fails(MakeBackup) then 0
    else if BackedUp(before, slug, env) < 3 then BackedUp(before, slug, env)
    else if env.fails(PromoteCheckout) then 3
    else if env.fails(PromoteVenv) then 4
    else if env.fails(WriteManifest) then 6
    else 7
  }

  /** The part of the progress that lies before the manifest. */
  function Before(k: nat): nat {
    if k > 5 then 5 else k
  }

  /** Nothing stands in the way of the lock. */
  predicate WantsLock(before: Files, slug: string, env: Env) {
    !env.fails(FindGit) && !env.fails(FindUv) && env.supported && At(before, Lock(slug)).None?
  }

  predicate TakesLock(before: Files, slug: string, env: Env) {
    WantsLock(before, slug, env) && !env.fails(WriteLock)
  }

  /** The lock file after the run: one that was there, one that a failed write left, or one that
      could not be removed. */
  function LockAfter(before: Files, slug: string, env: Env): Option<int> {
    if !WantsLock(before, slug, env) then At(before, Lock(slug))
    else if env.fails(WriteLock) then env.lockLeft
    else if env.fails(RemoveLock) then Some(0)
    else None
  }

  /** Staging goes through, and the names that the run makes up are new. */
  predicate ReachesPromotion(before: Files, slug: string, env: Env) {
    && !FailsBeforePromotion(env)
    && !StagingExists(before, slug, env.staging)
    && !BackupExists(before, slug, env.backup)
  }

  lemma RunsExistSame(f: Files, g: Files, slug: string, run: string)
    ensures (forall p :: InBackup(slug, run, p) ==> At(f, p) == At(g, p)) ==>
              (BackupExists(f, slug, run) <==> BackupExists(g, slug, run))
    ensures (forall p :: InStaging(slug, run, p) ==> At(f, p) == At(g, p)) ==>
              (StagingExists(f, slug, run) <==> StagingExists(g, slug, run))
  {}

  /** The promise of an install. */
  ghost predicate InstallSpec(before: Files, after: Files, slug: string, env: Env, ok: bool) {
    && OnlyTouches(before, after, slug, env)
    && BackupsKept(before, after)
    && At(after, Lock(slug)) == LockAfter(before, slug, env)
    // Without the lock nothing else happens.
    && (!TakesLock(before, slug, env) ==> !ok && forall p :: p == Lock(slug) || At(after, p) == At(before, p))
    // With it, staging is gone in every case, if it can be removed.
    && (TakesLock(before, slug, env) ==>
          env.fails(RemoveStaging) || forall p :: InStaging(slug, env.staging, p) ==> At(after, p).None?)
    // All or nothing up to the promotion, which names in use never reach.
    && (!ReachesPromotion(before, slug, env) ==>
          forall p :: InStaging(slug, env.staging, p) || p == Lock(slug) || At(after, p) == At(before, p))
    // From the promotion on every artefact is where the last step that worked has put it.
    && (TakesLock(before, slug, env) && ReachesPromotion(before, slug, env) ==>
          && PromotedTo(before, after, slug, env, Progress(before, slug, env))
          && (!env.fails(MakeBackup) ==> At(after, Previous(slug, env.backup, [])).Some?))
    && (ok <==> TakesLock(before, slug, env) && ReachesPromotion(before, slug, env)
                && Progress(before, slug, env) == 7)
  }

  /** What the body of the `try` block does, once the lock is taken. */
  ghost predicate BodySpec(before: Files, after: Files, slug: string, env: Env, ok: bool) {
    && (forall p :: IsActive(slug, p) || InStaging(slug, env.staging, p) || InBackup(slug, env.backup, p)
                    || At(after, p) == At(before, p))
    && (!ReachesPromotion(before, slug, env) ==>
          forall p :: InStaging(slug, env.staging, p) || At(after, p) == At(before, p))
    && (ReachesPromotion(before, slug, env) ==>
          && PromotedTo(before, after, slug, env, Progress(before, slug, env))
          && (!env.fails(MakeBackup) ==> At(after, Previous(slug, env.backup, [])).Some?))
    && (ok <==> ReachesPromotion(before, slug, env) && Progress(before, slug, env) == 7)
  }

  /** What the run itself may have put into an active place. */
  predicate IsNew(env: Env, a: Artefact, content: Option<int>) {
    match a
    case CheckoutTree => content == Some(env.checkout)
    case VenvTree => content == Some(env.venv)
    case ManifestFile => content.Some? && content in {Some(env.manifest), env.torn}
  }

  /** However far the promotion got, each old artefact is in exactly one place: still active and not
      in the backup, or in the backup while its active place holds nothing or what the run put there. */
  lemma InExactlyOnePlace(before: Files, after: Files, slug: string, env: Env, a: Artefact, k: nat)
    requires PromotedTo(before, after, slug, env, k)
    ensures var was, now := At(before, Active(slug, a)), At(after, Active(slug, a));
      var kept := At(after, Previous(slug, env.backup, [a]));
      || (now == was && kept.None?)
      || (kept == was && (now.None? || IsNew(env, a, now)))
  {}

  /** What the `finally` block does. */
  ghost predicate CleanedUp(before: Files, after: Files, slug: string, env: Env) {
    forall p :: At(after, p) ==
      if InStaging(slug, env.staging, p) && !env.fails(RemoveStaging) then None
      else if p == Lock(slug) && !env.fails(RemoveLock) then None
      else At(before, p)
  }

  /** The lock is no artefact, no staging and no backup, so it decides nothing of the body. */
  lemma LockDecidesNothing(before: Files, locked: Files, slug: string, env: Env)
    requires forall p :: p == Lock(slug) || At(locked, p) == At(before, p)
    ensures ReachesPromotion(locked, slug, env) == ReachesPromotion(before, slug, env)
    ensures Progress(locked, slug, env) == Progress(before, slug, env)
    ensures StageAnswer(locked, slug, env) == StageAnswer(before, slug, env)
    ensures BackupExists(locked, slug, env.backup) == BackupExists(before, slug, env.backup)
  {
    RunsExistSame(before, locked, slug, env.backup);
    RunsExistSame(before, locked, slug, env.staging);
    NamesMean(before, slug, env.staging);
    NamesMean(locked, slug, env.staging);
  }

  /** Neither does what lies in staging. */
  lemma StagingDecidesNothing(before: Files, staged: Files, slug: string, env: Env)
    requires forall p :: InStaging(slug, env.staging, p) || At(staged, p) == At(before, p)
    ensures Progress(staged, slug, env) == Progress(before, slug, env)
    ensures BackupExists(staged, slug, env.backup) == BackupExists(before, slug, env.backup)
    ensures forall after: Files, k: nat ::
              PromotedTo(staged, after, slug, env, k) <==> PromotedTo(before, after, slug, env, k)
  {
    RunsExistSame(before, staged, slug, env.backup);
  }

  /** Lock, body and clean-up make up the promise. */
  lemma LockedRun(before: Files, locked: Files, mid: Files, after: Files, slug: string, env: Env, ok: bool)
    requires TakesLock(before, slug, env)
    requires forall p :: At(locked, p) == if p == Lock(slug) then Some(0) else At(before, p)
    requires BodySpec(locked, mid, slug, env, ok) && CleanedUp(mid, after, slug, env)
    ensures InstallSpec(before, after, slug, env, ok)
  {
    LockDecidesNothing(before, locked, slug, env);
    if ReachesPromotion(before, slug, env) { BackupsKeptBy(before, locked, mid, after, slug, env, ok); }
  }

  lemma BackupsKeptBy(before: Files, locked: Files, mid: Files, after: Files, slug: string, env: Env, ok: bool)
    requires !BackupExists(before, slug, env.backup)
    requires forall p :: At(locked, p) == if p == Lock(slug) then Some(0) else At(before, p)
    requires BodySpec(locked, mid, slug, env, ok) && CleanedUp(mid, after, slug, env)
    ensures BackupsKept(before, after)
  {}

  // ------------------------------ the same promise, step by step and place by place

  /** A name that the run makes up is in use. */
  ghost predicate StagingInUse(before: Files, slug: string, run: string) {
    exists p <- before :: p.Staging? && p.slug == slug && p.run == run
  }

  ghost predicate BackupInUse(before: Files, slug: string, run: string) {
    exists p <- before :: p.Previous? && p.slug == slug && p.run == run
  }

  /** Staging succeeds when every one of its steps does: a failed shallow clone may be made good by a full
      one, and the steps for the packages run only if there are requirements. */
  ghost function StageAnswer(before: Files, slug: string, env: Env): Result<(), Failure> {
    if env.fails(MakeStaging) || StagingInUse(before, slug, env.staging) then Err(OsError)
    else if env.fails(ShallowClone) && (env.fails(FullClone) || env.fails(CheckoutRef)) then Err(GitFailed)
    else if env.fails(RevParse) then Err(GitFailed)
    else if env.fails(CreateVenv) then Err(UvFailed)
    else if !env.hasRequirements then Ok(())
    else if env.profile == WithoutBackend then Err(RequestInvalid)
    else if env.profile == WithBackend && env.fails(InstallTorch) then Err(PythonDependencyFailed)
    else if env.profile == WithBackend && env.fails(WriteRequirements) then Err(OsError)
    else if env.fails(InstallRequirements) || env.fails(CheckTorch) then Err(PythonDependencyFailed)
    else Ok(())
  }

  /** An install succeeds when nothing stands in the way of the lock, staging succeeds, the backup has a new
      name, whatever is there is backed up, both trees are moved in and the manifest is written. */
  ghost function InstallAnswer(before: Files, slug: string, env: Env): Result<(), Failure> {
    var staged := StageAnswer(before, slug, env);
    if env.fails(FindGit) || env.fails(FindUv) then Err(DependencyMissing)
    else if !env.supported then Err(RequestInvalid)
    else if Lock(slug) in before then Err(InstanceLocked)
    else if env.fails(WriteLock) then Err(OsError)
    else if staged.Err? then (if env.fails(RemoveLock) then Err(OsError) else staged)
    else if env.fails(MakeBackup) || BackupInUse(before, slug, env.backup) then Err(OsError)
    else if exists a: Artefact :: Active(slug, a) in before && env.fails(BackUp(a)) then Err(OsError)
    else if env.fails(PromoteCheckout) || env.fails(PromoteVenv) || env.fails(WriteManifest) then Err(OsError)
    else Ok(())
  }

  ghost function Made(env: Env, a: Artefact): int {
    match a
    case CheckoutTree => env.checkout
    case VenvTree => env.venv
    case ManifestFile => env.manifest
  }

  /** A success has the new artefact active and the old one in the backup. In every case the old one is
      active as before, or in a backup that is new while its active place holds nothing, the new one, or
      the torn write of a manifest. */
  ghost predicate ArtefactPlaced(before: Files, after: Files, slug: string, env: Env, ok: bool, a: Artefact) {
    var was, now := At(before, Active(slug, a)), At(after, Active(slug, a));
    var aside := Previous(slug, env.backup, [a]);
    && (ok ==> now == Some(Made(env, a)) && At(after, aside) == was)
    && (|| (now == was && At(after, aside) == At(before, aside))
        || (&& aside !in before && At(after, aside) == was
            && (now == None || now == Some(Made(env, a)) || (a == ManifestFile && now == env.torn))))
  }

  /** What an install leaves where: nothing that was a backup before changes, and nothing outside the
      active places, the lock, and the directories that the run names. Lock and staging are gone if they
      can be removed; a lock that was there stays. */
  ghost predicate InstallPlaces(before: Files, after: Files, slug: string, env: Env, ok: bool) {
    && (forall a :: ArtefactPlaced(before, after, slug, env, ok, a))
    && (forall p: Place | p.Previous? && p in before :: At(after, p) == At(before, p))
    && (forall p: Place |
          && !(p.Active? && p.slug == slug) && p != Lock(slug)
          && !(p.Staging? && p.slug == slug && p.run == env.staging)
          && !(p.Previous? && p.slug == slug && p.run == env.backup) :: At(after, p) == At(before, p))
    && (var locks := !env.fails(FindGit) && !env.fails(FindUv) && env.supported && Lock(slug) !in before;
        && At(after, Lock(slug)) == (if !locks then At(before, Lock(slug))
                                     else if env.fails(WriteLock) then env.lockLeft
                                     else if env.fails(RemoveLock) then Some(0) else None)
        && (locks && !env.fails(WriteLock) && !env.fails(RemoveStaging) ==> !StagingInUse(after, slug, env.staging)))
  }

  lemma ArtefactMeans(before: Files, after: Files, slug: string, env: Env, ok: bool, a: Artefact)
    requires InstallSpec(before, after, slug, env, ok)
    ensures ArtefactPlaced(before, after, slug, env, ok, a)
  {
    if TakesLock(before, slug, env) && ReachesPromotion(before, slug, env) {
      assert InBackup(slug, env.backup, Previous(slug, env.backup, [a]));
      InExactlyOnePlace(before, after, slug, env, a, Progress(before, slug, env));
    }
  }

  lemma NamesMean(before: Files, slug: string, run: string)
    ensures StagingExists(before, slug, run) <==> StagingInUse(before, slug, run)
    ensures BackupExists(before, slug, run) <==> BackupInUse(before, slug, run)
  {
    assert forall p :: InStaging(slug, run, p) <==> p.Staging? && p.slug == slug && p.run == run;
    assert forall p :: InBackup(slug, run, p) <==> p.Previous? && p.slug == slug && p.run == run;
  }

  lemma BackedUpMeans(before: Files, slug: string, env: Env)
    ensures BackedUp(before, slug, env) < 3 <==>
            exists a: Artefact :: Active(slug, a) in before && env.fails(BackUp(a))
  {
    if a: Artefact :| Active(slug, a) in before && env.fails(BackUp(a)) {
      match a
      case CheckoutTree => assert FailsToMove(before, slug, env, CheckoutTree);
      case VenvTree => assert FailsToMove(before, slug, env, VenvTree);
      case ManifestFile => assert FailsToMove(before, slug, env, ManifestFile);
    }
  }

  lemma InstallMeans(before: Files, after: Files, slug: string, env: Env, ok: bool)
    requires InstallSpec(before, after, slug, env, ok)
    ensures InstallPlaces(before, after, slug, env, ok)
    ensures ok <==> InstallAnswer(before, slug, env).Ok?
  {
    forall a { ArtefactMeans(before, after, slug, env, ok, a); }
    NamesMean(before, slug, env.staging);
    NamesMean(after, slug, env.staging);
    NamesMean(before, slug, env.backup);
    BackedUpMeans(before, slug, env);
    assert StageAnswer(before, slug, env).Ok? <==>
           !FailsBeforePromotion(env) && !StagingExists(before, slug, env.staging);
  }

  /** The answer of a run that took the lock: its error is that of staging or a failed file operation,
      unless the lock cannot be removed. */
  lemma LockedAnswer(before: Files, slug: string, env: Env, r: Result<(), Failure>)
    requires TakesLock(before, slug, env)
    requires r.Ok? <==> InstallAnswer(before, slug, env).Ok?
    requires r.Err? ==> var staged := StageAnswer(before, slug, env);
               r == if staged.Err? && !env.fails(RemoveLock) then staged else Err(OsError)
    ensures r == InstallAnswer(before, slug, env)
  {
    if r.Ok? {
      assert r.value == ();
    }
  }

  class FileSystem {
    var files: Files

    constructor (files: Files)
      ensures this.files == files
    {
      this.files := files;
    }

    method Write(p: Place, content: int)
      modifies this
      ensures forall q :: At(files, q) == if q == p then Some(content) else At(old(files), q)
    {
      files := files[p := content];
    }

    /** A move of what is at `src` to a place that is free. */
    method Move(src: Place, dst: Place)
      requires At(files, src).Some? && At(files, dst).None?
      modifies this
      ensures forall p :: At(files, p) ==
                if p == src then None else if p == dst then At(old(files), src) else At(old(files), p)
    {
      files := files[dst := files[src]] - {src};
    }

    method Remove(p: Place)
      modifies this
      ensures forall q :: At(files, q) == if q == p then None else At(old(files), q)
    {
      files := files - {p};
    }

    method RemoveStagingTree(slug: string, run: string)
      modifies this
      ensures forall p :: At(files, p) == if InStaging(slug, run, p) then None else At(old(files), p)
    {
      files := map p | p in files && !InStaging(slug, run, p) :: files[p];
    }

    /** `clone_checkout`: a shallow clone, else a full clone and a checkout of the ref. */
    method CloneCheckout(dir: Place, env: Env) returns (ok: bool)
      modifies this
      ensures forall p :: p == dir || At(files, p) == At(old(files), p)
      ensures ok <==> !env.fails(ShallowClone) || (!env.fails(FullClone) && !env.fails(CheckoutRef))
      ensures ok ==> At(files, dir) == Some(env.checkout)
    {
      if env.fails(ShallowClone) {
        Remove(dir);
        if env.fails(FullClone) || env.fails(CheckoutRef) { return false; }
      }
      Write(dir, env.checkout);
      ok := true;
    }

    /** Everything up to the promotion: it happens inside the fresh staging directory. */
    method Stage(slug: string, env: Env) returns (r: Result<(), Failure>)
      modifies this
      ensures forall p :: InStaging(slug, env.staging, p) || At(files, p) == At(old(files), p)
      ensures r.Ok? <==> !FailsBeforePromotion(env)
                         && !StagingExists(old(files), slug, env.staging)
      ensures r == StageAnswer(old(files), slug, env)
      ensures r.Ok? ==> At(files, Staging(slug, env.staging, [CheckoutTree])) == Some(env.checkout)
                        && At(files, Staging(slug, env.staging, [VenvTree])) == Some(env.venv)
    {
      NamesMean(files, slug, env.staging);
      if env.fails(MakeStaging) || StagingExists(files, slug, env.staging) { return Err(OsError); }
      Write(Staging(slug, env.staging, []), 0);
      var cloned := CloneCheckout(Staging(slug, env.staging, [CheckoutTree]), env);
      if !cloned { return Err(GitFailed); }
      if env.fails(RevParse) { return Err(GitFailed); }
      if env.fails(CreateVenv) { return Err(UvFailed); }
      Write(Staging(slug, env.staging, [VenvTree]), env.venv);
      if env.hasRequirements {
        if env.profile.WithoutBackend? { return Err(RequestInvalid); }
        if env.profile.WithBackend? {
          if env.fails(InstallTorch) { return Err(PythonDependencyFailed); }
          if env.fails(WriteRequirements) { return Err(OsError); }
        }
        if env.fails(InstallRequirements) || env.fails(CheckTorch) { return Err(PythonDependencyFailed); }
      }
      r := Ok(());
    }

    /** One turn of the backup loop. */
    method BackUpOne(slug: string, env: Env, a: Artefact) returns (ok: bool)
      requires At(files, Previous(slug, env.backup, [a])).None?
      modifies this
      ensures forall p :: p == Active(slug, a) || p == Previous(slug, env.backup, [a])
                          || At(files, p) == At(old(files), p)
      ensures ok <==> !FailsToMove(old(files), slug, env, a)
      ensures if ok then At(files, Previous(slug, env.backup, [a])) == At(old(files), Active(slug, a))
                         && At(files, Active(slug, a)).None?
              else files == old(files)
    {
      if Active(slug, a) in files {
        if env.fails(BackUp(a)) { return false; }
        Move(Active(slug, a), Previous(slug, env.backup, [a]));
      }
      ok := true;
    }

    /** The backup loop: what comes after a failure is untouched. */
    method BackUpAll(slug: string, env: Env) returns (ok: bool)
      requires forall a :: At(files, Previous(slug, env.backup, [a])).None?
      modifies this
      ensures forall p :: IsActive(slug, p) || (InBackup(slug, env.backup, p) && p.part != [])
                          || At(files, p) == At(old(files), p)
      ensures PromotedTo(old(files), files, slug, env, BackedUp(old(files), slug, env))
      ensures ok <==> BackedUp(old(files), slug, env) == 3
    {
      ok := BackUpOne(slug, env, CheckoutTree);
      if !ok { return; }
      ok := BackUpOne(slug, env, VenvTree);
      if !ok { return; }
      ok := BackUpOne(slug, env, ManifestFile);
    }

    /** The two moves into place, after three backups. */
    method MoveIn(slug: string, env: Env, ghost before: Files) returns (ok: bool)
      requires PromotedTo(before, files, slug, env, 3)
      requires At(files, Staging(slug, env.staging, [CheckoutTree])) == Some(env.checkout)
      requires At(files, Staging(slug, env.staging, [VenvTree])) == Some(env.venv)
      modifies this
      ensures forall p :: IsActive(slug, p) || InStaging(slug, env.staging, p) || At(files, p) == At(old(files), p)
      ensures PromotedTo(before, files, slug, env,
                         if env.fails(PromoteCheckout) then 3 else if env.fails(PromoteVenv) then 4 else 5)
      ensures ok <==> !env.fails(PromoteCheckout) && !env.fails(PromoteVenv)
    {
      if env.fails(PromoteCheckout) { return false; }
      Move(Staging(slug, env.staging, [CheckoutTree]), Active(slug, CheckoutTree));
      if env.fails(PromoteVenv) { return false; }
      Move(Staging(slug, env.staging, [VenvTree]), Active(slug, VenvTree));
      ok := true;
    }

    /** `promote_install`: three backups into a fresh directory, then two moves into place. */
    method Promote(slug: string, env: Env) returns (ok: bool)
      requires At(files, Staging(slug, env.staging, [CheckoutTree])) == Some(env.checkout)
      requires At(files, Staging(slug, env.staging, [VenvTree])) == Some(env.venv)
      modifies this
      ensures forall p :: IsActive(slug, p) || InStaging(slug, env.staging, p) || InBackup(slug, env.backup, p)
                          || At(files, p) == At(old(files), p)
      ensures BackupExists(old(files), slug, env.backup) ==> files == old(files) && !ok
      ensures !BackupExists(old(files), slug, env.backup) ==>
                && PromotedTo(old(files), files, slug, env, Before(Progress(old(files), slug, env)))
                && (!env.fails(MakeBackup) ==> At(files, Previous(slug, env.backup, [])).Some?)
                && (ok <==> Progress(old(files), slug, env) > 5)
    {
      if BackupExists(files, slug, env.backup) { return false; }
      if env.fails(MakeBackup) { return false; }
      Write(Previous(slug, env.backup, []), 0);
      ok := BackUpAll(slug, env);
      if !ok { return; }
      ok := MoveIn(slug, env, old(files));
    }

    /** The body of the `try` block. */
    method StageAndPromote(slug: string, env: Env) returns (r: Result<(), Failure>)
      modifies this
      ensures BodySpec(old(files), files, slug, env, r.Ok?)
      ensures var staged := StageAnswer(old(files), slug, env);
              r.Ok? || r == if staged.Err? then staged else Err(OsError)
    {
      r := Stage(slug, env);
      if r.Err? { return; }
      StagingDecidesNothing(old(files), files, slug, env);
      ghost var staged := files;
      var ok := Promote(slug, env);
      if !ok { return Err(OsError); }
      ok := WriteManifestFile(slug, env, staged);
      if !ok { return Err(OsError); }
    }

    /** The manifest, after the two moves. */
    method WriteManifestFile(slug: string, env: Env, ghost before: Files) returns (ok: bool)
      requires PromotedTo(before, files, slug, env, 5)
      modifies this
      ensures forall p :: p == Active(slug, ManifestFile) || At(files, p) == At(old(files), p)
      ensures PromotedTo(before, files, slug, env, if env.fails(WriteManifest) then 6 else 7)
      ensures ok == !env.fails(WriteManifest)
    {
      if env.fails(WriteManifest) {
        if env.torn.Some? { Write(Active(slug, ManifestFile), env.torn.value); }
        return false;
      }
      Write(Active(slug, ManifestFile), env.manifest);
      ok := true;
    }

    /** The `finally` block; false when the lock stays behind. */
    method CleanUp(slug: string, env: Env) returns (unlocked: bool)
      modifies this
      ensures CleanedUp(old(files), files, slug, env)
      ensures unlocked == !env.fails(RemoveLock)
    {
      if !env.fails(RemoveStaging) { RemoveStagingTree(slug, env.staging); }
      if env.fails(RemoveLock) { return false; }
      Remove(Lock(slug));
      unlocked := true;
    }

    /** `command_instance_install`. The answer is the payload that was printed: a lock that cannot
        be removed does not take a success back. */
    method Install(slug: string, env: Env) returns (r: Result<(), Failure>)
      modifies this
      ensures InstallSpec(old(files), files, slug, env, r.Ok?)
      ensures InstallPlaces(old(files), files, slug, env, r.Ok?)
      ensures r == InstallAnswer(old(files), slug, env)
    {
      if env.fails(FindGit) || env.fails(FindUv) { return Err(DependencyMissing); }
      if !env.supported { return Err(RequestInvalid); }
      if At(files, Lock(slug)).Some? { return Err(InstanceLocked); }
      if env.fails(WriteLock) {
        if env.lockLeft.Some? { Write(Lock(slug), env.lockLeft.value); }
        return Err(OsError);
      }
      Write(Lock(slug), 0);
      ghost var locked := files;
      r := StageAndPromote(slug, env);
      ghost var mid, ok := files, r.Ok?;
      var unlocked := CleanUp(slug, env);
      if r.Err? && !unlocked { r := Err(OsError); }
      LockDecidesNothing(old(files), locked, slug, env);
      LockedRun(old(files), locked, mid, files, slug, env, ok);
      InstallMeans(old(files), files, slug, env, ok);
      LockedAnswer(old(files), slug, env, r);
    }
  }

  // ------------------------------------------------------------- runs of installs

  datatype Attempt = Attempt(slug: string, env: Env, before: Files, after: Files, ok: bool)

  /** Between two attempts anything may happen but to active artefacts and backups. */
  ghost predicate Quiet(f: Files, g: Files) {
    forall p: Place :: p.Active? || p.Previous? ==> At(f, p) == At(g, p)
  }

  ghost predicate Honest(t: Attempt) {
    InstallSpec(t.before, t.after, t.slug, t.env, t.ok)
  }

  /** Attempts on any instances, completed or not, in the order in which they ran. */
  ghost predicate History(attempts: seq<Attempt>) {
    && (forall i {:trigger Honest(attempts[i])} | 0 <= i < |attempts| :: Honest(attempts[i]))
    && (forall i | 0 < i < |attempts| :: Quiet(attempts[i - 1].after, attempts[i].before))
  }

  /** What is kept of one backup directory. */
  ghost predicate Frozen(f: Files, g: Files, slug: string, run: string) {
    forall p :: InBackup(slug, run, p) ==> At(f, p) == At(g, p)
  }

  lemma ExistingBackupIsFrozen(t: Attempt, slug: string, run: string)
    requires Honest(t)
    requires BackupExists(t.before, slug, run)
    ensures Frozen(t.before, t.after, slug, run) && BackupExists(t.after, slug, run)
  {}

  lemma BackupExistsFrozen(f: Files, g: Files, slug: string, run: string)
    requires Frozen(f, g, slug, run) && BackupExists(f, slug, run)
    ensures BackupExists(g, slug, run)
  {}

  lemma {:induction false} BackupStaysFrozen(attempts: seq<Attempt>, k: nat, n: nat, slug: string, run: string)
    requires History(attempts) && k <= n < |attempts|
    requires BackupExists(attempts[k].after, slug, run)
    ensures Frozen(attempts[k].after, attempts[n].after, slug, run) && BackupExists(attempts[n].after, slug, run)
    decreases n
  {
    if k < n {
      BackupStaysFrozen(attempts, k, n - 1, slug, run);
      assert Quiet(attempts[n - 1].after, attempts[n].before);
      BackupExistsFrozen(attempts[n - 1].after, attempts[n].before, slug, run);
      ExistingBackupIsFrozen(attempts[n], slug, run);
    }
  }

  lemma ReplacedHasBackup(t: Attempt)
    requires Honest(t) && t.ok
    ensures BackupExists(t.after, t.slug, t.env.backup)
  {}

  /** A backup that stays as it is keeps recording what the install replaced. */
  ghost predicate Records(t: Attempt, files: Files) {
    && At(files, Previous(t.slug, t.env.backup, [CheckoutTree])) == At(t.before, Active(t.slug, CheckoutTree))
    && At(files, Previous(t.slug, t.env.backup, [VenvTree])) == At(t.before, Active(t.slug, VenvTree))
    && At(files, Previous(t.slug, t.env.backup, [ManifestFile])) == At(t.before, Active(t.slug, ManifestFile))
  }

  /** A lock that stayed behind refuses every later install of the instance, which changes nothing. */
  lemma LeftLockRefuses(t: Attempt)
    requires Honest(t) && At(t.before, Lock(t.slug)).Some?
    ensures !t.ok && forall p :: At(t.after, p) == At(t.before, p)
  {}

  lemma RecordsAtEnd(t: Attempt)
    requires Honest(t) && t.ok
    ensures Records(t, t.after)
  {}

  lemma FrozenKeepsRecords(t: Attempt, files: Files, later: Files)
    requires Records(t, files) && Frozen(files, later, t.slug, t.env.backup)
    ensures Records(t, later)
  {
    assert InBackup(t.slug, t.env.backup, Previous(t.slug, t.env.backup, [CheckoutTree]));
    assert InBackup(t.slug, t.env.backup, Previous(t.slug, t.env.backup, [VenvTree]));
    assert InBackup(t.slug, t.env.backup, Previous(t.slug, t.env.backup, [ManifestFile]));
  }

  lemma {:induction false} RecordsStay(attempts: seq<Attempt>, k: nat, n: nat)
    requires History(attempts) && k <= n < |attempts| && attempts[k].ok
    ensures Records(attempts[k], attempts[n].after)
    ensures BackupExists(attempts[n].after, attempts[k].slug, attempts[k].env.backup)
    decreases n
  {
    var t := attempts[k];
    if k == n {
      assert Honest(t);
      RecordsAtEnd(t);
      ReplacedHasBackup(t);
    } else {
      RecordsStay(attempts, k, n - 1);
      RecordsStep(attempts, n, t);
    }
  }

  /** Neither what happens between two attempts nor the next attempt touches a backup that is there. */
  lemma RecordsStep(attempts: seq<Attempt>, n: nat, t: Attempt)
    requires History(attempts) && 0 < n < |attempts|
    requires Records(t, attempts[n - 1].after) && BackupExists(attempts[n - 1].after, t.slug, t.env.backup)
    ensures Records(t, attempts[n].after) && BackupExists(attempts[n].after, t.slug, t.env.backup)
  {
    assert Quiet(attempts[n - 1].after, attempts[n].before) && Honest(attempts[n]);
    BackupExistsFrozen(attempts[n - 1].after, attempts[n].before, t.slug, t.env.backup);
    FrozenKeepsRecords(t, attempts[n - 1].after, attempts[n].before);
    ExistingBackupIsFrozen(attempts[n], t.slug, t.env.backup);
    FrozenKeepsRecords(t, attempts[n].before, attempts[n].after);
  }

  /** After any run of attempts, the backup of each completed install holds the trio that was
      active just before it: no replaced version is ever overwritten. */
  lemma BackupsRecordReplacements(attempts: seq<Attempt>, k: nat)
    requires History(attempts) && k < |attempts| && attempts[k].ok
    ensures Records(attempts[k], attempts[|attempts| - 1].after)
  {
    RecordsStay(attempts, k, |attempts| - 1);
  }

  /** n completed installs of an instance make n distinct backups. */
  lemma BackupsAreDistinct(attempts: seq<Attempt>, k: nat, m: nat)
    requires History(attempts) && k < m < |attempts| && attempts[k].ok && attempts[m].ok
    requires attempts[k].slug == attempts[m].slug
    ensures attempts[k].env.backup != attempts[m].env.backup
  {
    var t, u := attempts[k], attempts[m];
    RecordsStay(attempts, k, m - 1);
    BackupExistsFrozen(attempts[m - 1].after, u.before, t.slug, t.env.backup);
    assert Honest(u);
  }

  /** The artefact is active or in some backup. */
  ghost predicate Held(files: Files, slug: string, a: Artefact, content: int) {
    || At(files, Active(slug, a)) == Some(content)
    || exists run :: At(files, Previous(slug, run, [a])) == Some(content)
  }

  lemma AttemptKeepsHeld(t: Attempt, slug: string, a: Artefact, content: int)
    requires Honest(t) && Held(t.before, slug, a, content)
    ensures Held(t.after, slug, a, content)
  {
    if At(t.before, Active(slug, a)) != Some(content) {
      var run :| At(t.before, Previous(slug, run, [a])) == Some(content);
      assert At(t.after, Previous(slug, run, [a])) == Some(content);
    } else if t.slug == slug && TakesLock(t.before, slug, t.env) && ReachesPromotion(t.before, slug, t.env) {
      InExactlyOnePlace(t.before, t.after, slug, t.env, a, Progress(t.before, slug, t.env));
    }
  }

  lemma QuietKeepsHeld(f: Files, g: Files, slug: string, a: Artefact, content: int)
    requires Quiet(f, g) && Held(f, slug, a, content)
    ensures Held(g, slug, a, content)
  {
    if At(f, Active(slug, a)) != Some(content) {
      var run :| At(f, Previous(slug, run, [a])) == Some(content);
      assert At(g, Previous(slug, run, [a])) == Some(content);
    }
  }

  /** Whatever was active once is active or in a backup ever after, whichever attempts fail. */
  lemma {:induction false} NothingIsLost(attempts: seq<Attempt>, slug: string, a: Artefact, content: int)
    requires History(attempts) && attempts != []
    requires Held(attempts[0].before, slug, a, content)
    ensures Held(attempts[|attempts| - 1].after, slug, a, content)
  {
    var n := |attempts| - 1;
    if n > 0 {
      forall i | 0 <= i < n ensures Honest(attempts[..n][i]) { assert Honest(attempts[i]); }
      NothingIsLost(attempts[..n], slug, a, content);
      QuietKeepsHeld(attempts[n - 1].after, attempts[n].before, slug, a, content);
    }
    assert Honest(attempts[n]);
    AttemptKeepsHeld(attempts[n], slug, a, content);
  }
}
