/** The prepare and push protocol of the release scripts (deploy/lib/release-flow.sh): a merge of
    the source branch is prepared in a throw-away clone and pushed later, while others move the
    remote branches. Single git commands are one step; their results are handed in. */
module ReleaseFlow {
  import opened Wrappers
  import opened Closure

  type Sha = string

  datatype Commit = Commit(parents: seq<Sha>, tree: map<string, int>)

  /** The state of a file in the index. A file without an entry is absent. */
  datatype Entry = Staged(content: int) | Conflict

  /** The source and the target branch as the remote has them. */
  datatype Remote = Remote(source: Option<Sha>, target: Option<Sha>)

  /** The throw-away clone: marker, branch, merge state, remote-tracking refs, prepare records. */
  datatype Tmp = Tmp(owned: bool, onTarget: bool, head: Sha, mergeHead: Option<Sha>, index: map<string, Entry>,
                     untracked: bool, tracking: Remote, recorded: Remote)

  /** `mainMergeHead`: the main repository itself has a file `.git/MERGE_HEAD`. */
  datatype World = World(commits: map<Sha, Commit>, remote: Remote, tmp: Option<Tmp>, mainMergeHead: bool)

  datatype Stop =
    | MainNotReady | TmpUnsafe | PendingMerge | NotOwned | CloneFailed | RefMissing | NoTmp | WrongBranch
    | NoPendingMerge | UnresolvedConflicts | RecordMissing | SourceMoved | TargetMoved | UntrackedFiles
    | WhitespaceErrors | BadMessage | CommitFailed | PushRejected | ConflictsLeft

  // ------------------------------------------------------------------ ancestry

  ghost function Parents(commits: map<Sha, Commit>): Graph {
    (sha: Sha) => if sha in commits then set p | p in commits[sha].parents else {}
  }

  ghost predicate IsAncestor(commits: map<Sha, Commit>, a: Sha, b: Sha) {
    a == b || Reaches(Parents(commits), {b}, a)
  }

  /** A repository holds the parents of every commit it holds. */
  ghost predicate Complete(commits: map<Sha, Commit>) {
    forall sha <- commits :: forall p <- commits[sha].parents :: p in commits
  }

  /** A new commit changes nothing about the paths below the commits that were there. */
  lemma {:induction false} PathBelowNewCommit(commits: map<Sha, Commit>, sha: Sha, commit: Commit, path: seq<Sha>)
    requires Complete(commits) && sha !in commits
    requires path != [] && path[0] in commits && Follows(Parents(commits[sha := commit]), path)
    ensures Follows(Parents(commits), path) && path[|path| - 1] in commits
    decreases |path|
  {
    if |path| > 1 {
      var init := path[..|path| - 1];
      PathBelowNewCommit(commits, sha, commit, init);
      assert path[|path| - 1] in Parents(commits[sha := commit])(path[|path| - 2]);
      assert init[|init| - 1] == path[|path| - 2];
    }
  }

  /** What lies below a new commit: the commit itself and what lies below its parents. */
  lemma BelowNewCommit(commits: map<Sha, Commit>, sha: Sha, commit: Commit, a: Sha)
    requires Complete(commits) && sha !in commits && forall p <- commit.parents :: p in commits
    ensures IsAncestor(commits[sha := commit], a, sha) <==>
      a == sha || exists p :: p in commit.parents && IsAncestor(commits, a, p)
  {
    var after := commits[sha := commit];
    if a != sha && Reaches(Parents(after), {sha}, a) {
      var path :| PathFrom(Parents(after), {sha}, a, path);
      var p, rest := path[1], path[1..];
      assert p in Parents(after)(path[0]) && p in commit.parents;
      assert Follows(Parents(after), rest);
      PathBelowNewCommit(commits, sha, commit, rest);
      assert PathFrom(Parents(commits), {p}, a, rest);
    }
    if p :| p in commit.parents && IsAncestor(commits, a, p) {
      ReachesStart(Parents(commits), {p}, p);
      var path :| PathFrom(Parents(commits), {p}, a, path);
      assert PathFrom(Parents(after), {sha}, a, [sha] + path);
    }
  }

  /** A new commit leaves what lies below the commits that were there. */
  lemma BelowOldCommit(commits: map<Sha, Commit>, sha: Sha, commit: Commit, a: Sha, b: Sha)
    requires Complete(commits) && sha !in commits && b in commits
    ensures IsAncestor(commits[sha := commit], a, b) <==> IsAncestor(commits, a, b)
    ensures IsAncestor(commits, a, b) ==> a in commits
  {
    var after := commits[sha := commit];
    if path :| PathFrom(Parents(after), {b}, a, path) {
      PathBelowNewCommit(commits, sha, commit, path);
      assert PathFrom(Parents(commits), {b}, a, path);
    }
    if path :| PathFrom(Parents(commits), {b}, a, path) {
      PathKept(commits, sha, commit, path);
      assert PathFrom(Parents(after), {b}, a, path);
      PathBelowNewCommit(commits, sha, commit, path);
    }
  }

  lemma PathKept(commits: map<Sha, Commit>, sha: Sha, commit: Commit, path: seq<Sha>)
    requires sha !in commits && Follows(Parents(commits), path)
    ensures Follows(Parents(commits[sha := commit]), path)
  {
    forall i | 0 < i < |path| ensures path[i] in Parents(commits[sha := commit])(path[i - 1]) {
      assert path[i] in Parents(commits)(path[i - 1]);
    }
  }

  lemma AncestorTransitive(commits: map<Sha, Commit>, a: Sha, b: Sha, c: Sha)
    requires IsAncestor(commits, a, b) && IsAncestor(commits, b, c)
    ensures IsAncestor(commits, a, c)
  {
    if a != b && b != c {
      var graph := Parents(commits);
      var up :| PathFrom(graph, {c}, b, up);
      var down :| PathFrom(graph, {b}, a, down);
      var path := up + down[1..];
      forall i | 0 < i < |path| ensures path[i] in graph(path[i - 1]) {
        if i < |up| {
          assert up[i] in graph(up[i - 1]);
        } else {
          var k := i - |up| + 1;
          assert path[i] == down[k] && path[i - 1] == down[k - 1] && down[k] in graph(down[k - 1]);
        }
      }
      assert |down| > 1 ==> path[|path| - 1] == down[|down| - 1];
      assert PathFrom(graph, {c}, a, path);
    }
  }

  /** The commit lies below a branch that stands at `to`, and did not when it stood at `from`. */
  ghost predicate BringsIn(commits: map<Sha, Commit>, from: Option<Sha>, to: Sha, c: Sha) {
    IsAncestor(commits, c, to) && !(from.Some? && IsAncestor(commits, c, from.value))
  }

  // ------------------------------------------------------------------- prepare

  /** What `git merge --no-commit --no-ff` does: nothing to merge, a refusal without a merge
      state, or a merge state with this index. */
  datatype MergeResult = UpToDate | Refused | Merging(index: map<string, Entry>)

  datatype PrepareEnv = PrepareEnv(mainReady: bool, tmpSafe: bool, cloneFails: bool, merge: MergeResult)

  predicate HasConflicts(index: map<string, Entry>) {
    exists f <- index :: index[f].Conflict?
  }

  /** `release_restore_protected_files_from_head`: files that HEAD has come back as HEAD has them. */
  function Restored(index: map<string, Entry>, protected: seq<string>, tree: map<string, int>): map<string, Entry>
    decreases |protected|
  {
    if protected == [] then index
    else
      var f := protected[0];
      Restored(if f in tree then index[f := Staged(tree[f])] else index, protected[1..], tree)
  }

  lemma {:induction false} RestoredMeans(index: map<string, Entry>, protected: seq<string>, tree: map<string, int>,
                                         f: string)
    ensures f in protected && f in tree ==>
              f in Restored(index, protected, tree) && Restored(index, protected, tree)[f] == Staged(tree[f])
    ensures !(f in protected && f in tree) ==>
              (f in Restored(index, protected, tree) <==> f in index)
              && (f in index ==> Restored(index, protected, tree)[f] == index[f])
    decreases |protected|
  {
    if protected != [] {
      var g := protected[0];
      RestoredMeans(if g in tree then index[g := Staged(tree[g])] else index, protected[1..], tree, f);
    }
  }

  /** The guard in front of `rm -rf`. The path that `git -C` prints is relative to the clone, but
      the test resolves it in the main repository, so it looks at the main repository's file. */
  predicate GuardStops(w: World) {
    w.mainMergeHead
  }

  function TreeOf(w: World, sha: Sha): map<string, int> {
    if sha in w.commits then w.commits[sha].tree else map[]
  }

  /** The fresh clone, before the merge. */
  function FreshTmp(w: World): Tmp
    requires w.remote.target.Some?
  {
    var head := w.remote.target.value;
    Tmp(true, true, head, None, map f | f in TreeOf(w, head) :: Staged(TreeOf(w, head)[f]), false, w.remote, w.remote)
  }

  function AfterMerge(w: World, tmp: Tmp, protected: seq<string>, merge: MergeResult): Tmp {
    match merge
    case UpToDate => tmp.(index := Restored(tmp.index, protected, TreeOf(w, tmp.head)))
    case Refused => tmp.(index := Restored(tmp.index, protected, TreeOf(w, tmp.head)))
    case Merging(index) =>
      tmp.(mergeHead := tmp.tracking.source, index := Restored(index, protected, TreeOf(w, tmp.head)))
  }

  function PrepareRefused(w: World, env: PrepareEnv): Option<Stop> {
    if !env.mainReady then Some(MainNotReady)
    else if !env.tmpSafe then Some(TmpUnsafe)
    else if w.tmp.Some? && GuardStops(w) then Some(PendingMerge)
    else if w.tmp.Some? && !w.tmp.value.owned then Some(NotOwned)
    else None
  }

  function AfterPrepare(w: World, protected: seq<string>, env: PrepareEnv): (World, Result<(), Stop>) {
    var refused := PrepareRefused(w, env);
    if refused.Some? then (w, Err(refused.value))
    else if env.cloneFails then (w.(tmp := None), Err(CloneFailed))
    else if w.remote.source.None? || w.remote.target.None? then
      // the clone is there with its marker, no branch is checked out
      (w.(tmp := Some(Tmp(true, false, "", None, map[], false, w.remote, Remote(None, None)))), Err(RefMissing))
    else
      var tmp := AfterMerge(w, FreshTmp(w), protected, env.merge);
      (w.(tmp := Some(tmp)), if HasConflicts(tmp.index) then Err(ConflictsLeft) else Ok(()))
  }

  // ---------------------------------------------------------------------- push

  /** `raced` is the remote when the push arrives, after others may have moved it again. */
  datatype PushEnv = PushEnv(whitespaceClean: bool, messageValid: bool, commitFails: bool, newSha: Sha,
                             raced: Remote, accepted: bool)

  /** A fetch does not prune: the record of a branch that was deleted stays. */
  function Fetched(tracking: Remote, remote: Remote): Remote {
    Remote(if remote.source.Some? then remote.source else tracking.source,
           if remote.target.Some? then remote.target else tracking.target)
  }

  function MergedTree(index: map<string, Entry>): map<string, int> {
    map f | f in index && index[f].Staged? :: index[f].content
  }

  /** What the preflight says; its fetch is part of the result. */
  function Preflight(w: World, tmp: Tmp, env: PushEnv): Option<Stop> {
    if !tmp.onTarget then Some(WrongBranch)
    else if tmp.mergeHead.None? then Some(NoPendingMerge)
    else if HasConflicts(tmp.index) then Some(UnresolvedConflicts)
    else if tmp.recorded.source.None? || tmp.recorded.target.None? then Some(RecordMissing)
    else if Fetched(tmp.tracking, w.remote).source != tmp.recorded.source then Some(SourceMoved)
    else if Fetched(tmp.tracking, w.remote).target != tmp.recorded.target then Some(TargetMoved)
    else if tmp.untracked then Some(UntrackedFiles)
    else if !env.whitespaceClean then Some(WhitespaceErrors)
    else if !env.messageValid then Some(BadMessage)
    else None
  }

  /** Whether the preflight gets as far as its fetch. */
  predicate Fetches(tmp: Tmp) {
    tmp.onTarget && tmp.mergeHead.Some? && !HasConflicts(tmp.index)
    && tmp.recorded.source.Some? && tmp.recorded.target.Some?
  }

  function AfterPush(w: World, env: PushEnv): (World, Result<(), Stop>) {
    if w.tmp.None? then (w, Err(NoTmp))
    else if !w.tmp.value.owned then (w, Err(NotOwned))
    else
      var tmp := w.tmp.value;
      var fetched := if Fetches(tmp) then tmp.(tracking := Fetched(tmp.tracking, w.remote)) else tmp;
      var stop := Preflight(w, tmp, env);
      if stop.Some? then (w.(tmp := Some(fetched)), Err(stop.value))
      else if env.commitFails then (w.(tmp := Some(fetched)), Err(CommitFailed))
      else
        var merge := Commit([tmp.head, tmp.mergeHead.value], MergedTree(tmp.index));
        var committed := w.(commits := w.commits[env.newSha := merge], remote := env.raced,
                            tmp := Some(fetched.(head := env.newSha, mergeHead := None)));
        if env.accepted
        then (committed.(remote := env.raced.(target := Some(env.newSha))), Ok(()))
        else (committed, Err(PushRejected))
  }

  // ------------------------------------ what the two commands promise, read off the state

  /** The state of a file in the index, if it is there. */
  ghost function EntryOf(index: map<string, Entry>, f: string): Option<Entry> {
    if f in index then Some(index[f]) else None
  }

  ghost function ContentIn(tree: map<string, int>, f: string): Option<int> {
    if f in tree then Some(tree[f]) else None
  }

  /** Among the files of the target branch the protected ones stay as they are; every other file is as
      the merge leaves it, or as the branch has it when there is no merge. */
  ghost predicate PreparedIndex(tree: map<string, int>, protected: seq<string>, merge: MergeResult,
                                index: map<string, Entry>)
  {
    forall f :: EntryOf(index, f) ==
      if f in tree && (f in protected || !merge.Merging?) then Some(Staged(tree[f]))
      else if merge.Merging? then EntryOf(merge.index, f)
      else None
  }

  ghost predicate InConflict(index: map<string, Entry>) {
    exists f <- index :: index[f] == Conflict
  }

  /** A prepare makes a fresh clone of both branches as the remote has them, records them, and leaves a
      merge state exactly when the merge began. Every error has its own condition; the first four
      leave the clone of before. */
  ghost predicate PreparePromise(w: World, protected: seq<string>, env: PrepareEnv, t: World, r: Result<(), Stop>) {
    && t.commits == w.commits && t.remote == w.remote && t.mainMergeHead == w.mainMergeHead
    && (if !env.mainReady then r == Err(MainNotReady) && t.tmp == w.tmp
        else if !env.tmpSafe then r == Err(TmpUnsafe) && t.tmp == w.tmp
        else if w.tmp != None && w.mainMergeHead then r == Err(PendingMerge) && t.tmp == w.tmp
        else if w.tmp != None && !w.tmp.value.owned then r == Err(NotOwned) && t.tmp == w.tmp
        else if env.cloneFails then r == Err(CloneFailed) && t.tmp == None
        else if w.remote.source == None || w.remote.target == None then
          && r == Err(RefMissing)
          && t.tmp == Some(Tmp(true, false, "", None, map[], false, w.remote, Remote(None, None)))
        else
          var head := w.remote.target.value;
          && t.tmp.Some?
          && t.tmp.value == Tmp(true, true, head, if env.merge.Merging? then w.remote.source else None,
                                t.tmp.value.index, false, w.remote, w.remote)
          && PreparedIndex(if head in w.commits then w.commits[head].tree else map[], protected, env.merge,
                           t.tmp.value.index)
          && r == (if InConflict(t.tmp.value.index) then Err(ConflictsLeft) else Ok(())))
  }

  lemma PrepareMeans(w: World, protected: seq<string>, env: PrepareEnv)
    ensures PreparePromise(w, protected, env, AfterPrepare(w, protected, env).0, AfterPrepare(w, protected, env).1)
  {
    var after := AfterPrepare(w, protected, env).0;
    if after.tmp.Some? && PrepareRefused(w, env).None? && after.tmp.value.onTarget {
      var clone := FreshTmp(w);
      var tree := TreeOf(w, clone.head);
      forall f {
        RestoredMeans(if env.merge.Merging? then env.merge.index else clone.index, protected, tree, f);
      }
    }
  }

  /** A branch stands where it was recorded; one that is gone counts where it was last seen. */
  ghost predicate StandsAt(now: Option<Sha>, seen: Option<Sha>, recorded: Option<Sha>) {
    if now == None then seen == recorded else now == recorded
  }

  /** A push succeeds exactly when a marked clone on the target branch holds a merge state without
      conflicts, both branches stand where they were recorded, no file is untracked, white space and
      message pass, and git commits and pushes. The merge commit then has the two heads for parents and
      the index for its tree, and the target branch stands at it. Every error has its own condition,
      and those before the commit change at most what was last seen of the remote. */
  ghost predicate PushPromise(w: World, env: PushEnv, t: World, r: Result<(), Stop>) {
    t.mainMergeHead == w.mainMergeHead
    && if w.tmp == None then t == w && r == Err(NoTmp)
    else
      var tmp := w.tmp.value;
      var fetches := && tmp.owned && tmp.onTarget && tmp.mergeHead != None && !InConflict(tmp.index)
                     && tmp.recorded.source != None && tmp.recorded.target != None;
      var current := && StandsAt(w.remote.source, tmp.tracking.source, tmp.recorded.source)
                     && StandsAt(w.remote.target, tmp.tracking.target, tmp.recorded.target);
      var commits := && fetches && current && !tmp.untracked && env.whitespaceClean && env.messageValid
                     && !env.commitFails;
      && r == (if !tmp.owned then Err(NotOwned)
               else if !tmp.onTarget then Err(WrongBranch)
               else if tmp.mergeHead == None then Err(NoPendingMerge)
               else if InConflict(tmp.index) then Err(UnresolvedConflicts)
               else if !fetches then Err(RecordMissing)
               else if !StandsAt(w.remote.source, tmp.tracking.source, tmp.recorded.source) then Err(SourceMoved)
               else if !current then Err(TargetMoved)
               else if tmp.untracked then Err(UntrackedFiles)
               else if !env.whitespaceClean then Err(WhitespaceErrors)
               else if !env.messageValid then Err(BadMessage)
               else if env.commitFails then Err(CommitFailed)
               else if !env.accepted then Err(PushRejected)
               else Ok(()))
      && t.commits ==
         (if !commits then w.commits
          else w.commits[env.newSha := Commit([tmp.head, tmp.mergeHead.value],
                                              map f | f in tmp.index && tmp.index[f] != Conflict
                                                    :: tmp.index[f].content)])
      && t.remote ==
         (if !commits then w.remote else if env.accepted then Remote(env.raced.source, Some(env.newSha)) else env.raced)
      && t.tmp ==
         Some(tmp.(tracking := if fetches
                               then Remote(if w.remote.source == None then tmp.tracking.source else w.remote.source,
                                           if w.remote.target == None then tmp.tracking.target else w.remote.target)
                               else tmp.tracking,
                   head := if commits then env.newSha else tmp.head,
                   mergeHead := if commits then None else tmp.mergeHead))
  }

  lemma PushMeans(w: World, env: PushEnv)
    ensures PushPromise(w, env, AfterPush(w, env).0, AfterPush(w, env).1)
  {
    if w.tmp.Some? {
      var index := w.tmp.value.index;
      assert HasConflicts(index) <==> InConflict(index);
      assert MergedTree(index) == map f | f in index && index[f] != Conflict :: index[f].content;
    }
  }

  // ------------------------------------------------------------------ the script

  class Release {
    const protected: seq<string>
    var commits: map<Sha, Commit>
    var remote: Remote
    var tmp: Option<Tmp>
    var mainMergeHead: bool

    constructor (protected: seq<string>, w: World)
      ensures this.protected == protected && Current() == w
    {
      this.protected := protected;
      commits, remote, tmp, mainMergeHead := w.commits, w.remote, w.tmp, w.mainMergeHead;
    }

    function Current(): World
      reads this
    {
      World(commits, remote, tmp, mainMergeHead)
    }

    /** The loop over the protected files. */
    method RestoreProtected(t: Tmp) returns (r: Tmp)
      ensures r == t.(index := Restored(t.index, protected, TreeOf(Current(), t.head)))
    {
      var tree := TreeOf(Current(), t.head);
      var index := t.index;
      for i := 0 to |protected|
        invariant Restored(index, protected[i..], tree) == Restored(t.index, protected, tree)
      {
        var f := protected[i];
        assert protected[i..][0] == f && protected[i..][1..] == protected[i + 1..];
        if f in tree { index := index[f := Staged(tree[f])]; }
      }
      r := t.(index := index);
    }

    method Prepare(env: PrepareEnv) returns (r: Result<(), Stop>)
      modifies this
      ensures PreparePromise(old(Current()), protected, env, Current(), r)
      ensures (Current(), r) == AfterPrepare(old(Current()), protected, env)
    {
      PrepareMeans(Current(), protected, env);
      if !env.mainReady { return Err(MainNotReady); }
      if !env.tmpSafe { return Err(TmpUnsafe); }
      if tmp.Some? {
        if mainMergeHead { return Err(PendingMerge); }
        if !tmp.value.owned { return Err(NotOwned); }
        tmp := None;
      }
      if env.cloneFails { return Err(CloneFailed); }
      var t := Tmp(true, false, "", None, map[], false, remote, Remote(None, None));
      tmp := Some(t);
      if remote.source.None? || remote.target.None? { return Err(RefMissing); }
      var head := remote.target.value;
      var tree := TreeOf(Current(), head);
      t := t.(onTarget := true, head := head, index := map f | f in tree :: Staged(tree[f]));
      t := t.(recorded := t.tracking);
      if env.merge.Merging? { t := t.(mergeHead := t.tracking.source, index := env.merge.index); }
      t := RestoreProtected(t);
      tmp := Some(t);
      if HasConflicts(t.index) { return Err(ConflictsLeft); }
      r := Ok(());
    }

    method Push(env: PushEnv) returns (r: Result<(), Stop>)
      modifies this
      ensures PushPromise(old(Current()), env, Current(), r)
      ensures (Current(), r) == AfterPush(old(Current()), env)
    {
      PushMeans(Current(), env);
      if tmp.None? { return Err(NoTmp); }
      var t := tmp.value;
      if !t.owned { return Err(NotOwned); }
      if !t.onTarget { return Err(WrongBranch); }
      if t.mergeHead.None? { return Err(NoPendingMerge); }
      if HasConflicts(t.index) { return Err(UnresolvedConflicts); }
      if t.recorded.source.None? || t.recorded.target.None? { return Err(RecordMissing); }
      t := t.(tracking := Fetched(t.tracking, remote));
      tmp := Some(t);
      if t.tracking.source != t.recorded.source { return Err(SourceMoved); }
      if t.tracking.target != t.recorded.target { return Err(TargetMoved); }
      if t.untracked { return Err(UntrackedFiles); }
      if !env.whitespaceClean { return Err(WhitespaceErrors); }
      if !env.messageValid { return Err(BadMessage); }
      if env.commitFails { return Err(CommitFailed); }
      commits := commits[env.newSha := Commit([t.head, t.mergeHead.value], MergedTree(t.index))];
      tmp := Some(t.(head := env.newSha, mergeHead := None));
      remote := env.raced;
      if !env.accepted { return Err(PushRejected); }
      remote := remote.(target := Some(env.newSha));
      r := Ok(());
    }
  }

  // ----------------------------------------------------------------------- runs

  datatype Action =
    | Prepare(prepareEnv: PrepareEnv)
    | Push(pushEnv: PushEnv)
    // the operator, who only resolves conflicts and leaves files lying about
    | Resolve(file: string, content: Option<int>)
    | LeaveUntracked(untracked: bool)
    // others
    | NewCommit(sha: Sha, commit: Commit)
    | MoveBranches(to: Remote)
    | MainMerge(pending: bool)

  predicate KnownBranches(commits: map<Sha, Commit>, remote: Remote) {
    && (remote.source.Some? ==> remote.source.value in commits)
    && (remote.target.Some? ==> remote.target.value in commits)
  }

  /** The remote takes a push only if it moves the branch forward, or makes it anew. */
  ghost predicate FastForward(commits: map<Sha, Commit>, remote: Remote, sha: Sha) {
    remote.target.Some? ==> IsAncestor(commits, remote.target.value, sha)
  }

  ghost predicate Admissible(w: World, action: Action) {
    match action
    case Prepare(_) => true
    case Push(env) =>
      && env.newSha !in w.commits && KnownBranches(w.commits, env.raced)
      && (env.accepted ==> FastForward(AfterPush(w, env).0.commits, env.raced, env.newSha))
    case Resolve(file, _) => w.tmp.Some? && file in w.tmp.value.index && w.tmp.value.index[file].Conflict?
    case LeaveUntracked(_) => w.tmp.Some?
    case NewCommit(sha, commit) => sha !in w.commits && forall p <- commit.parents :: p in w.commits
    case MoveBranches(to) => KnownBranches(w.commits, to)
    case MainMerge(_) => true
  }

  ghost function Step(w: World, protected: seq<string>, action: Action): World
    requires Admissible(w, action)
  {
    match action
    case Prepare(env) => AfterPrepare(w, protected, env).0
    case Push(env) => AfterPush(w, env).0
    case Resolve(file, content) =>
      var index := w.tmp.value.index;
      var resolved := if content.Some? then index[file := Staged(content.value)] else index - {file};
      w.(tmp := Some(w.tmp.value.(index := resolved)))
    case LeaveUntracked(untracked) => w.(tmp := Some(w.tmp.value.(untracked := untracked)))
    case NewCommit(sha, commit) => w.(commits := w.commits[sha := commit])
    case MoveBranches(to) => w.(remote := to)
    case MainMerge(pending) => w.(mainMergeHead := pending)
  }

  /** The protected files that the target branch has stand in the index as the branch has them. */
  ghost predicate ProtectedKept(w: World, protected: seq<string>, tmp: Tmp) {
    forall f <- protected :: f in TreeOf(w, tmp.head) ==>
      f in tmp.index && tmp.index[f] == Staged(TreeOf(w, tmp.head)[f])
  }

  /** A pending merge is the merge of the recorded commits. */
  ghost predicate MergeFits(w: World, protected: seq<string>) {
    && Complete(w.commits) && KnownBranches(w.commits, w.remote)
    && (w.tmp.Some? && w.tmp.value.mergeHead.Some? ==>
          var tmp := w.tmp.value;
          && tmp.onTarget && tmp.head in w.commits && tmp.mergeHead.value in w.commits
          && tmp.recorded == Remote(tmp.mergeHead, Some(tmp.head))
          && ProtectedKept(w, protected, tmp))
  }

  lemma PrepareKeepsMergeFits(w: World, protected: seq<string>, env: PrepareEnv)
    requires MergeFits(w, protected)
    ensures MergeFits(AfterPrepare(w, protected, env).0, protected)
  {
    var after := AfterPrepare(w, protected, env).0;
    if PrepareRefused(w, env).None? && after.tmp.Some? && after.tmp.value.mergeHead.Some? {
      var tmp := after.tmp.value;
      forall f | f in protected && f in TreeOf(after, tmp.head)
        ensures f in tmp.index && tmp.index[f] == Staged(TreeOf(after, tmp.head)[f])
      {
        RestoredMeans(env.merge.index, protected, TreeOf(w, tmp.head), f);
      }
    }
  }

  lemma PushKeepsMergeFits(w: World, protected: seq<string>, env: PushEnv)
    requires MergeFits(w, protected) && Admissible(w, Push(env))
    ensures MergeFits(AfterPush(w, env).0, protected)
  {}

  lemma NewCommitKeepsMergeFits(w: World, protected: seq<string>, sha: Sha, commit: Commit)
    requires MergeFits(w, protected) && Admissible(w, NewCommit(sha, commit))
    ensures MergeFits(Step(w, protected, NewCommit(sha, commit)), protected)
  {}

  lemma StepKeepsMergeFits(w: World, protected: seq<string>, action: Action)
    requires MergeFits(w, protected) && Admissible(w, action)
    ensures MergeFits(Step(w, protected, action), protected)
  {
    match action {
      case Prepare(env) => PrepareKeepsMergeFits(w, protected, env);
      case Push(env) => PushKeepsMergeFits(w, protected, env);
      case NewCommit(sha, commit) => NewCommitKeepsMergeFits(w, protected, sha, commit);
      case _ =>
    }
  }

  ghost predicate AdmissibleRun(w: World, protected: seq<string>, actions: seq<Action>)
    decreases |actions|
  {
    actions == [] ||
    (Admissible(w, actions[0]) && AdmissibleRun(Step(w, protected, actions[0]), protected, actions[1..]))
  }

  ghost function Run(w: World, protected: seq<string>, actions: seq<Action>): World
    requires AdmissibleRun(w, protected, actions)
    decreases |actions|
  {
    if actions == [] then w else Run(Step(w, protected, actions[0]), protected, actions[1..])
  }

  /** At any point of any run, whoever moves which branch in between. */
  lemma {:induction false} RunKeepsMergeFits(w: World, protected: seq<string>, actions: seq<Action>)
    requires MergeFits(w, protected) && AdmissibleRun(w, protected, actions)
    ensures MergeFits(Run(w, protected, actions), protected)
    decreases |actions|
  {
    if actions != [] {
      StepKeepsMergeFits(w, protected, actions[0]);
      RunKeepsMergeFits(Step(w, protected, actions[0]), protected, actions[1..]);
    }
  }

  /** The remote can take the push of a pending merge if and only if the target branch, when the push
      arrives, is gone or stands at or below the recorded target or the recorded source: a push that
      races with any other commit is refused. */
  lemma PushIsFastForwardIff(w: World, protected: seq<string>, env: PushEnv)
    requires MergeFits(w, protected) && AfterPush(w, env.(accepted := true)).1.Ok?
    requires env.newSha !in w.commits && KnownBranches(w.commits, env.raced)
    ensures var recorded := w.tmp.value.recorded;
      && recorded.source.Some? && recorded.target.Some?
      && (FastForward(AfterPush(w, env).0.commits, env.raced, env.newSha) <==>
            || env.raced.target.None?
            || IsAncestor(w.commits, env.raced.target.value, recorded.target.value)
            || IsAncestor(w.commits, env.raced.target.value, recorded.source.value))
  {
    var tmp := w.tmp.value;
    var merge := Commit([tmp.head, tmp.mergeHead.value], MergedTree(tmp.index));
    if env.raced.target.Some? {
      BelowNewCommit(w.commits, env.newSha, merge, env.raced.target.value);
      assert forall p :: p in merge.parents <==> p == merge.parents[0] || p == merge.parents[1];
    }
  }

  /** What a merge that is pushed brings into the target branch, wherever the branch stands on arrival:
      the merge commit, and what lies below a recorded parent and not below the branch. */
  lemma PushBringsIn(w: World, protected: seq<string>, env: PushEnv, c: Sha)
    requires MergeFits(w, protected) && AfterPush(w, env).1.Ok?
    requires env.newSha !in w.commits && KnownBranches(w.commits, env.raced)
    ensures var recorded, raced := w.tmp.value.recorded, env.raced.target;
      && recorded.source.Some? && recorded.target.Some?
      && (BringsIn(AfterPush(w, env).0.commits, raced, env.newSha, c) <==>
            || c == env.newSha
            || (&& (IsAncestor(w.commits, c, recorded.target.value) || IsAncestor(w.commits, c, recorded.source.value))
                && !(raced.Some? && IsAncestor(w.commits, c, raced.value))))
  {
    var tmp, raced := w.tmp.value, env.raced.target;
    var merge := Commit([tmp.head, tmp.mergeHead.value], MergedTree(tmp.index));
    BelowNewCommit(w.commits, env.newSha, merge, c);
    assert forall p :: p in merge.parents <==> p == merge.parents[0] || p == merge.parents[1];
    if raced.Some? { BelowOldCommit(w.commits, env.newSha, merge, c, raced.value); }
  }

  /** The merge commit is all that the push brings in if and only if both recorded commits already lie
      below the branch when the push arrives. */
  lemma OnlyMergeIsNewIff(w: World, protected: seq<string>, env: PushEnv)
    requires MergeFits(w, protected) && AfterPush(w, env).1.Ok?
    requires env.newSha !in w.commits && KnownBranches(w.commits, env.raced)
    ensures var recorded, raced := w.tmp.value.recorded, env.raced.target;
      && recorded.source.Some? && recorded.target.Some?
      && ((forall c :: BringsIn(AfterPush(w, env).0.commits, raced, env.newSha, c) <==> c == env.newSha) <==>
            && raced.Some?
            && IsAncestor(w.commits, recorded.target.value, raced.value)
            && IsAncestor(w.commits, recorded.source.value, raced.value))
  {
    var recorded, raced := w.tmp.value.recorded, env.raced.target;
    PushBringsIn(w, protected, env, w.tmp.value.head);
    PushBringsIn(w, protected, env, w.tmp.value.mergeHead.value);
    if raced.Some? && IsAncestor(w.commits, recorded.target.value, raced.value)
      && IsAncestor(w.commits, recorded.source.value, raced.value)
    {
      forall c ensures BringsIn(AfterPush(w, env).0.commits, raced, env.newSha, c) <==> c == env.newSha {
        PushBringsIn(w, protected, env, c);
        if IsAncestor(w.commits, c, recorded.target.value) {
          AncestorTransitive(w.commits, c, recorded.target.value, raced.value);
        }
        if IsAncestor(w.commits, c, recorded.source.value) {
          AncestorTransitive(w.commits, c, recorded.source.value, raced.value);
        }
      }
    }
  }

  /** An accepted push after any run: the target branch becomes one merge commit of the recorded
      target and source; each of them was still its branch at the push's own fetch if and only if
      that branch still existed; the protected files are those of the target. What the target branch
      held when the push arrived is at or below the recorded target or source, so none of it is lost.
      A push onto a target that stands where it was recorded brings in the merge commit and commits of
      the recorded source only. */
  lemma AcceptedPushMergesRecorded(w: World, protected: seq<string>, actions: seq<Action>, env: PushEnv)
    requires MergeFits(w, protected) && AdmissibleRun(w, protected, actions)
    requires var at := Run(w, protected, actions); Admissible(at, Push(env)) && AfterPush(at, env).1.Ok? && env.accepted
    ensures var at := Run(w, protected, actions);
            var after := AfterPush(at, env).0;
            at.tmp.Some? && var recorded := at.tmp.value.recorded;
            && recorded.source.Some? && recorded.target.Some?
            && after.remote == Remote(env.raced.source, Some(env.newSha))
            && env.newSha in after.commits
            && after.commits[env.newSha].parents == [recorded.target.value, recorded.source.value]
            && (at.remote.source == recorded.source <==> at.remote.source.Some?)
            && (at.remote.target == recorded.target <==> at.remote.target.Some?)
            && (forall f <- protected :: f in TreeOf(at, recorded.target.value) ==>
                  f in after.commits[env.newSha].tree
                  && after.commits[env.newSha].tree[f] == TreeOf(at, recorded.target.value)[f])
            && (env.raced.target.Some? ==>
                  || IsAncestor(at.commits, env.raced.target.value, recorded.target.value)
                  || IsAncestor(at.commits, env.raced.target.value, recorded.source.value))
            && (env.raced.target == recorded.target ==>
                  forall c :: BringsIn(after.commits, env.raced.target, env.newSha, c) <==>
                    || c == env.newSha
                    || (&& IsAncestor(at.commits, c, recorded.source.value)
                        && !IsAncestor(at.commits, c, recorded.target.value)))
  {
    RunKeepsMergeFits(w, protected, actions);
    var at := Run(w, protected, actions);
    var tmp := at.tmp.value;
    assert Preflight(at, tmp, env).None?;
    PushIsFastForwardIff(at, protected, env);
    forall f | f in protected && f in TreeOf(at, tmp.head)
      ensures f in MergedTree(tmp.index) && MergedTree(tmp.index)[f] == TreeOf(at, tmp.head)[f]
    {}
    forall c {
      PushBringsIn(at, protected, env, c);
    }
  }

  /** Nobody else moves a branch, and no push is accepted. */
  ghost predicate Uneventful(w: World, protected: seq<string>, actions: seq<Action>)
    requires AdmissibleRun(w, protected, actions)
    decreases |actions|
  {
    actions == [] ||
    (&& !actions[0].MoveBranches?
     && (actions[0].Push? ==> AfterPush(w, actions[0].pushEnv).1.Err? && actions[0].pushEnv.raced == w.remote)
     && Uneventful(Step(w, protected, actions[0]), protected, actions[1..]))
  }

  /** Over any run, nothing but an accepted push, or others, moves a remote branch. */
  lemma {:induction false} OnlyAcceptedPushMovesRemote(w: World, protected: seq<string>, actions: seq<Action>)
    requires AdmissibleRun(w, protected, actions) && Uneventful(w, protected, actions)
    ensures Run(w, protected, actions).remote == w.remote
    decreases |actions|
  {
    if actions != [] {
      OnlyAcceptedPushMovesRemote(Step(w, protected, actions[0]), protected, actions[1..]);
    }
  }

  /** Every prepare of the run is stopped by its guards, if there is one at all. */
  ghost predicate NonePrepares(w: World, protected: seq<string>, actions: seq<Action>)
    requires AdmissibleRun(w, protected, actions)
    decreases |actions|
  {
    actions == [] ||
    (&& (actions[0].Prepare? ==> PrepareRefused(w, actions[0].prepareEnv).Some?)
     && NonePrepares(Step(w, protected, actions[0]), protected, actions[1..]))
  }

  /** An accepted push uses the pending merge up, and only a prepare that gets past its guards makes a new
      one: between two accepted pushes there is one, whatever else happens. */
  lemma NoPushWithoutPrepare(w: World, protected: seq<string>, first: PushEnv, actions: seq<Action>, env: PushEnv)
    requires Admissible(w, Push(first)) && AfterPush(w, first).1.Ok?
    requires AdmissibleRun(AfterPush(w, first).0, protected, actions)
    requires NonePrepares(AfterPush(w, first).0, protected, actions)
    ensures AfterPush(Run(AfterPush(w, first).0, protected, actions), env).1.Err?
  {
    NothingPendsWithoutPrepare(AfterPush(w, first).0, protected, actions);
  }

  lemma {:induction false} NothingPendsWithoutPrepare(w: World, protected: seq<string>, actions: seq<Action>)
    requires AdmissibleRun(w, protected, actions) && !Pending(w) && NonePrepares(w, protected, actions)
    ensures !Pending(Run(w, protected, actions))
    decreases |actions|
  {
    if actions != [] {
      NothingPendsWithoutPrepare(Step(w, protected, actions[0]), protected, actions[1..]);
    }
  }

  // --------------------------------------------------------- the merge over whole runs

  /** The operator has resolved the file to that content, or removed it. */
  ghost predicate ResolvedTo(actions: seq<Action>, f: string, content: Option<int>) {
    exists i | 0 <= i < |actions| :: actions[i] == Resolve(f, content)
  }

  /** While a merge pends, nothing but a resolution changes the index, and that only a file in conflict;
      the heads of the merge, their trees and the prepare records stay. */
  lemma {:induction false} PendingMergeStays(w: World, protected: seq<string>, actions: seq<Action>, f: string)
    requires AdmissibleRun(w, protected, actions) && NonePrepares(w, protected, actions)
    requires Pending(Run(w, protected, actions))
    ensures Pending(w)
    ensures var at := Run(w, protected, actions);
      var before, after := w.tmp.value, at.tmp.value;
      && after.head == before.head && after.mergeHead == before.mergeHead && after.recorded == before.recorded
      && (before.head in w.commits ==> TreeOf(at, before.head) == TreeOf(w, before.head))
      && (forall content | ResolvedTo(actions, f, content) ::
            && EntryOf(before.index, f) == Some(Conflict)
            && EntryOf(after.index, f) == if content.Some? then Some(Staged(content.value)) else None)
      && (EntryOf(after.index, f) != EntryOf(before.index, f) ==> exists content :: ResolvedTo(actions, f, content))
    decreases |actions|
  {
    if !Pending(w) {
      NothingPendsWithoutPrepare(w, protected, actions);
    }
    if actions != [] {
      var next, rest := Step(w, protected, actions[0]), actions[1..];
      PendingMergeStays(next, protected, rest, f);
      forall content ensures ResolvedTo(actions, f, content) <==>
        actions[0] == Resolve(f, content) || ResolvedTo(rest, f, content)
      {
        ResolvedFirstOrLater(actions, f, content);
      }
    }
  }

  lemma ResolvedFirstOrLater(actions: seq<Action>, f: string, content: Option<int>)
    requires actions != []
    ensures ResolvedTo(actions, f, content) <==>
            actions[0] == Resolve(f, content) || ResolvedTo(actions[1..], f, content)
  {
    var rest := actions[1..];
    assert forall i | 0 <= i < |rest| :: rest[i] == actions[i + 1];
    if i :| 0 <= i < |actions| && actions[i] == Resolve(f, content) {
      assert i > 0 ==> rest[i - 1] == Resolve(f, content);
    }
  }

  /** What becomes of a file between a prepare that begins a merge and the end of `later`: a protected file
      stays as the target branch has it, a merged one as the merge leaves it, and one in conflict is left
      so or resolved by the operator. */
  ghost predicate FileOfMerge(tree: map<string, int>, protected: seq<string>, merge: map<string, Entry>,
                              later: seq<Action>, f: string, entry: Option<Entry>)
  {
    if f in protected && f in tree then entry == Some(Staged(tree[f]))
    else if EntryOf(merge, f) != Some(Conflict) then entry == EntryOf(merge, f)
    else entry == Some(Conflict) || exists content ::
      ResolvedTo(later, f, content) && entry == if content.Some? then Some(Staged(content.value)) else None
  }

  /** A prepare that gets past its guards, then any run in which none other does: the index of the merge
      that pends at its end is that of the prepared merge, file by file. */
  lemma PrepareThenStays(w: World, protected: seq<string>, env: PrepareEnv, later: seq<Action>)
    requires MergeFits(w, protected) && AdmissibleRun(AfterPrepare(w, protected, env).0, protected, later)
    requires PrepareRefused(w, env).None? && NonePrepares(AfterPrepare(w, protected, env).0, protected, later)
    requires Pending(Run(AfterPrepare(w, protected, env).0, protected, later))
    ensures env.merge.Merging?
    ensures var at := Run(AfterPrepare(w, protected, env).0, protected, later);
      && at.tmp.value.recorded == w.remote
      && forall f :: FileOfMerge(TreeOf(at, at.tmp.value.head), protected, env.merge.index, later, f,
                                 EntryOf(at.tmp.value.index, f))
  {
    var next := AfterPrepare(w, protected, env).0;
    PrepareMeans(w, protected, env);
    PrepareKeepsMergeFits(w, protected, env);
    PendingMergeStays(next, protected, later, "");
    forall f {
      PendingMergeStays(next, protected, later, f);
    }
  }

  /** Step `k` of the run is its last prepare to get past the guards. */
  ghost predicate LastPrepare(w: World, protected: seq<string>, actions: seq<Action>, k: nat)
    requires AdmissibleRun(w, protected, actions)
  {
    && k < |actions| && actions[k].Prepare? && AdmissibleRun(w, protected, actions[..k])
    && var before := Run(w, protected, actions[..k]);
       var next := AfterPrepare(before, protected, actions[k].prepareEnv).0;
       && PrepareRefused(before, actions[k].prepareEnv).None?
       && AdmissibleRun(next, protected, actions[k + 1..]) && NonePrepares(next, protected, actions[k + 1..])
       && Run(next, protected, actions[k + 1..]) == Run(w, protected, actions)
  }

  lemma {:induction false} FindLastPrepare(w: World, protected: seq<string>, actions: seq<Action>) returns (k: nat)
    requires AdmissibleRun(w, protected, actions) && !NonePrepares(w, protected, actions)
    ensures LastPrepare(w, protected, actions, k)
    decreases |actions|
  {
    var next, rest := Step(w, protected, actions[0]), actions[1..];
    if NonePrepares(next, protected, rest) {
      k := 0;
      assert actions[..0] == [];
    } else {
      var j := FindLastPrepare(next, protected, rest);
      k := j + 1;
      assert actions[..k][0] == actions[0] && actions[..k][1..] == rest[..j] && actions[k + 1..] == rest[j + 1..];
    }
  }

  /** A file of the tree that is committed in the end. */
  ghost predicate FileOfCommit(tree: map<string, int>, protected: seq<string>, merge: map<string, Entry>,
                               later: seq<Action>, f: string, content: Option<int>)
  {
    if f in protected && f in tree then content == Some(tree[f])
    else if f !in merge then content == None
    else match merge[f]
      case Staged(c) => content == Some(c)
      case Conflict => ResolvedTo(later, f, content)
  }

  lemma CommittedAsMerged(tree: map<string, int>, protected: seq<string>, merge: map<string, Entry>,
                          later: seq<Action>, f: string, index: map<string, Entry>)
    requires FileOfMerge(tree, protected, merge, later, f, EntryOf(index, f)) && !InConflict(index)
    ensures FileOfCommit(tree, protected, merge, later, f, ContentIn(MergedTree(index), f))
  {
    assert f in index ==> index[f] != Conflict;
  }

  /** What a push commits after any run: the merge that the last prepare began. Its tree has the protected
      files as the recorded target has them, every other file as the merge left it, and every other
      file in conflict as the operator resolved it since. */
  lemma PushedTreeIsMerge(w: World, protected: seq<string>, actions: seq<Action>, env: PushEnv) returns (k: nat)
    requires MergeFits(w, protected) && !Pending(w) && AdmissibleRun(w, protected, actions)
    requires AfterPush(Run(w, protected, actions), env).1.Ok?
    ensures LastPrepare(w, protected, actions, k) && actions[k].prepareEnv.merge.Merging?
    ensures var at, recorded := Run(w, protected, actions), Run(w, protected, actions[..k]).remote;
            var commits := AfterPush(at, env).0.commits;
      && recorded.source.Some? && recorded.target.Some? && env.newSha in commits
      && commits[env.newSha].parents == [recorded.target.value, recorded.source.value]
      && forall f :: FileOfCommit(TreeOf(at, recorded.target.value), protected, actions[k].prepareEnv.merge.index,
                                  actions[k + 1..], f, ContentIn(commits[env.newSha].tree, f))
  {
    var at := Run(w, protected, actions);
    PushMeans(at, env);
    if NonePrepares(w, protected, actions) {
      NothingPendsWithoutPrepare(w, protected, actions);
      assert false;
    }
    k := FindLastPrepare(w, protected, actions);
    RunKeepsMergeFits(w, protected, actions);
    RunKeepsMergeFits(w, protected, actions[..k]);
    PrepareThenStays(Run(w, protected, actions[..k]), protected, actions[k].prepareEnv, actions[k + 1..]);
    var tmp, merge := at.tmp.value, actions[k].prepareEnv.merge.index;
    forall f {
      CommittedAsMerged(TreeOf(at, tmp.head), protected, merge, actions[k + 1..], f, tmp.index);
    }
  }

  // ------------------------------------------------------ where the promises end

  predicate Pending(w: World) {
    w.tmp.Some? && w.tmp.value.mergeHead.Some?
  }

  /** Whatever happens during a prepare, the clone stays as it is. */
  ghost predicate KeepsPending(w: World, protected: seq<string>) {
    forall env :: AfterPrepare(w, protected, env).0.tmp == w.tmp
  }

  /** A pending merge survives every prepare if and only if the main repository has a merge state
      of its own or the clone is not marked as owned: the guard that should look for the pending
      merge looks in the wrong repository. */
  lemma PrepareKeepsPendingIff(w: World, protected: seq<string>)
    requires Pending(w)
    ensures KeepsPending(w, protected) <==> w.mainMergeHead || !w.tmp.value.owned
  {
    if !w.mainMergeHead && w.tmp.value.owned {
      var env := PrepareEnv(true, true, true, UpToDate);
      assert AfterPrepare(w, protected, env).0.tmp == None;
    }
  }

  /** Two commits; the target branch is about to be deleted. */
  function Prepared(): World {
    World(map["t" := Commit([], map[]), "s" := Commit(["t"], map["a" := 1])], Remote(Some("s"), Some("t")), None, false)
  }

  /** A prepare followed by another prepare discards the pending merge, even when the second one
      then fails to clone. */
  lemma SecondPrepareDiscards()
    ensures var merging := PrepareEnv(true, true, false, Merging(map["a" := Staged(1)]));
            var once := AfterPrepare(Prepared(), [], merging).0;
            && Pending(once)
            && AfterPrepare(once, [], merging.(cloneFails := true)).0.tmp == None
  {}

  /** A target branch that was deleted after the prepare passes for current and is made anew. */
  lemma DeletedTargetIsMadeAnew()
    ensures var merging := PrepareEnv(true, true, false, Merging(map["a" := Staged(1)]));
            var deleted := AfterPrepare(Prepared(), [], merging).0.(remote := Remote(Some("s"), None));
            var env := PushEnv(true, true, false, "m", Remote(Some("s"), None), true);
            Admissible(deleted, Push(env)) && AfterPush(deleted, env).1.Ok?
            && AfterPush(deleted, env).0.remote.target == Some("m")
  {}

  /** Between the push's own fetch and its arrival the target may be moved to the source itself: the push
      is accepted all the same, although the target no longer stands where it was recorded, and then the
      merge commit is all that it brings in. */
  lemma RacedSourceIsAccepted()
    ensures var merging := PrepareEnv(true, true, false, Merging(map["a" := Staged(1)]));
            var once := AfterPrepare(Prepared(), [], merging).0;
            var env := PushEnv(true, true, false, "m", Remote(Some("s"), Some("s")), true);
            && MergeFits(once, []) && Admissible(once, Push(env)) && AfterPush(once, env).1.Ok?
            && env.raced.target != once.tmp.value.recorded.target
            && forall c :: BringsIn(AfterPush(once, env).0.commits, env.raced.target, "m", c) <==> c == "m"
  {
    var merging := PrepareEnv(true, true, false, Merging(map["a" := Staged(1)]));
    var once := AfterPrepare(Prepared(), [], merging).0;
    var env := PushEnv(true, true, false, "m", Remote(Some("s"), Some("s")), true);
    assert once.tmp.value.index == map["a" := Staged(1)];
    PushIsFastForwardIff(once, [], env);
    assert PathFrom(Parents(once.commits), {"s"}, "t", ["s", "t"]);
    OnlyMergeIsNewIff(once, [], env);
  }
}
