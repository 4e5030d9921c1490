/** The multi-provider commit of accepted cache files: stage, commit in order, roll back in
    reverse, retry on rejection. Two providers may share one accepted file.
    */
module ProviderCache {
  import opened Common

  type Bytes = string

  // Temporary names never collide with a source or an accepted file.
  datatype Path = Source(key: string) | Accepted(key: string) | Temporary(n: nat)

  // One staged replacement of an accepted file. The paths are unset once used up.
  datatype Update = Update(
    acceptedPath: Path, candidatePath: Option<Path>, previousPath: Option<Path>,
    previousExists: bool, committed: bool)

  type Files = map<Path, Bytes>

  function Lookup(files: Files, path: Path): Option<Bytes> {
    if path in files then Some(files[path]) else None
  }

  // What a prepared transaction is about: the files before it began, and what each entry staged.
  datatype Plan = Plan(before: Files, staged: seq<Bytes>)

  // The temporary files an update still owns.
  function Owned(u: Update): (paths: set<Path>) {
    (if u.candidatePath.Some? then {u.candidatePath.value} else {})
    + (if u.previousPath.Some? then {u.previousPath.value} else {})
  }

  // A staged or committed update can always be undone: it owns its candidate until the
  // commit, and its copy of the previous content until the commit has been undone.
  ghost predicate UpdateFits(u: Update, staged: Bytes, files: Files, before: Files) {
    && u.acceptedPath.Accepted?
    && u.previousExists == (u.acceptedPath in before)
    && (u.candidatePath.Some? ==> !u.committed && u.candidatePath.value.Temporary?
                                  && Lookup(files, u.candidatePath.value) == Some(staged))
    && (u.previousPath.Some? ==> u.previousExists && u.previousPath.value.Temporary?
                                 && Lookup(files, u.previousPath.value) == Some(before[u.acceptedPath]))
    && (u.previousExists && (u.committed || u.candidatePath.Some?) ==> u.previousPath.Some?)
    && (u.candidatePath.Some? && u.previousPath.Some? ==> u.candidatePath != u.previousPath)
  }

  // An accepted file has its old content, unless some committed update claims it.
  ghost predicate Claimed(us: seq<Update>, path: Path) {
    exists k :: 0 <= k < |us| && us[k].committed && us[k].acceptedPath == path
  }

  ghost predicate InPlan(us: seq<Update>, files: Files, plan: Plan) {
    && |us| == |plan.staged|
    && (forall k :: 0 <= k < |us| ==> UpdateFits(us[k], plan.staged[k], files, plan.before))
    && (forall i, j :: 0 <= i < j < |us| ==> Owned(us[i]) !! Owned(us[j]))
    && (forall p: Path :: p.Accepted? && !Claimed(us, p) ==> Lookup(files, p) == Lookup(plan.before, p))
    && (forall p: Path :: p.Source? ==> Lookup(files, p) == Lookup(plan.before, p))
  }

  // No temporary file outlives the updates that own it.
  ghost predicate NoLitter(us: seq<Update>, files: Files) {
    forall p: Path :: p in files && p.Temporary? ==> exists k :: 0 <= k < |us| && p in Owned(us[k])
  }

  // The atomic outcomes of the three operations, and nothing in between.
  function Committed(u: Update): Update {
    u.(candidatePath := None, committed := true)
  }

  function AfterCommit(u: Update, files: Files): Files
    requires u.candidatePath.Some? && u.candidatePath.value in files
  {
    (files - {u.candidatePath.value})[u.acceptedPath := files[u.candidatePath.value]]
  }

  function Finished(u: Update): Update {
    u.(candidatePath := None, previousPath := None)
  }

  function RolledBack(u: Update): Update {
    u.(candidatePath := None, previousPath := None, committed := false)
  }

  // What undoing an update leaves in its accepted file.
  function Recovered(u: Update, files: Files): Option<Bytes> {
    if !u.committed then Lookup(files, u.acceptedPath)
    else if u.previousExists && u.previousPath.Some? then Lookup(files, u.previousPath.value)
    else None
  }

  // A step touches only the accepted file of its entry and the temporaries that entry owns.
  ghost predicate Local(u: Update, v: Update, files: Files, after: Files) {
    && v.acceptedPath == u.acceptedPath && v.previousExists == u.previousExists && Owned(v) <= Owned(u)
    && (forall p: Path :: p !in Owned(u) && p != u.acceptedPath ==> Lookup(after, p) == Lookup(files, p))
  }

  lemma OthersStillFit(us: seq<Update>, k: nat, v: Update, files: Files, after: Files, plan: Plan, i: nat)
    requires InPlan(us, files, plan) && k < |us| && i < |us| && i != k
    requires Local(us[k], v, files, after)
    ensures UpdateFits(us[i], plan.staged[i], after, plan.before)
    ensures Owned(us[i]) !! Owned(v)
  {
    assert Owned(us[i]) !! Owned(us[k]);
    assert us[k].acceptedPath.Accepted?;
    forall p | p in Owned(us[i]) ensures Lookup(after, p) == Lookup(files, p) { }
  }

  lemma StillClaimed(us: seq<Update>, k: nat, v: Update, p: Path)
    requires Claimed(us, p) && k < |us| && (us[k].acceptedPath != p || !us[k].committed)
    ensures Claimed(us[k := v], p)
  {
    var i :| 0 <= i < |us| && us[i].committed && us[i].acceptedPath == p;
    assert us[k := v][i] == us[i];
  }

  lemma UnclaimedStayOld(us: seq<Update>, k: nat, v: Update, files: Files, after: Files, plan: Plan, p: Path)
    requires InPlan(us, files, plan) && k < |us| && Local(us[k], v, files, after)
    requires v.committed || Lookup(after, v.acceptedPath) == Lookup(plan.before, v.acceptedPath)
          || (!us[k].committed && Lookup(after, v.acceptedPath) == Lookup(files, v.acceptedPath))
    requires p.Accepted? && !Claimed(us[k := v], p)
    ensures Lookup(after, p) == Lookup(plan.before, p)
  {
    assert UpdateFits(us[k], plan.staged[k], files, plan.before);
    assert p !in Owned(us[k]);
    if p == v.acceptedPath {
      assert us[k := v][k] == v;
    }
    if Claimed(us, p) && (us[k].acceptedPath != p || !us[k].committed) {
      StillClaimed(us, k, v, p);
    }
  }

  lemma LocalStepKeepsPlan(us: seq<Update>, k: nat, v: Update, files: Files, after: Files, plan: Plan)
    requires InPlan(us, files, plan) && k < |us|
    requires Local(us[k], v, files, after) && UpdateFits(v, plan.staged[k], after, plan.before)
    requires v.committed || Lookup(after, v.acceptedPath) == Lookup(plan.before, v.acceptedPath)
          || (!us[k].committed && Lookup(after, v.acceptedPath) == Lookup(files, v.acceptedPath))
    ensures InPlan(us[k := v], after, plan)
  {
    var vs := us[k := v];
    forall i | 0 <= i < |vs| ensures UpdateFits(vs[i], plan.staged[i], after, plan.before) {
      if i != k { OthersStillFit(us, k, v, files, after, plan, i); }
    }
    forall i, j | 0 <= i < j < |vs| ensures Owned(vs[i]) !! Owned(vs[j]) {
      assert Owned(us[i]) !! Owned(us[j]);
    }
    forall p: Path | p.Accepted? && !Claimed(vs, p) ensures Lookup(after, p) == Lookup(plan.before, p) {
      UnclaimedStayOld(us, k, v, files, after, plan, p);
    }
    forall p: Path | p.Source? ensures Lookup(after, p) == Lookup(plan.before, p) {
      assert UpdateFits(us[k], plan.staged[k], files, plan.before);
      assert p !in Owned(us[k]);
    }
  }

  lemma LocalStepKeepsTidy(us: seq<Update>, k: nat, v: Update, files: Files, after: Files)
    requires NoLitter(us, files) && k < |us| && us[k].acceptedPath.Accepted?
    requires Local(us[k], v, files, after) && (forall p :: p in Owned(us[k]) - Owned(v) ==> p !in after)
    ensures NoLitter(us[k := v], after)
  {
    var vs := us[k := v];
    forall p: Path | p in after && p.Temporary? ensures exists i :: 0 <= i < |vs| && p in Owned(vs[i]) {
      if p in Owned(us[k]) {
        assert p in Owned(vs[k]);
      } else {
        assert Lookup(after, p) == Lookup(files, p);
        var i :| 0 <= i < |us| && p in Owned(us[i]);
        assert p in Owned(vs[i]);
      }
    }
  }

  lemma CommitKeepsPlan(us: seq<Update>, k: nat, files: Files, plan: Plan)
    requires InPlan(us, files, plan) && k < |us| && us[k].candidatePath.Some?
    ensures UpdateFits(us[k], plan.staged[k], files, plan.before)
    ensures InPlan(us[k := Committed(us[k])], AfterCommit(us[k], files), plan)
    ensures Lookup(AfterCommit(us[k], files), us[k].acceptedPath) == Some(plan.staged[k])
    ensures NoLitter(us, files) ==> NoLitter(us[k := Committed(us[k])], AfterCommit(us[k], files))
  {
    assert UpdateFits(us[k], plan.staged[k], files, plan.before);
    LocalStepKeepsPlan(us, k, Committed(us[k]), files, AfterCommit(us[k], files), plan);
    if NoLitter(us, files) {
      LocalStepKeepsTidy(us, k, Committed(us[k]), files, AfterCommit(us[k], files));
    }
  }

  // Undoing an update puts the exact old content back, or removes the file that was absent.
  lemma RollbackKeepsPlan(us: seq<Update>, k: nat, files: Files, after: Files, plan: Plan)
    requires InPlan(us, files, plan) && k < |us|
    requires Local(us[k], RolledBack(us[k]), files, after)
    requires Lookup(after, us[k].acceptedPath) == Recovered(us[k], files)
    ensures InPlan(us[k := RolledBack(us[k])], after, plan)
    ensures us[k].committed ==> Lookup(after, us[k].acceptedPath) == Lookup(plan.before, us[k].acceptedPath)
    ensures NoLitter(us, files) && Owned(us[k]) !! after.Keys ==> NoLitter(us[k := RolledBack(us[k])], after)
  {
    assert UpdateFits(us[k], plan.staged[k], files, plan.before);
    LocalStepKeepsPlan(us, k, RolledBack(us[k]), files, after, plan);
    if NoLitter(us, files) && Owned(us[k]) !! after.Keys {
      LocalStepKeepsTidy(us, k, RolledBack(us[k]), files, after);
    }
  }

  // Once nothing is committed any more, every accepted file is as it was: content or absence.
  lemma AllUndone(us: seq<Update>, files: Files, plan: Plan)
    requires InPlan(us, files, plan) && forall k :: 0 <= k < |us| ==> !us[k].committed
    ensures forall p: Path :: !p.Temporary? ==> Lookup(files, p) == Lookup(plan.before, p)
  {
    forall p: Path | p.Accepted? ensures !Claimed(us, p) { }
  }

  lemma StrayTemporariesKeepPlan(us: seq<Update>, files: Files, after: Files, plan: Plan)
    requires InPlan(us, files, plan)
    requires forall p: Path :: !p.Temporary? || p in files ==> Lookup(after, p) == Lookup(files, p)
    ensures InPlan(us, after, plan)
  {
    forall i | 0 <= i < |us| ensures UpdateFits(us[i], plan.staged[i], after, plan.before) {
      assert UpdateFits(us[i], plan.staged[i], files, plan.before);
    }
  }

  lemma ClaimsGrow(us: seq<Update>, u: Update, p: Path)
    requires Claimed(us, p)
    ensures Claimed(us + [u], p)
  {
    var i :| 0 <= i < |us| && us[i].committed && us[i].acceptedPath == p;
    assert (us + [u])[i] == us[i];
  }

  // A newly staged update joins the plan when its temporaries are new.
  lemma StagingKeepsPlan(us: seq<Update>, u: Update, content: Bytes, files: Files, after: Files, plan: Plan)
    requires InPlan(us, files, plan) && UpdateFits(u, content, after, plan.before) && !u.committed
    requires forall p: Path :: p !in Owned(u) ==> Lookup(after, p) == Lookup(files, p)
    requires Owned(u) !! files.Keys && forall p :: p in Owned(u) ==> p.Temporary?
    ensures InPlan(us + [u], after, plan.(staged := plan.staged + [content]))
    ensures NoLitter(us, files) ==> NoLitter(us + [u], after)
  {
    var vs := us + [u];
    forall i | 0 <= i < |us| ensures UpdateFits(vs[i], plan.staged[i], after, plan.before) && Owned(us[i]) !! Owned(u) {
      assert UpdateFits(us[i], plan.staged[i], files, plan.before);
      forall p | p in Owned(us[i]) ensures p in files { }
    }
    forall p: Path | p.Accepted? && !Claimed(vs, p) ensures Lookup(after, p) == Lookup(plan.before, p) {
      if Claimed(us, p) { ClaimsGrow(us, u, p); }
    }
    if NoLitter(us, files) {
      forall p: Path | p in after && p.Temporary? ensures exists i :: 0 <= i < |vs| && p in Owned(vs[i]) {
        if p in Owned(u) {
          assert p in Owned(vs[|us|]);
        } else {
          assert Lookup(after, p) == Lookup(files, p);
          var i :| 0 <= i < |us| && p in Owned(us[i]);
          assert p in Owned(vs[i]);
        }
      }
    }
  }

  class FileSystem {
    var files: Files
    var nextTemporary: nat
    ghost var refused: nat       // copies and renames that have been refused
    ghost var undoFailures: nat  // restorations that have been refused
    ghost var leaked: bool       // some temporary file could not be removed

    ghost predicate Valid()
      reads this
    {
      forall n: nat :: Temporary(n) in files ==> n < nextTemporary
    }

    method CopyToTemp(source: Path) returns (temporary: Option<Path>)
      requires Valid()
      modifies `files, `nextTemporary, `refused
      ensures Valid()
      ensures refused >= old(refused) && (refused == old(refused) ==> (temporary.Some? <==> source in old(files)))
      ensures temporary.None? ==> files == old(files)
      ensures temporary.Some? ==> temporary.value.Temporary? && temporary.value !in old(files) && source in old(files)
                                  && files == old(files)[temporary.value := old(files)[source]]
    {
      var fails: bool := *;
      if fails { refused := refused + 1; }
      if fails || source !in files { return None; }
      temporary := Some(Temporary(nextTemporary));
      files := files[Temporary(nextTemporary) := files[source]];
      nextTemporary := nextTemporary + 1;
    }

    // An atomic rename; a refused one changes nothing.
    method Rename(source: Path, target: Path) returns (ok: bool)
      requires Valid() && !target.Temporary?
      modifies `files, `refused
      ensures Valid()
      ensures refused >= old(refused) && (refused == old(refused) ==> (ok <==> source in old(files)))
      ensures ok ==> source in old(files) && files == (old(files) - {source})[target := old(files)[source]]
      ensures !ok ==> files == old(files)
    {
      ok := *;
      if !ok { refused := refused + 1; }
      if source !in files { ok := false; }
      if ok { files := (files - {source})[target := files[source]]; }
    }

    // Best-effort removal of a temporary file: a failure is ignored and leaks the file.
    method Discard(path: Path)
      requires Valid()
      modifies `files, `leaked
      ensures Valid()
      ensures files == old(files) - {path} || (leaked && files == old(files))
      ensures old(leaked) ==> leaked
    {
      var ok: bool := *;
      if ok { files := files - {path}; } else { leaked := true; }
    }
  }

  class CacheUpdate {
    var acceptedPath: Path
    var candidatePath: Option<Path>
    var previousPath: Option<Path>
    var previousExists: bool
    var committed: bool

    constructor (acceptedPath: Path)
      ensures View() == Update(acceptedPath, None, None, false, false)
    {
      this.acceptedPath := acceptedPath;
      candidatePath, previousPath, previousExists, committed := None, None, false, false;
    }

    function View(): Update
      reads this
    {
      Update(acceptedPath, candidatePath, previousPath, previousExists, committed)
    }

    method Commit(fs: FileSystem) returns (ok: bool)
      requires fs.Valid() && acceptedPath.Accepted?
      modifies this, fs`files, fs`refused
      ensures fs.Valid()
      ensures fs.refused >= old(fs.refused)
      ensures fs.refused == old(fs.refused) ==> (ok <==> old(candidatePath).Some? ==> old(candidatePath).value in old(fs.files))
      ensures !ok ==> View() == old(View()) && fs.files == old(fs.files) && candidatePath.Some?
      ensures ok && old(candidatePath).None? ==> View() == old(View()) && fs.files == old(fs.files)
      ensures ok && old(candidatePath).Some?
              ==> old(candidatePath).value in old(fs.files) && View() == Committed(old(View()))
                  && fs.files == AfterCommit(old(View()), old(fs.files))
    {
      if candidatePath.None? { return true; }
      ok := fs.Rename(candidatePath.value, acceptedPath);
      if !ok { return; }
      candidatePath := None;
      committed := true;
    }

    method Rollback(fs: FileSystem) returns (ok: bool)
      requires fs.Valid() && acceptedPath.Accepted? && forall p :: p in Owned(View()) ==> p.Temporary?
      requires committed ==> candidatePath.None? && (previousExists ==> previousPath.Some?)
      modifies this, fs
      ensures fs.Valid() && fs.nextTemporary == old(fs.nextTemporary) && fs.refused >= old(fs.refused)
      ensures old(fs.leaked) ==> fs.leaked
      ensures fs.undoFailures == old(fs.undoFailures) + if ok then 0 else 1
      ensures !ok ==> old(committed) && View() == old(View()) && fs.files == old(fs.files)
      ensures ok ==> View() == RolledBack(old(View())) && Local(old(View()), View(), old(fs.files), fs.files)
                     && Lookup(fs.files, acceptedPath) == Recovered(old(View()), old(fs.files))
                     && (!fs.leaked ==> Owned(old(View())) !! fs.files.Keys)
    {
      ok := true;
      if committed {
        if previousExists {
          ok := fs.Rename(previousPath.value, acceptedPath);
          if ok { previousPath := None; }
        } else {
          ok := *;
          if ok { fs.files := fs.files - {acceptedPath}; }
        }
        if ok { committed := false; }
      }
      if !ok {
        fs.undoFailures := fs.undoFailures + 1;
        return;
      }
      Finish(fs);
    }

    method Finish(fs: FileSystem)
      requires fs.Valid() && forall p :: p in Owned(View()) ==> p.Temporary?
      requires acceptedPath.Accepted?
      modifies this, fs`files, fs`leaked
      ensures fs.Valid() && View() == Finished(old(View()))
      ensures old(fs.leaked) ==> fs.leaked
      ensures Local(old(View()), View(), old(fs.files), fs.files)
      ensures Lookup(fs.files, acceptedPath) == Lookup(old(fs.files), acceptedPath)
      ensures !fs.leaked ==> Owned(old(View())) !! fs.files.Keys
    {
      if candidatePath.Some? {
        fs.Discard(candidatePath.value);
        candidatePath := None;
      }
      if previousPath.Some? {
        fs.Discard(previousPath.value);
        previousPath := None;
      }
    }
  }

  // The caches of one publication. A provider without a cache file has no entry here:
  // every operation on it is a no-op.
  class CacheTransaction {
    var entries: seq<CacheUpdate>
    ghost var plan: Plan

    ghost predicate Separate()
      reads this
    {
      forall i, j :: 0 <= i < j < |entries| ==> entries[i] != entries[j]
    }

    ghost function Views(): (us: seq<Update>)
      reads this, entries
      ensures |us| == |entries| && forall k :: 0 <= k < |us| ==> us[k] == entries[k].View()
    {
      seq(|entries|, k requires 0 <= k < |entries| reads this, entries => entries[k].View())
    }

    ghost predicate Valid(fs: FileSystem)
      reads this, entries, fs
    {
      fs.Valid() && Separate() && InPlan(Views(), fs.files, plan)
    }

    // Every entry is still only staged, and staged the source of its key.
    ghost predicate AllStaged(fs: FileSystem, keys: seq<string>)
      reads this, entries, fs
    {
      Valid(fs) && StagedSources(keys)
    }

    ghost predicate Tidy(fs: FileSystem)
      reads this, entries, fs
    {
      NoLitter(Views(), fs.files)
    }

    // Stages the caches of the named providers in order and stops at the first failure.
    method Prepare(fs: FileSystem, keys: seq<string>) returns (ok: bool)
      requires fs.Valid()
      modifies this, fs`files, fs`nextTemporary, fs`leaked, fs`refused
      ensures AllStaged(fs, keys) && fresh(entries) && (ok ==> |entries| == |keys|)
      ensures plan.before == old(fs.files)
      ensures fs.refused == old(fs.refused) ==> (ok <==> forall key :: key in keys ==> Source(key) in old(fs.files))
      ensures !fs.leaked && NoLitter([], old(fs.files)) ==> Tidy(fs)
    {
      entries := [];
      plan := Plan(fs.files, []);
      ok := true;
      while ok && |entries| < |keys|
        invariant AllStaged(fs, keys) && fresh(entries)
        invariant plan.before == old(fs.files) && fs.refused >= old(fs.refused)
        invariant fs.refused == old(fs.refused) && !ok ==> |entries| < |keys| && Source(keys[|entries|]) !in old(fs.files)
        invariant !fs.leaked && NoLitter([], old(fs.files)) ==> Tidy(fs)
        decreases ok, |keys| - |entries|
      {
        ok := Add(fs, keys);
      }
    }

    method Add(fs: FileSystem, keys: seq<string>) returns (ok: bool)
      requires AllStaged(fs, keys) && |entries| < |keys|
      modifies this, fs`files, fs`nextTemporary, fs`leaked, fs`refused
      ensures AllStaged(fs, keys) && plan.before == old(plan).before
      ensures fs.refused >= old(fs.refused)
      ensures !ok ==> entries == old(entries)
                      && (fs.refused == old(fs.refused) ==> Source(keys[|entries|]) !in plan.before)
      ensures ok ==> |entries| == |old(entries)| + 1 && entries[..|old(entries)|] == old(entries)
                     && fresh(entries[|old(entries)|])
      ensures !fs.leaked ==> !old(fs.leaked)
      ensures !fs.leaked && old(Tidy(fs)) ==> Tidy(fs)
    {
      ghost var us, files := Views(), fs.files;
      var key := keys[|entries|];
      var update := Stage(fs, key);
      assert Views() == us;
      if update == null {
        StrayTemporariesKeepPlan(us, files, fs.files, plan);
        return false;
      }
      Append(fs, keys, update, us, files);
      ok := true;
    }

    // The update staged over `files` joins the transaction.
    method Append(fs: FileSystem, ghost keys: seq<string>, update: CacheUpdate, ghost us: seq<Update>, ghost files: Files)
      requires fs.Valid() && Separate() && Views() == us && update !in entries && |entries| < |keys|
      requires InPlan(us, files, plan) && StagedSources(keys) && Source(keys[|entries|]) in files
      requires update.acceptedPath == Accepted(keys[|entries|]) && update.candidatePath.Some? && !update.committed
      requires UpdateFits(update.View(), files[Source(keys[|entries|])], fs.files, files)
      requires forall p: Path :: p !in Owned(update.View()) ==> Lookup(fs.files, p) == Lookup(files, p)
      requires Owned(update.View()) !! files.Keys
      modifies `entries, `plan
      ensures AllStaged(fs, keys) && entries == old(entries) + [update] && plan.before == old(plan).before
      ensures NoLitter(us, files) ==> Tidy(fs)
    {
      ghost var content := files[Source(keys[|entries|])];
      AllUndone(us, files, plan);
      StagingKeepsPlan(us, update.View(), content, files, fs.files, plan);
      entries := entries + [update];
      plan := plan.(staged := plan.staged + [content]);
      assert Views() == us + [update.View()];
    }

    ghost predicate StagedSources(keys: seq<string>)
      reads this, entries
    {
      && |entries| <= |keys| && |plan.staged| == |entries|
      && forall k :: 0 <= k < |entries| ==>
           && entries[k].acceptedPath == Accepted(keys[k]) && entries[k].candidatePath.Some? && !entries[k].committed
           && Lookup(plan.before, Source(keys[k])) == Some(plan.staged[k])
    }

    // Copies the source as the candidate and the accepted file, if any, as the previous one.
    method Stage(fs: FileSystem, key: string) returns (update: CacheUpdate?)
      requires fs.Valid()
      modifies fs`files, fs`nextTemporary, fs`leaked, fs`refused
      ensures fs.Valid() && (old(fs.leaked) ==> fs.leaked)
      ensures forall p: Path :: !p.Temporary? || p in old(fs.files) ==> Lookup(fs.files, p) == Lookup(old(fs.files), p)
      ensures fs.refused >= old(fs.refused)
      ensures fs.refused == old(fs.refused) ==> (update != null <==> Source(key) in old(fs.files))
      ensures update == null && !fs.leaked ==> fs.files == old(fs.files)
      ensures update != null ==>
                && fresh(update) && Source(key) in old(fs.files) && update.acceptedPath == Accepted(key)
                && update.candidatePath.Some? && !update.committed
                && UpdateFits(update.View(), old(fs.files)[Source(key)], fs.files, old(fs.files))
                && (forall p: Path :: p !in Owned(update.View()) ==> Lookup(fs.files, p) == Lookup(old(fs.files), p))
                && Owned(update.View()) !! old(fs.files).Keys
    {
      ghost var before := fs.files;
      var candidate := fs.CopyToTemp(Source(key));
      if candidate.None? { return null; }
      update := StagePrevious(fs, key, candidate.value, before);
    }

    // The candidate has been copied; the accepted file is copied too, or both are given up.
    method StagePrevious(fs: FileSystem, key: string, candidate: Path, ghost before: Files) returns (update: CacheUpdate?)
      requires fs.Valid() && candidate.Temporary? && candidate !in before && Source(key) in before
      requires fs.files == before[candidate := before[Source(key)]]
      modifies fs`files, fs`nextTemporary, fs`leaked, fs`refused
      ensures fs.Valid() && (old(fs.leaked) ==> fs.leaked)
      ensures forall p: Path :: !p.Temporary? || p in before ==> Lookup(fs.files, p) == Lookup(before, p)
      ensures fs.refused >= old(fs.refused) && (fs.refused == old(fs.refused) ==> update != null)
      ensures update == null && !fs.leaked ==> fs.files == before
      ensures update != null ==>
                && fresh(update) && update.acceptedPath == Accepted(key)
                && update.candidatePath.Some? && !update.committed
                && UpdateFits(update.View(), before[Source(key)], fs.files, before)
                && (forall p: Path :: p !in Owned(update.View()) ==> Lookup(fs.files, p) == Lookup(before, p))
                && Owned(update.View()) !! before.Keys
    {
      update := new CacheUpdate(Accepted(key));
      update.candidatePath := Some(candidate);
      var unreadable: bool := *;
      if unreadable { fs.refused := fs.refused + 1; }
      if !unreadable && Accepted(key) !in fs.files { return; }
      if !unreadable {
        var previous := fs.CopyToTemp(Accepted(key));
        if previous.Some? {
          update.previousPath := previous;
          update.previousExists := true;
          return;
        }
      }
      update.Finish(fs);
      update := null;
    }

    method CommitEntry(fs: FileSystem, k: nat) returns (ok: bool)
      requires Valid(fs) && k < |entries| && entries[k].candidatePath.Some?
      modifies entries[k], fs`files, fs`refused
      ensures Valid(fs) && fs.refused >= old(fs.refused) && (fs.refused == old(fs.refused) ==> ok)
      ensures !ok ==> Views() == old(Views()) && fs.files == old(fs.files)
      ensures ok ==> Views() == old(Views())[k := Committed(old(Views())[k])]
                     && Lookup(fs.files, entries[k].acceptedPath) == Some(plan.staged[k])
                     && (forall p: Path :: p.Accepted? && p != entries[k].acceptedPath
                                           ==> Lookup(fs.files, p) == Lookup(old(fs.files), p))
      ensures old(Tidy(fs)) ==> Tidy(fs)
    {
      ghost var us, files := Views(), fs.files;
      assert UpdateFits(us[k], plan.staged[k], files, plan.before);
      ok := entries[k].Commit(fs);
      if ok {
        CommitKeepsPlan(us, k, files, plan);
        assert Views() == us[k := Committed(us[k])];
      } else {
        assert Views() == us;
      }
    }

    method RollbackEntry(fs: FileSystem, k: nat) returns (ok: bool)
      requires Valid(fs) && k < |entries|
      modifies entries[k], fs
      ensures Valid(fs) && fs.refused >= old(fs.refused)
      ensures !ok ==> Views() == old(Views()) && fs.files == old(fs.files) && old(Views())[k].committed
      ensures ok ==> Views() == old(Views())[k := RolledBack(old(Views())[k])]
      ensures fs.undoFailures == old(fs.undoFailures) + if ok then 0 else 1
      ensures old(fs.leaked) ==> fs.leaked
      ensures !fs.leaked && old(Tidy(fs)) ==> Tidy(fs)
    {
      ghost var us, files := Views(), fs.files;
      assert UpdateFits(us[k], plan.staged[k], files, plan.before);
      ok := entries[k].Rollback(fs);
      if ok {
        RollbackKeepsPlan(us, k, files, fs.files, plan);
        assert Views() == us[k := RolledBack(us[k])];
      } else {
        assert Views() == us;
      }
    }

    // Only the copies needed to retry an undo that failed are still owned.
    ghost predicate Settled(us: seq<Update>) {
      forall k :: 0 <= k < |us| ==> us[k].candidatePath.None? && (!us[k].committed ==> Owned(us[k]) == {})
    }

    // The first `k` entries are committed, the others still staged.
    ghost predicate Partway(fs: FileSystem, keys: seq<string>, k: nat)
      reads this, entries, fs
    {
      && Valid(fs) && k <= |entries| <= |keys|
      && (forall i :: 0 <= i < |entries| ==>
            entries[i].acceptedPath == Accepted(keys[i]) && Lookup(plan.before, Source(keys[i])) == Some(plan.staged[i]))
      && (forall i :: 0 <= i < k ==>
            entries[i].committed && Lookup(fs.files, entries[i].acceptedPath) == Some(plan.staged[i]))
      && (forall i :: k <= i < |entries| ==> entries[i].candidatePath.Some? && !entries[i].committed)
    }

    method CommitNext(fs: FileSystem, ghost keys: seq<string>, k: nat) returns (ok: bool)
      requires Partway(fs, keys, k) && k < |entries|
      modifies entries[k], fs`files, fs`refused
      ensures Partway(fs, keys, if ok then k + 1 else k)
      ensures fs.refused >= old(fs.refused) && (fs.refused == old(fs.refused) ==> ok)
      ensures old(Tidy(fs)) ==> Tidy(fs)
    {
      ghost var us := Views();
      ok := CommitEntry(fs, k);
      assert forall i :: 0 <= i < |entries| ==> entries[i].View() == (if ok && i == k then Committed(us[i]) else us[i]);
    }

    // Commits in order. A failure undoes what was committed, in reverse, and gives up the rest.
    method Commit(fs: FileSystem, ghost keys: seq<string>) returns (ok: bool)
      requires AllStaged(fs, keys)
      modifies entries, fs
      ensures Valid(fs) && (fs.refused == old(fs.refused) ==> ok)
      ensures ok ==> forall k :: 0 <= k < |entries| ==>
                       entries[k].committed && Lookup(fs.files, entries[k].acceptedPath) == Some(plan.staged[k])
      ensures !ok ==> Settled(Views())
      ensures !ok && fs.undoFailures == old(fs.undoFailures)
              ==> forall p: Path :: !p.Temporary? ==> Lookup(fs.files, p) == Lookup(plan.before, p)
      ensures fs.undoFailures >= old(fs.undoFailures)
      ensures !fs.leaked && old(Tidy(fs)) ==> Tidy(fs)
    {
      for index := 0 to |entries|
        invariant Partway(fs, keys, index) && fs.refused >= old(fs.refused) && fs.undoFailures == old(fs.undoFailures) && fs.leaked == old(fs.leaked)
        invariant old(Tidy(fs)) ==> Tidy(fs)
      {
        ok := CommitNext(fs, keys, index);
        if !ok {
          Abandon(fs, index);
          return;
        }
      }
      ok := true;
    }

    // What `Commit` does about a failure at `index`.
    method Abandon(fs: FileSystem, index: nat)
      requires Valid(fs) && index < |entries|
      requires forall k :: index <= k < |entries| ==> !entries[k].committed
      requires forall k :: 0 <= k < index ==> entries[k].committed
      modifies entries, fs
      ensures Valid(fs) && Settled(Views()) && fs.refused >= old(fs.refused)
      ensures fs.undoFailures == old(fs.undoFailures)
              ==> forall p: Path :: !p.Temporary? ==> Lookup(fs.files, p) == Lookup(plan.before, p)
      ensures fs.undoFailures >= old(fs.undoFailures)
      ensures !fs.leaked && old(Tidy(fs)) ==> Tidy(fs)
    {
      UndoFirst(fs, index);
      FinishFrom(fs, index);
      SettledWhenUndone(Views(), fs.files, plan);
      if fs.undoFailures == old(fs.undoFailures) {
        AllUndone(Views(), fs.files, plan);
      }
    }

    method FinishFrom(fs: FileSystem, index: nat)
      requires Valid(fs) && index <= |entries| && forall k :: index <= k < |entries| ==> !Views()[k].committed
      modifies entries, fs`files, fs`leaked
      ensures Valid(fs) && (old(fs.leaked) ==> fs.leaked)
      ensures forall k :: 0 <= k < |entries| ==>
                Views()[k] == (if index <= k then Finished(old(Views())[k]) else old(Views())[k])
      ensures !fs.leaked && old(Tidy(fs)) ==> Tidy(fs)
    {
      for c := index to |entries|
        invariant Valid(fs) && (old(fs.leaked) ==> fs.leaked)
        invariant forall k :: 0 <= k < |entries| ==>
                    Views()[k] == (if index <= k < c then Finished(old(Views())[k]) else old(Views())[k])
        invariant !fs.leaked && old(Tidy(fs)) ==> Tidy(fs)
      {
        FinishEntry(fs, c);
      }
    }

    lemma SettledWhenUndone(us: seq<Update>, files: Files, plan: Plan)
      requires InPlan(us, files, plan)
      requires forall k :: 0 <= k < |us| ==> us[k].committed || Owned(us[k]) == {}
      ensures Settled(us)
    {
      forall k | 0 <= k < |us| ensures us[k].candidatePath.None? {
        assert UpdateFits(us[k], plan.staged[k], files, plan.before);
      }
    }

    // Rolls the first `count` entries back, last one first; one that fails keeps its copy.
    method UndoFirst(fs: FileSystem, count: nat)
      requires Valid(fs) && count <= |entries|
      modifies entries, fs
      ensures Valid(fs) && fs.refused >= old(fs.refused)
      ensures forall k :: count <= k < |entries| ==> Views()[k] == old(Views())[k]
      ensures forall k :: 0 <= k < count ==>
                Views()[k] == RolledBack(old(Views())[k]) || (old(Views())[k].committed && Views()[k] == old(Views())[k])
      ensures fs.undoFailures >= old(fs.undoFailures)
      ensures fs.undoFailures == old(fs.undoFailures)
              ==> forall k :: 0 <= k < count ==> Views()[k] == RolledBack(old(Views())[k])
      ensures old(fs.leaked) ==> fs.leaked
      ensures !fs.leaked && old(Tidy(fs)) ==> Tidy(fs)
    {
      ghost var us := Views();
      for r := count downto 0
        invariant Valid(fs) && fs.refused >= old(fs.refused) && fs.undoFailures >= old(fs.undoFailures) && (old(fs.leaked) ==> fs.leaked)
        invariant forall k :: 0 <= k < |us| && !(r <= k < count) ==> Views()[k] == us[k]
        invariant forall k :: r <= k < count ==> Views()[k] == RolledBack(us[k]) || (us[k].committed && Views()[k] == us[k])
        invariant fs.undoFailures == old(fs.undoFailures) ==> forall k :: r <= k < count ==> Views()[k] == RolledBack(us[k])
        invariant !fs.leaked && old(Tidy(fs)) ==> Tidy(fs)
      {
        var _ := RollbackEntry(fs, r);
      }
    }

    // Gives up an update that was never committed.
    method FinishEntry(fs: FileSystem, k: nat)
      requires Valid(fs) && k < |entries| && !entries[k].committed
      modifies entries[k], fs`files, fs`leaked
      ensures Valid(fs) && Views() == old(Views())[k := Finished(old(Views())[k])]
      ensures old(fs.leaked) ==> fs.leaked
      ensures !fs.leaked && old(Tidy(fs)) ==> Tidy(fs)
    {
      ghost var us, files := Views(), fs.files;
      assert UpdateFits(us[k], plan.staged[k], files, plan.before);
      entries[k].Finish(fs);
      RollbackKeepsPlan(us, k, files, fs.files, plan);
      assert Views() == us[k := Finished(us[k])];
    }

    // After a failed preparation or commit: undo in reverse whatever is still committed.
    method Reject(fs: FileSystem)
      requires Valid(fs)
      modifies entries, fs
      ensures Valid(fs) && Settled(Views())
      ensures fs.undoFailures == old(fs.undoFailures)
              ==> forall p: Path :: !p.Temporary? ==> Lookup(fs.files, p) == Lookup(plan.before, p)
      ensures !fs.leaked && old(Tidy(fs)) && fs.undoFailures == old(fs.undoFailures)
              ==> forall p: Path :: p in fs.files ==> !p.Temporary?
      // a second rejection changes nothing
      ensures (forall k :: 0 <= k < |entries| ==> Owned(old(Views())[k]) == {} && !old(Views())[k].committed)
              ==> Views() == old(Views())
    {
      UndoFirst(fs, |entries|);
      SettledWhenUndone(Views(), fs.files, plan);
      if fs.undoFailures == old(fs.undoFailures) {
        AllUndone(Views(), fs.files, plan);
      }
    }

    // Publication succeeded: the copies of the previous content are given up.
    method Accept(fs: FileSystem)
      requires Valid(fs) && forall k :: 0 <= k < |entries| ==> entries[k].committed
      modifies entries, fs`files, fs`leaked
      ensures forall p: Path :: !p.Temporary? ==> Lookup(fs.files, p) == Lookup(old(fs.files), p)
      ensures forall k :: 0 <= k < |entries| ==> Owned(entries[k].View()) == {}
      ensures !fs.leaked && old(Tidy(fs)) ==> forall p: Path :: p in fs.files ==> !p.Temporary?
    {
      ghost var us := Views();
      forall k | 0 <= k < |us| ensures us[k].acceptedPath.Accepted? && forall p :: p in Owned(us[k]) ==> p.Temporary? {
        assert UpdateFits(us[k], plan.staged[k], fs.files, plan.before);
      }
      for i := 0 to |entries|
        invariant fs.Valid() && (old(fs.leaked) ==> fs.leaked)
        invariant forall p: Path :: !p.Temporary? ==> Lookup(fs.files, p) == Lookup(old(fs.files), p)
        invariant forall k :: 0 <= k < |entries| ==> entries[k].View() == (if k < i then Finished(us[k]) else us[k])
        invariant !fs.leaked && old(Tidy(fs)) ==> Tidy(fs)
      {
        ghost var vs, files := Views(), fs.files;
        entries[i].Finish(fs);
        assert Views() == vs[i := Finished(us[i])];
        if !fs.leaked && old(Tidy(fs)) {
          LocalStepKeepsTidy(vs, i, Finished(us[i]), files, fs.files);
        }
      }
    }
  }
}
