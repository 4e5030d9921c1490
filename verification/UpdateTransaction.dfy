/** The journalled self-update: install, rollback, and the worker that recovers them.

    A host is everything that survives a crash of the updater. Each durable effect is
    one atomic change of the host, and the field `history` records every host the
    transaction ever went through, so "a crash at any point" is: forget the in-memory
    state and go on from any recorded host. Every operation may fail; a journal write or
    a file copy may also fail after taking effect (the rename happened, the directory
    sync did not).
    */
module UpdateTransaction {
  import opened Common

  // A digest is taken to determine the contents, so contents stand for their digest.
  type Bytes = string

  datatype Phase =
    | Prepared | Stopping | BackedUp | Installing | Starting | RollingBack | RecoveryFailed
    | Failed | RolledBack | Installed | Succeeded

  predicate Active(phase: Phase) {
    phase in {Prepared, Stopping, BackedUp, Installing, Starting, RollingBack, RecoveryFailed}
  }

  // May a serving process start while the journal says `phase`?
  predicate StartupAllowed(phase: Phase) {
    phase !in {Prepared, Stopping, BackedUp, Installing, RecoveryFailed}
  }

  // A process may start exactly when no update is active or a worker is waiting for it, and
  // exactly the phases that end an update are not active.
  lemma StartsAreSupervised(phase: Phase)
    ensures StartupAllowed(phase) <==> !Active(phase) || phase in {Starting, RollingBack}
    ensures Active(phase) <==> phase !in {Failed, RolledBack, Installed, Succeeded}
  {
  }

  datatype Journal = Journal(
    id: nat, phase: Phase, version: string, previousVersion: string,
    digest: Bytes, previousDigest: Option<Bytes>, service: bool, pid: nat)

  datatype File = File(inode: nat, bytes: Bytes)

  datatype Host = Host(
    target: File,
    staged: Option<File>,
    previous: Option<Bytes>,  // the copy kept beside the target
    config: Bytes,            // gateway.json
    backup: Option<Bytes>,    // the copy of gateway.json in the backup directory
    journal: Option<Journal>,
    running: Option<Bytes>)   // the binary of the serving process

  // The installation an update starts from.
  datatype Origin = Origin(binary: Bytes, config: Bytes)

  // The two ways the transaction is dispatched: by the worker, or in the foreground
  // for a manual instance, with a `stop` that does nothing and no `start` or `ready`.
  datatype Ops = WorkerOps | ForegroundOps

  datatype Event =
    | Replaced(held: Option<nat>, before: File, after: Bytes)
    | Launched(durable: Option<Phase>, service: bool)
    | Submitted                   // the worker has been handed the update
    | NilCall                     // a start or a probe where the foreground run has none

  ghost predicate BackupsHold(h: Host, origin: Origin) {
    h.previous == Some(origin.binary) && h.backup == Some(origin.config)
  }

  // The candidate has not been started yet, so the configuration is the original one.
  ghost predicate Untouched(h: Host, origin: Origin, candidate: Bytes) {
    h.config == origin.config && h.running != Some(candidate)
  }

  // What a journal phase says about the host.
  ghost predicate Fits(phase: Phase, h: Host, origin: Origin, candidate: Bytes) {
    match phase
    case Prepared | Stopping | Failed => h.target.bytes == origin.binary && Untouched(h, origin, candidate)
    case BackedUp => h.target.bytes == origin.binary && BackupsHold(h, origin) && Untouched(h, origin, candidate)
    case Installing =>
      h.target.bytes in {origin.binary, candidate} && BackupsHold(h, origin) && Untouched(h, origin, candidate)
    case Starting => h.target.bytes == candidate && BackupsHold(h, origin)
    case RollingBack | RecoveryFailed => h.target.bytes in {origin.binary, candidate} && BackupsHold(h, origin)
    case RolledBack =>
      h.target.bytes == origin.binary && BackupsHold(h, origin) && Untouched(h, origin, candidate)
    case Installed | Succeeded => h.target.bytes == candidate && BackupsHold(h, origin)
  }

  ghost predicate JournalFits(j: Journal, id: nat, origin: Origin, candidate: Bytes) {
    && j.id == id && j.digest == candidate
    && (j.previousDigest == None || j.previousDigest == Some(origin.binary))
  }

  // A host from which the update can be told and recovered: either the journal of this
  // transaction describes it, or the transaction has not been journalled yet.
  ghost predicate Safe(h: Host, id: nat, origin: Origin, candidate: Bytes) {
    if h.journal.Some? && h.journal.value.id == id then
      && JournalFits(h.journal.value, id, origin, candidate)
      && Fits(h.journal.value.phase, h, origin, candidate)
    else
      && (h.journal.Some? ==> !Active(h.journal.value.phase))
      && h.target.bytes == origin.binary && Untouched(h, origin, candidate)
  }

  ghost predicate EventFits(e: Event, origin: Origin, candidate: Bytes) {
    match e
    case Replaced(held, before, after) => held == Some(before.inode) && after in {origin.binary, candidate}
    case Launched(durable, service) => service && durable.Some? && durable.value in {Starting, RollingBack, Failed}
    case Submitted => true
    case NilCall => false
  }

  class Transaction {
    var host: Host
    var j: Journal          // the in-memory journal
    var lock: Option<nat>   // the inode whose exclusive lock is held

    ghost const id: nat
    ghost const origin: Origin
    ghost const candidate: Bytes
    var history: seq<Host>  // every host so far, the current one last
    ghost var events: seq<Event>
    ghost var answers: seq<string>  // the versions that have answered a probe
    ghost var faults: nat   // operations that have reported an error
    ghost var failedStops: nat  // how many of them stopped a process

    ghost predicate Recorded()
      reads this
    {
      |history| > 0 && history[|history| - 1] == host
    }

    ghost predicate Valid()
      reads this
    {
      && Recorded()
      && candidate != origin.binary
      && (forall k :: 0 <= k < |history| ==> Safe(history[k], id, origin, candidate))
      && (forall k :: 0 <= k < |events| ==> EventFits(events[k], origin, candidate))
    }

    // Whatever has happened so far, every process was launched under a durable phase that lets
    // one start, only a service was, and the target was replaced under the lock on its inode.
    lemma LaunchesAreAdmitted()
      requires Valid()
      ensures forall e :: e in events && e.Launched? ==> e.service && e.durable.Some? && StartupAllowed(e.durable.value)
      ensures forall e :: e in events && e.Replaced? ==> e.held == Some(e.before.inode)
      ensures NilCall !in events
    {
      forall e | e in events ensures EventFits(e, origin, candidate) {
        var k :| 0 <= k < |events| && events[k] == e;
      }
    }

    // The in-memory journal belongs to this transaction and its phase is true of the host,
    // whether or not it has reached the disk.
    ghost predicate Truthful()
      reads this
    {
      JournalFits(j, id, origin, candidate) && Fits(j.phase, host, origin, candidate)
    }

    // The release is strictly newer than the installed program, so the binaries differ.
    constructor (h: Host, journal: Journal)
      requires h.journal.Some? ==> !Active(h.journal.value.phase) && h.journal.value.id != journal.id
      requires journal.phase == Prepared && journal.digest != h.target.bytes
      requires journal.previousDigest == None || journal.previousDigest == Some(h.target.bytes)
      requires h.running != Some(journal.digest)
      ensures Valid() && Truthful() && host == h && j == journal && lock == None && history == [h] && events == []
      ensures origin == Origin(h.target.bytes, h.config) && candidate == journal.digest && id == journal.id
    {
      host, j, lock := h, journal, None;
      id, origin, candidate := journal.id, Origin(h.target.bytes, h.config), journal.digest;
      history, events, answers, faults, failedStops := [h], [], [], 0, 0;
    }

    // What every operation below keeps: the history stays safe when the new host is safe
    // and the event it adds, if any, is a fitting one.
    twostate predicate Kept(added: Option<Event>)
      reads this
    {
      && Recorded()
      && events == old(events) + (if added.Some? then [added.value] else [])
      && (old(Valid()) && Safe(host, id, origin, candidate) && (added.Some? ==> EventFits(added.value, origin, candidate))
          ==> Valid())
    }

    method Write(h: Host)
      modifies `host, `history
      ensures host == h && history == old(history) + [h]
      ensures Kept(None)
    {
      host := h;
      history := history + [h];
    }

    // Any fallible check or read.
    method Attempt() returns (ok: bool)
      modifies `faults
      ensures faults == old(faults) + if ok then 0 else 1
    {
      ok := *;
      if !ok { faults := faults + 1; }
    }

    // A serving candidate may rewrite the configuration at any time; the previous
    // version cannot, its writes are frozen while the journal is active.
    method Serve()
      requires Recorded()
      modifies `host, `history
      ensures Kept(None)
      ensures host == old(host).(config := host.config)
      ensures old(host).running != Some(j.digest) ==> host == old(host)
    {
      var config := host.config;
      if host.running == Some(j.digest) { config := *; }
      Write(host.(config := config));
    }

    // writeJSON of the in-memory journal: it can fail before or after taking effect.
    method WriteJournal() returns (ok: bool)
      modifies `host, `history, `faults
      ensures host == old(host) || host == old(host).(journal := Some(j))
      ensures ok ==> host == old(host).(journal := Some(j))
      ensures Kept(None)
      ensures faults == old(faults) + if ok then 0 else 1
    {
      ok := Attempt();
      var written: bool := *;
      Write(if ok || written then host.(journal := Some(j)) else host);
    }

    // The in-memory phase changes before the write.
    method Save(phase: Phase) returns (ok: bool)
      modifies `j, `host, `history, `faults
      ensures j == old(j).(phase := phase)
      ensures host == old(host) || host == old(host).(journal := Some(j))
      ensures ok ==> host == old(host).(journal := Some(j))
      ensures Kept(None)
      ensures faults == old(faults) + if ok then 0 else 1
    {
      j := j.(phase := phase);
      ok := WriteJournal();
    }

    method LockExecutable() returns (ok: bool)
      modifies `lock, `faults
      ensures lock == if ok then Some(host.target.inode) else old(lock)
      ensures faults == old(faults) + if ok then 0 else 1
    {
      ok := Attempt();
      if ok { lock := Some(host.target.inode); }
    }

    method BackUpConfig() returns (ok: bool)
      modifies `host, `history, `faults
      ensures host == old(host) || host == old(host).(backup := Some(host.config))
      ensures ok ==> host == old(host).(backup := Some(host.config))
      ensures Kept(None)
      ensures faults == old(faults) + if ok then 0 else 1
    {
      ok := Attempt();
      var renamed: bool := *;
      Write(if ok || renamed then host.(backup := Some(host.config)) else host);
    }

    method BackUpTarget() returns (ok: bool)
      modifies `host, `history, `faults
      ensures host == old(host) || host == old(host).(previous := Some(host.target.bytes))
      ensures ok ==> host == old(host).(previous := Some(host.target.bytes))
      ensures Kept(None)
      ensures faults == old(faults) + if ok then 0 else 1
    {
      ok := Attempt();
      var renamed: bool := *;
      Write(if ok || renamed then host.(previous := Some(host.target.bytes)) else host);
    }

    // Renames the staged file over the target; a failed rename changes nothing.
    method InstallStaged() returns (ok: bool)
      requires host.staged.Some?
      modifies `host, `history, `events, `faults
      ensures ok ==> host == old(host).(target := old(host).staged.value, staged := None)
      ensures !ok ==> host == old(host)
      ensures Kept(if ok then Some(Replaced(lock, old(host).target, host.target.bytes)) else None)
      ensures faults == old(faults) + if ok then 0 else 1
    {
      ok := Attempt();
      if ok { events := events + [Replaced(lock, host.target, host.staged.value.bytes)]; }
      Write(if ok then host.(target := host.staged.value, staged := None) else host);
    }

    // Copies the kept binary over the target, on a new inode.
    method RestoreTarget() returns (ok: bool)
      modifies `host, `history, `events, `faults
      ensures host == old(host) || (host.previous.Some? && host == old(host).(target := File(host.target.inode, host.previous.value)))
      ensures ok ==> host.previous.Some? && host == old(host).(target := File(host.target.inode, host.previous.value))
      ensures (host == old(host) && Kept(None))
           || (host.previous.Some? && Kept(Some(Replaced(lock, old(host).target, host.previous.value))))
      ensures host.previous.Some? ==> faults == old(faults) + if ok then 0 else 1
      ensures faults >= old(faults)
    {
      ok := Attempt();
      if host.previous.None? {
        ok := false;
        Write(host);
        return;
      }
      var renamed: bool := *;
      var inode: nat := *;
      if ok || renamed {
        events := events + [Replaced(lock, host.target, host.previous.value)];
        Write(host.(target := File(inode, host.previous.value)));
      } else {
        Write(host);
      }
    }

    method RestoreConfig() returns (ok: bool)
      modifies `host, `history, `faults
      ensures host == old(host) || (host.backup.Some? && host == old(host).(config := host.backup.value))
      ensures ok ==> host.backup.Some? && host == old(host).(config := host.backup.value)
      ensures Kept(None)
      ensures host.backup.Some? ==> faults == old(faults) + if ok then 0 else 1
      ensures faults >= old(faults)
    {
      ok := Attempt();
      if host.backup.None? {
        ok := false;
        Write(host);
        return;
      }
      var renamed: bool := *;
      Write(if ok || renamed then host.(config := host.backup.value) else host);
    }

    method Stop(ops: Ops) returns (ok: bool)
      requires Recorded()
      modifies `host, `history, `faults, `failedStops
      ensures host == old(host).(config := host.config, running := host.running)
      ensures host.running == None || host.running == old(host).running
      ensures ok && ops.WorkerOps? ==> host.running == None
      ensures old(host).running != Some(j.digest) ==> host.config == old(host).config
      ensures Safe(old(host).(config := host.config), id, origin, candidate) ==> Kept(None)
      ensures Recorded() && events == old(events)
      ensures faults == old(faults) + if ok then 0 else 1
      ensures failedStops == old(failedStops) + if ok then 0 else 1
    {
      Serve();
      if ops.ForegroundOps? {
        ok := true;
        Write(host);
        return;
      }
      ok := Attempt();
      if !ok { failedStops := failedStops + 1; }
      var stopped: bool := *;
      Write(if ok || stopped then host.(running := None) else host);
    }

    function DurablePhase(): Option<Phase>
      reads this
    {
      if host.journal.Some? then Some(host.journal.value.phase) else None
    }

    // ops.start: the worker starts the registered service, and only that.
    method Start(ops: Ops) returns (ok: bool)
      requires Recorded()
      modifies `host, `history, `events, `faults
      ensures host == old(host).(config := host.config, running := host.running)
      ensures host.running == old(host).running || (j.service && host.running == Some(host.target.bytes))
      ensures ok && ops.WorkerOps? && j.service ==> host.running == Some(host.target.bytes)
      ensures host.running != Some(j.digest) ==> host.config == old(host).config
      ensures Safe(old(host).(running := host.running), id, origin, candidate)
              ==> Kept(if ops.ForegroundOps? then Some(NilCall)
                       else if j.service then Some(Launched(old(DurablePhase()), true))
                       else None)
      ensures Recorded()
      ensures faults == old(faults) + if ok then 0 else 1
    {
      if ops.ForegroundOps? {
        events := events + [NilCall];
        faults := faults + 1;
        ok := false;
        Write(host);
      } else if !j.service {
        ok := true;
        Write(host);
      } else {
        events := events + [Launched(DurablePhase(), true)];
        ok := Attempt();
        var launched: bool := *;
        Write(if ok || launched then host.(running := Some(host.target.bytes)) else host);
      }
      Serve();
    }

    method Ready(ops: Ops, version: string) returns (ok: bool)
      requires Recorded()
      modifies `host, `history, `events, `answers, `faults
      ensures host == old(host).(config := host.config)
      ensures answers == old(answers) + if ok then [version] else []
      ensures old(host).running != Some(j.digest) ==> host == old(host)
      ensures Kept(if ops.ForegroundOps? then Some(NilCall) else None)
      ensures faults == old(faults) + if ok then 0 else 1
    {
      if ops.ForegroundOps? {
        events := events + [NilCall];
        faults := faults + 1;
        ok := false;
      } else {
        ok := Attempt();
        if ok { answers := answers + [version]; }
      }
      Serve();
    }

    // What has answered since: nothing, or this version, once.
    twostate predicate AnsweredAs(version: string)
      reads this
    {
      answers == old(answers) || answers == old(answers) + [version]
    }

    // The candidate succeeds exactly when it has answered; else the previous version may have.
    twostate predicate Decided()
      reads this
    {
      if j.phase == Succeeded then answers == old(answers) + [j.version] else AnsweredAs(j.previousVersion)
    }

    ghost predicate LastConfirmed(version: string)
      reads this
    {
      |answers| > 0 && answers[|answers| - 1] == version
    }

    // The checks that precede the transaction: the staged file is the release, and the
    // target is still the program the update was prepared for.
    method CheckFiles() returns (ok: bool)
      modifies `faults
      ensures ok ==> host.staged.Some? && host.staged.value.bytes == j.digest
      ensures ok ==> j.previousDigest == None || j.previousDigest == Some(host.target.bytes)
      ensures faults == old(faults) ==> (ok <==> FilesMatch())
      ensures faults >= old(faults)
    {
      ok := Attempt();
      if !ok || host.staged.None? { return false; }
      ok := Attempt();
      if !ok || host.staged.value.bytes != j.digest { return false; }
      ok := Attempt();
      if !ok { return; }
      if j.previousDigest.Some? {
        ok := Attempt();
        if !ok || j.previousDigest.value != host.target.bytes { return false; }
      }
    }

    predicate FilesMatch()
      reads this
    {
      && host.staged.Some? && host.staged.value.bytes == j.digest
      && (j.previousDigest == None || j.previousDigest == Some(host.target.bytes))
    }

    method ResumeBeforeInstall(ops: Ops)
      requires Valid() && JournalFits(j, id, origin, candidate) && lock == None
      requires Fits(Failed, host, origin, candidate)
      requires ops.ForegroundOps? ==> !j.service
      modifies `j, `host, `history, `events, `faults
      ensures Valid() && Truthful()
      ensures j == old(j).(phase := Failed)
      ensures host.target == old(host).target
      ensures faults == old(faults) ==> host.journal == Some(j) && (j.service ==> host.running == Some(origin.binary))
      ensures faults >= old(faults)
    {
      var ok := Save(Failed);
      if ok && j.service {
        ok := Start(ops);
      }
    }

    // Runs the prepared update. Whatever fails, wherever it stops, every host on the way
    // is Safe; an early error leaves the phase Prepared.
    method RunTransaction(ops: Ops) returns (ok: bool)
      requires Valid() && Truthful() && lock == None
      requires j.phase == Prepared && host.journal == Some(j)
      requires ops.ForegroundOps? ==> !j.service && j.pid == 0
      modifies this
      ensures Valid() && Truthful() && lock == None
      ensures j == old(j).(phase := j.phase)
      ensures ok ==> host.journal == Some(j) && j.phase == (if j.service || j.pid != 0 then Succeeded else Installed)
      ensures ok && ops.WorkerOps? && j.service ==> host.running == Some(candidate)
      ensures !ok ==> j.phase in {Prepared, Stopping, Failed, RolledBack, RecoveryFailed, Installed, Succeeded}
      ensures j.phase == Succeeded ==> LastConfirmed(j.version)
      ensures Decided()
      ensures faults == old(faults) ==> (ok <==> old(FilesMatch()))
      ensures !old(FilesMatch()) ==> !ok && host == old(host) && j == old(j) && events == old(events)
      ensures faults <= old(faults) + 1 && failedStops == old(failedStops) && j.service && ops.WorkerOps? ==> Carried(old(host).running)
      ensures faults == old(faults) + 1 && failedStops > old(failedStops) ==> j.phase == Failed && host.journal == Some(j)
      ensures faults >= old(faults)
    {
      ok := CheckFiles();
      if !ok { return; }
      ok := Halt(ops);
      if !ok { return; }
      ok := Exchange(ops);
    }

    // From the executable lock on.
    method Exchange(ops: Ops) returns (ok: bool)
      requires Valid() && JournalFits(j, id, origin, candidate) && lock == None && j.phase == Stopping && host.journal == Some(j)
      requires host.staged.Some? && host.staged.value.bytes == candidate
      requires if ops.ForegroundOps? then !j.service && j.pid == 0 else host.running == None
      modifies this
      ensures Valid() && Truthful() && lock == None
      ensures j == old(j).(phase := j.phase)
      ensures ok ==> host.journal == Some(j) && j.phase == (if j.service || j.pid != 0 then Succeeded else Installed)
      ensures ok && j.service ==> host.running == Some(candidate)
      ensures !ok ==> j.phase in {Failed, RolledBack, RecoveryFailed, Installed, Succeeded}
      ensures j.phase == Succeeded ==> LastConfirmed(j.version)
      ensures Decided()
      ensures faults <= old(faults) + 1 && j.service ==> Carried(None)
      ensures failedStops > old(failedStops) ==> faults > old(faults) + 1
      ensures faults >= old(faults) && (faults == old(faults) <==> ok)
    {
      ok := LockExecutable();
      if !ok { ResumeBeforeInstall(ops); return; }
      ok := TakeBackups();
      if !ok { lock := None; ResumeBeforeInstall(ops); return; }
      ok := Replace(ops);
    }

    // Where an update of a service stands after at most one failure, which was not to stop it:
    // either nothing was stopped yet, or the service runs again, as the journal says.
    ghost predicate Carried(before: Option<Bytes>)
      reads this
    {
      match j.phase
      case Prepared | Stopping => host.running == before
      case Failed | RolledBack => host.journal == Some(j) && host.running == Some(origin.binary)
      case Succeeded => host.running == Some(candidate)
      case _ => false
    }

    method SwapTarget() returns (ok: bool)
      requires Valid() && JournalFits(j, id, origin, candidate) && host.staged.Some? && host.staged.value.bytes == candidate
      requires j.phase == Installing && host.journal == Some(j) && lock == Some(host.target.inode)
      modifies `host, `lock, `history, `events, `faults
      ensures Valid() && lock == None && host.journal == Some(j) && BackupsHold(host, origin)
      ensures ok ==> host.target.bytes == candidate
      ensures host.running == old(host).running
      ensures faults >= old(faults) && (faults == old(faults) <==> ok)
    {
      ok := InstallStaged();
      lock := None;  // it was on the old inode
      if ok { ok := Attempt(); }  // sync the directory
    }

    // The point of no return: from here a failure is rolled back.
    method Replace(ops: Ops) returns (ok: bool)
      requires Valid() && JournalFits(j, id, origin, candidate) && host.staged.Some? && host.staged.value.bytes == candidate
      requires j.phase == Installing && host.journal == Some(j) && lock == Some(host.target.inode)
      requires if ops.ForegroundOps? then !j.service && j.pid == 0 else host.running == None
      modifies this
      ensures Valid() && Truthful() && lock == None
      ensures j == old(j).(phase := j.phase)
      ensures ok ==> host.journal == Some(j) && j.phase == (if j.service || j.pid != 0 then Succeeded else Installed)
      ensures ok && j.service ==> host.running == Some(candidate)
      ensures !ok ==> j.phase in {RolledBack, RecoveryFailed, Installed, Succeeded}
      ensures j.phase == Succeeded ==> LastConfirmed(j.version)
      ensures Decided()
      ensures faults <= old(faults) + 1 && j.service ==> Carried(None)
      ensures failedStops > old(failedStops) ==> faults > old(faults) + 1
      ensures faults >= old(faults) && (faults == old(faults) <==> ok)
    {
      ok := SwapTarget();
      if ok && !j.service && j.pid == 0 {
        ok := Save(Installed);
        return;
      }
      if ok { ok := Launch(ops); }
      if !ok && j.phase != Succeeded { Rollback(ops); }
    }

    method Halt(ops: Ops) returns (ok: bool)
      requires Valid() && Truthful() && j.phase == Prepared && host.journal == Some(j)
      modifies `j, `host, `history, `faults, `failedStops
      ensures Valid() && Truthful() && j == old(j).(phase := j.phase) && events == old(events)
      ensures host.target == old(host).target && host.staged == old(host).staged
      ensures ok ==> j.phase == Stopping && host.journal == Some(j) && (ops.WorkerOps? ==> host.running == None)
      ensures !ok ==> j.phase in {Stopping, Failed}
      ensures !ok && failedStops == old(failedStops) ==> j.phase == Stopping && host.running == old(host).running
      ensures !ok && faults <= old(faults) + 1 && j.phase == Failed ==> host.journal == Some(j)
      ensures ok ==> failedStops == old(failedStops)
      ensures failedStops > old(failedStops) ==> j.phase == Failed
      ensures faults >= old(faults) && (faults == old(faults) <==> ok)
    {
      ok := Save(Stopping);
      if !ok { return; }
      ok := Stop(ops);
      if !ok {
        var _ := Save(Failed);
      }
    }

    // From the executable lock to the point of no return: both backups, then the phases.
    method TakeBackups() returns (ok: bool)
      requires Valid() && JournalFits(j, id, origin, candidate) && j.phase == Stopping && host.journal == Some(j)
      modifies `j, `host, `history, `faults
      ensures Valid() && j == old(j).(phase := j.phase) && events == old(events)
      ensures host.target == old(host).target && host.staged == old(host).staged && host.running == old(host).running
      ensures ok ==> j.phase == Installing && host.journal == Some(j)
      ensures !ok ==> j.phase in {Stopping, BackedUp, Installing} && Fits(Failed, host, origin, candidate)
      ensures faults >= old(faults) && (faults == old(faults) <==> ok)
    {
      ok := Attempt();  // create the backup directory
      if ok { ok := BackUpConfig(); }
      if ok { ok := BackUpTarget(); }
      if ok { ok := Save(BackedUp); }
      if ok { ok := Save(Installing); }
    }

    // Starts the installed candidate and waits for it. A failure to record the success
    // is not rolled back: the phase is then already Succeeded.
    method Launch(ops: Ops) returns (ok: bool)
      requires Valid() && JournalFits(j, id, origin, candidate)
      requires host.target.bytes == candidate && BackupsHold(host, origin) && ops.WorkerOps?
      modifies `j, `host, `history, `events, `answers, `faults
      ensures Valid() && j == old(j).(phase := j.phase)
      ensures host.target == old(host).target && BackupsHold(host, origin)
      ensures ok ==> j.phase == Succeeded && host.journal == Some(j)
      ensures (ok || j.phase == Succeeded) && j.service ==> host.running == Some(candidate)
      ensures !ok ==> j.phase in {Starting, Succeeded}
      ensures j.phase == Succeeded ==> LastConfirmed(j.version)
      ensures answers == old(answers) + if j.phase == Succeeded then [j.version] else []
      ensures faults >= old(faults) && (faults == old(faults) <==> ok)
    {
      ok := Save(Starting);
      if ok { ok := Start(ops); }
      if ok { ok := Ready(ops, j.version); }
      if ok { ok := Save(Succeeded); }
    }

    // Puts the kept binary and configuration back. It always reports an error: the
    // update has failed, even when everything was restored.
    method Rollback(ops: Ops)
      requires Recorded() && lock == None
      requires ops.ForegroundOps? ==> !j.service && j.pid == 0
      modifies this
      ensures lock == None
      ensures j == old(j).(phase := j.phase) && j.phase in {RolledBack, RecoveryFailed}
      // the target is only ever replaced by the kept binary, and never when it is foreign
      ensures host.target == old(host).target || (old(Replaceable()) && Some(host.target.bytes) == old(host).previous)
      ensures !old(Replaceable()) ==> j.phase == RecoveryFailed
      ensures j.phase == RolledBack && (j.service || j.pid != 0) ==> LastConfirmed(j.previousVersion)
      ensures old(Restorable(ops)) ==> Valid() && Truthful()
      ensures old(Restorable(ops)) && faults == old(faults)
              ==> j.phase == RolledBack && host.journal == Some(j)
                  && (j.service && ops.WorkerOps? ==> host.running == Some(origin.binary))
      ensures old(Restorable(ops)) && faults <= old(faults) + 1 ==> host.journal == Some(j)
      ensures AnsweredAs(j.previousVersion)
      ensures faults >= old(faults) && failedStops - old(failedStops) <= faults - old(faults)
    {
      var ok := Seize(ops);
      if ok { ok := Restore(ops); }
      if !ok { GiveUp(ops); }
      lock := None;
    }

    // A rollback that could not be finished is left to a recovery.
    method GiveUp(ops: Ops)
      modifies `j, `host, `history, `faults
      ensures j == old(j).(phase := RecoveryFailed) && host.target == old(host).target && faults >= old(faults)
      ensures events == old(events)
      ensures faults == old(faults) ==> host.journal == Some(j)
      ensures old(Restorable(ops)) ==> Valid() && Truthful()
    {
      var _ := Save(RecoveryFailed);
    }

    // Announces the rollback, stops whatever runs, and locks the executable that is there now.
    method Seize(ops: Ops) returns (ok: bool)
      requires Recorded()
      modifies `j, `host, `history, `lock, `faults, `failedStops
      ensures Recorded() && j == old(j).(phase := RollingBack)
      ensures host.target == old(host).target && host.previous == old(host).previous
      ensures ok ==> host.journal == Some(j) && lock == Some(host.target.inode) && (ops.WorkerOps? ==> host.running == None)
      ensures old(Restorable(ops)) ==> Restorable(ops)
      ensures old(Restorable(ops)) && ok ==> host.running != Some(candidate)
      ensures faults >= old(faults) && (faults == old(faults) ==> ok)
      ensures failedStops - old(failedStops) <= faults - old(faults)
    {
      ok := Save(RollingBack);
      if ok { ok := Stop(ops); }
      if ok { ok := LockExecutable(); }
    }

    // Where a rollback may begin.
    ghost predicate Restorable(ops: Ops)
      reads this
    {
      && Valid() && JournalFits(j, id, origin, candidate)
      && (ops.ForegroundOps? ==> host.running != Some(candidate))
      && Fits(RollingBack, host, origin, candidate)
    }

    predicate Replaceable()
      reads this
    {
      j.previousDigest.Some? ==>
        host.previous == j.previousDigest && host.target.bytes in {j.digest, j.previousDigest.value}
    }

    // A rollback refuses to copy a changed backup, and to overwrite a foreign target.
    method CheckPrevious() returns (ok: bool)
      modifies `faults
      ensures ok ==> Replaceable()
      ensures faults >= old(faults) && (faults == old(faults) ==> ok == Replaceable())
    {
      ok := true;
      if j.previousDigest.Some? {
        ok := Attempt();
        if !ok || host.previous != j.previousDigest { return false; }
        ok := Attempt();
        if !ok || host.target.bytes !in {j.digest, j.previousDigest.value} { return false; }
      }
    }

    // The part of a rollback done under the executable lock.
    method Restore(ops: Ops) returns (ok: bool)
      requires Recorded() && lock == Some(host.target.inode)
      requires if ops.ForegroundOps? then !j.service && j.pid == 0 else host.running == None
      requires j.phase == RollingBack && host.journal == Some(j)
      modifies `j, `host, `history, `events, `answers, `faults
      ensures ok ==> j.phase == RolledBack && host.journal == Some(j)
      ensures ok && (j.service || j.pid != 0) ==> LastConfirmed(j.previousVersion)
      ensures j == old(j).(phase := j.phase) && j.phase in {RollingBack, RolledBack}
      ensures host.target == old(host).target || (old(Replaceable()) && Some(host.target.bytes) == old(host).previous)
      ensures ok ==> old(Replaceable())
      ensures AnsweredAs(j.previousVersion)
      ensures old(Restorable(ops)) && old(host).running != Some(candidate)
              ==> Restorable(ops) && (ok ==> Truthful()) && (faults == old(faults) ==> ok)
                  && (ok && ops.WorkerOps? && j.service ==> host.running == Some(origin.binary))
      ensures faults >= old(faults)
    {
      ok := CheckPrevious();
      if !ok { return; }
      ok := RestoreFiles();
      if !ok { return; }
      ok := Restart(ops);
    }

    method RestoreFiles() returns (ok: bool)
      requires Recorded() && lock == Some(host.target.inode)
      modifies `host, `history, `events, `faults
      ensures host == old(host).(target := host.target, config := host.config)
      ensures host.target == old(host).target || Some(host.target.bytes) == old(host).previous
      ensures Recorded()
      ensures old(Valid()) && old(Fits(RollingBack, host, origin, candidate))
              && old(host).journal.Some? && old(host).journal.value.phase == RollingBack
              && JournalFits(old(host).journal.value, id, origin, candidate)
              ==> Valid() && (faults == old(faults) ==> ok)
                  && host.target.bytes in {origin.binary, candidate}
                  && (ok ==> host.target.bytes == origin.binary && host.config == origin.config)
      ensures faults >= old(faults)
    {
      ok := RestoreTarget();
      if ok { ok := RestoreConfig(); }
    }

    // Restarts the previous version where there is one to restart, and records the end.
    method Restart(ops: Ops) returns (ok: bool)
      requires Recorded()
      requires ops.ForegroundOps? ==> !j.service && j.pid == 0
      requires j.phase == RollingBack && host.journal == Some(j)
      modifies `j, `host, `history, `events, `answers, `faults
      ensures j == old(j).(phase := j.phase) && j.phase in {RollingBack, RolledBack}
      ensures ok ==> j.phase == RolledBack && host.journal == Some(j)
      ensures ok && (j.service || j.pid != 0) ==> LastConfirmed(j.previousVersion)
      ensures host.target == old(host).target
      ensures AnsweredAs(j.previousVersion)
      ensures old(Restored()) && old(host).running != Some(candidate)
              ==> Restored() && host.running != Some(candidate)
                  && (ok && ops.WorkerOps? && j.service ==> host.running == Some(origin.binary))
      ensures faults >= old(faults) && (faults == old(faults) ==> ok)
    {
      if j.service || j.pid != 0 {
        ok := Start(ops);
        if !ok { return; }
        ok := Ready(ops, j.previousVersion);
        if !ok { return; }
      }
      ok := Save(RolledBack);
    }

    // Both files are back.
    ghost predicate Restored()
      reads this
    {
      && Valid() && JournalFits(j, id, origin, candidate) && BackupsHold(host, origin)
      && host.target.bytes == origin.binary && host.config == origin.config
    }

    // The dispatch of an update: journal it, then submit the worker, or run it in the
    // foreground when no service is registered. A running manual instance is refused.
    method Install() returns (ok: bool)
      requires Valid() && Truthful() && lock == None && j.phase == Prepared
      requires host.journal.None? || host.journal.value.id != id
      modifies this
      ensures Valid() && lock == None && j.id == id
      ensures !old(j).service && old(j).pid != 0 ==> !ok && host == old(host).(staged := None)
      ensures ok && old(j).service ==> host.journal == Some(old(j)) && host.target == old(host).target && events == old(events) + [Submitted]
      ensures ok && !old(j).service ==> host.journal == Some(j) && j.phase == Installed && host.target.bytes == candidate
      ensures !ok ==> host.staged == None
      ensures faults == old(faults) ==> (ok <==> old(j).service || (old(j).pid == 0 && old(FilesMatch())))
    {
      ok := false;
      if j.service || j.pid == 0 {
        ok := Save(Prepared);
        if ok {
          if j.service {
            ok := Dispatch();
          } else {
            ok := RunTransaction(ForegroundOps);
          }
        }
      }
      if !ok {
        Write(host.(staged := None));  // the staged file is removed unless the worker owns it
      }
    }

    method Dispatch() returns (ok: bool)
      requires Valid() && Truthful() && j.phase == Prepared && host.journal == Some(j)
      modifies `j, `host, `history, `events, `faults
      ensures Valid() && Truthful() && j == old(j).(phase := j.phase)
      ensures events == old(events) + if ok then [Submitted] else []
      ensures host == old(host).(journal := host.journal)
      ensures ok ==> host == old(host) && j == old(j)
      ensures !ok ==> j.phase == Failed && (faults <= old(faults) + 1 ==> host.journal == Some(j))
      ensures faults >= old(faults) && (faults == old(faults) <==> ok)
    {
      ok := Attempt();  // copy the running program as the worker
      if ok { ok := Attempt(); }  // submit the job
      if !ok {
        var _ := Save(Failed);
      } else {
        events := events + [Submitted];
        Write(host);
      }
    }

    // One run of the worker, from whatever the disk says. It refuses unless the journal is
    // active; an error leaves the in-memory journal on disk, Prepared turned into Failed.
    method Worker(recoverOnly: bool) returns (ok: bool)
      requires Valid() && lock == None
      modifies this
      ensures Valid() && lock == None
      ensures old(Pending()).None? ==> !ok && host == old(host) && events == old(events)
      ensures old(Pending()).Some? && faults == old(faults) && (recoverOnly || old(Pending()).value.service)
              ==> host.journal.Some? && Finished(old(host), host, recoverOnly)
      ensures old(Fresh(recoverOnly)) && faults <= old(faults) + 1 && failedStops == old(failedStops) ==> Serving(old(host).running)
      ensures ok ==> host.journal == Some(j) && j.phase in {Succeeded, Failed}
      ensures old(Pending()).Some? && !recoverOnly && !old(Pending()).value.service ==>
                !ok && host == old(host).(journal := host.journal) && events == old(events)
                && (faults == old(faults) && old(Pending()).value.phase == Prepared ==> host.journal == Some(old(Pending()).value.(phase := Failed)))
      ensures faults >= old(faults)
    {
      if host.journal.None? || !Active(host.journal.value.phase) { return false; }
      j := host.journal.value;
      ok := Supervise(recoverOnly);
      if !ok {
        if j.phase == Prepared { j := j.(phase := Failed); }
        var _ := WriteJournal();
      }
    }

    // The first run of a service's update.
    ghost predicate Fresh(recoverOnly: bool)
      reads this
    {
      !recoverOnly && host.journal.Some? && host.journal.value.phase == Prepared && host.journal.value.service
    }

    // The service runs: as before, or the original again, or the candidate if it succeeded.
    ghost predicate Serving(before: Option<Bytes>)
      reads this
    {
      if j.phase == Succeeded then host.running == Some(candidate)
      else host.running == before || host.running == Some(origin.binary)
    }

    // The update waiting for a worker.
    function Pending(): Option<Journal>
      reads this
    {
      if host.journal.Some? && Active(host.journal.value.phase) then host.journal else None
    }

    // Where a worker that meets no fault leaves an update it found at `before`.
    ghost predicate Finished(before: Host, after: Host, recoverOnly: bool)
      requires before.journal.Some? && after.journal.Some?
    {
      var first := before.journal.value.phase;
      var last := after.journal.value.phase;
      if first == Prepared && !recoverOnly && before.staged.Some? && before.staged.value.bytes == candidate then
        last == Succeeded && after.target.bytes == candidate && after.running == Some(candidate)
      else if first in {Prepared, Stopping} then
        last == Failed && after.target.bytes == origin.binary && after.config == origin.config
        && (if first == Prepared && !recoverOnly then after.running == before.running
            else before.journal.value.service ==> after.running == Some(origin.binary))
      else
        last == RolledBack && after.target.bytes == origin.binary && after.config == origin.config
        && (before.journal.value.service ==> after.running == Some(origin.binary))
    }

    method Supervise(recoverOnly: bool) returns (ok: bool)
      requires Valid() && Truthful() && lock == None && host.journal == Some(j) && Active(j.phase)
      modifies this
      ensures Valid() && Truthful() && lock == None && j.id == id
      ensures j == old(j).(phase := j.phase)
      ensures faults == old(faults) && (recoverOnly || old(j).service)
              ==> if j.phase == Prepared then
                    !ok && old(j).phase == Prepared && !recoverOnly && host == old(host) && !old(FilesMatch())
                  else
                    host.journal == Some(j) && Finished(old(host), host, recoverOnly)
      ensures old(Fresh(recoverOnly)) && faults <= old(faults) + 1 && failedStops == old(failedStops) ==> Serving(old(host).running)
      ensures ok ==> host.journal == Some(j) && j.phase in {Succeeded, Failed}
      ensures !recoverOnly && !j.service ==> !ok && host == old(host) && j == old(j) && events == old(events) && faults == old(faults)
      ensures faults >= old(faults)
    {
      if j.service {
        ok := Attempt();  // the registered service is still this program, with the same definition
        if !ok { return; }
      } else if !recoverOnly {
        return false;
      }
      ok := Attempt();  // lock the installation directory
      if !ok { return; }
      if recoverOnly || j.phase != Prepared {
        ok := Recover();
        return;
      }
      ok := RunTransaction(WorkerOps);
      if !ok && !Active(j.phase) {
        var _ := WriteJournal();
      }
    }

    method Recover() returns (ok: bool)
      requires Valid() && Truthful() && lock == None && host.journal == Some(j) && Active(j.phase)
      modifies this
      ensures Valid() && Truthful() && lock == None && j == old(j).(phase := j.phase)
      ensures faults == old(faults) ==> host.journal == Some(j) && Finished(old(host), host, true)
      ensures ok ==> host.journal == Some(j) && j.phase == Failed
      ensures faults >= old(faults)
    {
      if j.phase in {Prepared, Stopping} {
        ok := Cancel();
      } else {
        Rollback(WorkerOps);
        ok := false;
      }
    }

    // The replacement has not begun: cancel, and let the original service resume.
    method Cancel() returns (ok: bool)
      requires Valid() && Truthful() && host.journal == Some(j) && j.phase in {Prepared, Stopping}
      modifies `j, `host, `history, `events, `faults, `failedStops
      ensures Valid() && Truthful() && j == old(j).(phase := j.phase)
      ensures host.target == old(host).target
      ensures faults == old(faults) ==> j.phase == Failed && host.journal == Some(j)
                                        && (j.service ==> host.running == Some(origin.binary))
      ensures ok ==> host.journal == Some(j) && j.phase == Failed
      ensures faults >= old(faults)
    {
      ok := Stop(WorkerOps);
      if !ok { return; }
      ok := Save(Failed);
      if !ok { return; }
      ok := Start(WorkerOps);
    }

    // The whole life of an update: it is dispatched, then the updater crashes at any point
    // of the past, and a worker runs, any number of times. A crash between two runs and a
    // crash inside one are the same thing: the next run starts from any recorded host.
    method Survive(runs: seq<bool>)
      requires Valid() && Truthful() && lock == None && j.phase == Prepared
      requires host.journal.None? || host.journal.value.id != id
      modifies this
      ensures Valid()
    {
      var _ := Install();
      for i := 0 to |runs|
        invariant Valid()
      {
        Crash();
        var _ := Worker(runs[i]);
      }
    }

    // Only a recorded host is left; a serving candidate may have rewritten its configuration.
    method Crash()
      requires Valid()
      modifies `host, `j, `lock, `history
      ensures Valid() && lock == None
      ensures exists h :: h in old(history) && host == h.(config := host.config)
    {
      var k: nat :| k < |history|;
      var survivor := history[k];
      var config := survivor.config;
      if survivor.running.Some? && survivor.journal.Some? && survivor.running.value == survivor.journal.value.digest
         && Active(survivor.journal.value.phase) {
        config := *;
      }
      lock := None;
      Write(survivor.(config := config));
      j := *;
    }
  }
}
