/** The application: every configuration change goes through the runtime and the disk, and is
    undone in the one when the other refuses it.
    */
module App {
  import opened Common
  import opened Text
  import PolicyPaths
  import M = Manager
  import opened Configuration
  import P = Publication

  // Failed: the change was refused and undone. Broken: undoing it failed too.
  datatype Outcome = Done | Failed | Broken

  // A snapshot of the protocol, as the manager publishes it.
  ghost predicate Shows(a: P.Snapshot, b: M.Snapshot) {
    b == if a.Built? then M.Project(a.contents, a.setup.definitions, a.setup.settings) else M.Empty
  }

  class App {
    const rules: Rules
    const manager: M.Manager
    ghost const run: P.Recorder  // the run of the publication protocol that the application takes
    var disk: Config
    var config: Config
    var masterKey: string
    ghost var faults: nat  // saves that have failed

    constructor (rules: Rules, manager: M.Manager, stored: Config)
      requires manager.Valid() && ValidConfig(rules, stored) && Sound(rules, manager.rules)
      requires manager.options == M.Options(RuntimeSettings(rules, stored.settings), Definitions(stored))
      requires manager.snapshot == M.Empty || manager.Current()
      ensures Valid() && Settled() && this.rules == rules && this.manager == manager && disk == stored && fresh(run)
    {
      this.rules, this.manager := rules, manager;
      disk, config, masterKey, faults := stored, stored, rules.masterKey(stored.settings.projectionKey), 0;
      var c := P.Config(P.Setup(Definitions(stored), RuntimeSettings(rules, stored.settings)), stored);
      ghost var snapshot :=
        if manager.snapshot == M.Empty then P.Empty else P.Built(c.setup, M.Contents(manager.config.value.providers));
      run := new P.Recorder(P.System(map[], P.Idle, c, c, c.setup, manager.config.Some?, manager.listener.Some?, snapshot));
    }

    function Of(c: Config): P.Config {
      P.Config(P.Setup(Definitions(c), RuntimeSettings(rules, c.settings)), c)
    }

    // The protocol is about what is to be seen of a manager.
    ghost predicate CoupledTo(scene: M.Scene)
      reads run
    {
      && run.system.runtime == P.Setup(scene.options.providers, scene.options.settings)
      && run.system.cored == scene.config.Some? && run.system.running == scene.listener.Some?
      && Shows(run.system.snapshot, scene.snapshot)
    }

    // The state of the protocol is that of disk, memory and runtime; readers may be anywhere.
    ghost predicate Coupled()
      reads this, manager, manager.process, run
    {
      run.system.disk == Of(disk) && run.system.config == Of(config) && CoupledTo(manager.Sight())
    }

    // Also in the middle of a change.
    ghost predicate Working()
      reads this, manager, manager.process, run
    {
      && manager.Valid() && Sound(rules, manager.rules) && ValidConfig(rules, config)
      && masterKey == rules.masterKey(config.settings.projectionKey)
      && run.Valid() && Coupled()
    }

    ghost predicate Valid()
      reads this, manager, manager.process, run
    {
      Working() && run.system.writer.Idle?
    }

    // The runtime is set up with the configuration's settings.
    ghost predicate Settled()
      reads this, manager
    {
      manager.options.settings == RuntimeSettings(rules, config.settings)
    }

    // Memory holds what the disk holds, a running data plane serves its providers, and the
    // settings agree exactly when the protocol has not lost them.
    lemma ValidAgrees()
      requires Valid()
      ensures disk == config && (manager.listener.Some? ==> manager.options.providers == Definitions(config))
      ensures Settled() <==> !P.Lost(run.system)
    {
    }

    // Whoever is reading gets the stored configuration's providers, and its settings exactly
    // when the runtime has them; or an empty snapshot.
    lemma ReadersAgree(reader: nat)
      requires Valid() && reader in run.system.readers && run.system.readers[reader].Formatted?
      ensures var r := run.system.readers[reader];
              && r.config == Of(disk) && disk == config
              && (r.snapshot.Built? ==>
                    && r.snapshot.setup.definitions == Definitions(disk)
                    && (r.snapshot.setup == r.config.setup <==> Settled()))
    {
      assert P.Agrees(run.system, run.system.readers[reader]);
      ValidAgrees();
    }

    // Disk, memory and runtime agree: what is published is the projection of the accepted
    // states under exactly the stored configuration.
    lemma RunningAgrees()
      requires Valid() && Settled() && manager.listener.Some?
      ensures manager.config.Some?
      ensures var states := M.Contents(manager.config.value.providers);
              && manager.snapshot == M.Project(states, Definitions(disk), RuntimeSettings(rules, disk.settings))
              && manager.process.table == M.Merge(states, Definitions(disk), disk.settings.dns)
              && manager.listener == Some(M.Address(disk.settings.bind, disk.settings.port))
    {
      ValidAgrees();
    }

    // The data plane publishes exactly the enabled providers on disk, in the stored order, each
    // with its accepted proxies, and its resolver holds exactly their accepted states.
    lemma RunningServesTheEnabled() returns (at: seq<nat>)
      requires Valid() && manager.listener.Some?
      ensures manager.snapshot.Published? && |manager.snapshot.views| == |at|
      ensures forall m, n :: 0 <= m < n < |at| ==> at[m] < at[n]
      ensures forall n :: 0 <= n < |at| ==>
                && at[n] < |disk.providers| && disk.providers[at[n]].enabled
                && Serves(disk.providers[at[n]], manager.snapshot.views[n])
      ensures forall i :: 0 <= i < |disk.providers| && disk.providers[i].enabled ==> i in at
      ensures manager.process.table.Table?
      ensures forall id :: id in manager.process.table.states <==> exists p :: p in disk.providers && p.enabled && p.id == id
      ensures forall id :: id in manager.process.table.states ==> manager.Accepts(id, manager.process.table.states[id])
    {
      ValidAgrees();
      manager.PublishedIsAccepted();
      at := DefinitionsAreEnabled(disk);
      forall n | 0 <= n < |at| ensures Serves(disk.providers[at[n]], manager.snapshot.views[n]) {
        assert manager.snapshot.views[n].definition == manager.options.providers[n];
      }
      forall id ensures id in manager.process.table.states <==> exists p :: p in disk.providers && p.enabled && p.id == id {
        EnabledId(disk, id);
      }
    }

    // A view of a provider: what is stored of it, and the proxies that have been accepted.
    ghost predicate Serves(p: PolicyPaths.Provider, view: M.View)
      reads manager
    {
      && view.definition == M.Definition(p.id, p.name, p.content)
      && exists state :: manager.Accepts(p.id, state) && view.proxies == state.proxies
    }

    // And, while the settings are not lost, under the settings on disk.
    lemma RunningServesTheSettings()
      requires Valid() && Settled() && manager.listener.Some?
      ensures manager.listener == Some(M.Address(disk.settings.bind, disk.settings.port))
      ensures manager.snapshot.Published? && manager.snapshot.advertise == disk.settings.host && manager.snapshot.port == disk.settings.port
      ensures manager.snapshot.prefix == disk.settings.prefix
              && manager.snapshot.masterKey == rules.masterKey(disk.settings.projectionKey)
      ensures manager.process.table.Table? && manager.process.table.dns == disk.settings.dns
    {
      ValidAgrees();
    }

    method ValidateConfig(c: Config) returns (ok: bool)
      ensures ok == ValidConfig(rules, c)
    {
      if !rules.wellFormed(c) { return false; }
      var ids: set<string>, names: set<string> := {}, {};
      for i := 0 to |c.providers|
        invariant Distinct(PolicyPaths.Ids(c.providers[..i])) && NamesOk(rules, c.providers[..i])
        invariant forall id :: id in ids <==> id in PolicyPaths.Ids(c.providers[..i])
        invariant forall name :: name in names <==> name in FoldedNames(rules, c.providers[..i])
      {
        var p := c.providers[i];
        OneMoreProvider(rules, c.providers, i);
        if p.id != rules.providerId(p.name) || p.id in ids || rules.fold(p.name) in names { return false; }
        ids, names := ids + {p.id}, names + {rules.fold(p.name)};
      }
      assert c.providers[..|c.providers|] == c.providers;
      for i := 0 to |c.paths|
        invariant forall k :: 0 <= k < i ==> PolicyPaths.SelectionOk(c.paths[k], PolicyPaths.Ids(c.providers))
      {
        var selected := PolicyPaths.ValidateSelection(c.paths[i], ids, PolicyPaths.Ids(c.providers));
        if !selected { return false; }
      }
      ok := true;
    }

    // ---- What happens beside the application ----

    // Without a fault the data plane stays up, and the process stays available.
    twostate predicate Undisturbed()
      reads manager, manager.process
    {
      && manager.faults >= old(manager.faults)
      && (manager.faults == old(manager.faults) ==> manager.listener == old(manager.listener))
      && (old(manager.Available()) ==> manager.Available())
    }

    // Nothing has failed, and the process could be had.
    twostate predicate Smooth()
      reads this, manager, manager.process
    {
      faults == old(faults) && manager.faults == old(manager.faults) && old(manager.Available())
    }

    twostate predicate Onward()
      reads this, manager
    {
      faults >= old(faults) && manager.faults >= old(manager.faults)
    }

    // One refresh, poll or late failure.
    method Disturb()
      requires manager.Valid()
      modifies manager, manager.process
      ensures manager.Valid() && manager.options == old(manager.options)
      ensures manager.config.None? ==> (manager.listener == None && manager.snapshot == M.Empty)
                                       || (old(manager.config).None? && manager.Untouched())
      ensures manager.config.Some? ==> old(manager.config).Some? && manager.listener == old(manager.listener)
                                       && (manager.snapshot == old(manager.snapshot) || manager.Current())
      ensures Undisturbed()
    {
      var refresh: bool, late: bool, id: string, failed: nat := *, *, *, *;
      if refresh {
        var fetch: M.Fetch := *;
        var _ := manager.RefreshProvider(id, fetch);
      } else if late && failed in manager.queued {
        manager.FailClosedQueued(failed);
      } else {
        var due: map<string, M.Fetch>, changed: set<string> := *, *;
        manager.PollProviders(due, changed);
      }
    }

    // Requests for policy paths, at any time.
    ghost method Serve()
      requires Working()
      modifies run
      ensures Working() && run.system.writer == old(run.system.writer) && P.Begins(run.trace) == old(P.Begins(run.trace))
    {
      run.Wander();
    }

    // A disturbance is at most one step of the protocol.
    method Interfere()
      requires Working()
      modifies manager, manager.process, run
      ensures Working() && manager.options == old(manager.options)
      ensures manager.listener == old(manager.listener) || manager.listener == None
      ensures Undisturbed()
      ensures run.system.writer == old(run.system.writer) && P.Begins(run.trace) == old(P.Begins(run.trace))
    {
      ghost var before := manager.snapshot;
      Disturb();
      if manager.config.None? && run.system.cored {
        run.Take(P.FailClosed);
      } else if manager.snapshot != before {
        run.Take(P.Refresh(M.Contents(manager.config.value.providers)));
      }
    }

    // Whatever else reaches manager and readers between two calls.
    method Background()
      requires Working()
      modifies manager, manager.process, run
      ensures Working() && manager.options == old(manager.options)
      ensures manager.listener == old(manager.listener) || manager.listener == None
      ensures Undisturbed()
      ensures run.system.writer == old(run.system.writer) && P.Begins(run.trace) == old(P.Begins(run.trace))
    {
      var steps: int := *;
      while 0 < steps
        invariant Working() && manager.options == old(manager.options)
        invariant (manager.listener == old(manager.listener) || manager.listener == None) && Undisturbed()
        invariant run.system.writer == old(run.system.writer) && P.Begins(run.trace) == old(P.Begins(run.trace))
      {
        steps := steps - 1;
        Serve();
        Interfere();
      }
    }

    // ---- Saving ----

    // An error leaves the file as it was: the rename is the last step that can fail.
    method Save(c: Config) returns (ok: bool)
      requires Working() && run.system.writer.Live? && run.system.writer.change.target == Of(c)
      modifies `disk, `faults, run
      ensures Working() && disk == if ok then c else old(disk)
      ensures faults == old(faults) + if ok then 0 else 1
      ensures P.Begins(run.trace) == old(P.Begins(run.trace)) && run.system.runtime == old(run.system.runtime)
      ensures var w := old(run.system.writer);
              run.system.writer == if ok then P.Saved(w.change, w.wasRunning) else P.Undoing(w.change, w.wasRunning)
    {
      ok := *;
      if ok {
        disk := c;
        run.Take(P.Persist);
      } else {
        faults := faults + 1;
        run.Take(P.PersistFails);
      }
    }

    // What else goes on while a live change waits to be saved.
    method SaveLive(c: Config) returns (ok: bool)
      requires Working() && run.system.writer.Live? && run.system.writer.change.target == Of(c)
      modifies `disk, `faults, manager, manager.process, run
      ensures Working() && disk == (if ok then c else old(disk)) && manager.options == old(manager.options)
      ensures faults == old(faults) + (if ok then 0 else 1) && Undisturbed()
      ensures P.Begins(run.trace) == old(P.Begins(run.trace))
      ensures var w := old(run.system.writer);
              run.system.writer == if ok then P.Saved(w.change, w.wasRunning) else P.Undoing(w.change, w.wasRunning)
    {
      Background();
      ok := Save(c);
    }

    method Adopt(c: Config)
      requires Working() && run.system.writer.Saved? && run.system.writer.change.target == Of(c) && ValidConfig(rules, c)
      modifies `config, `masterKey, run
      ensures Valid() && config == c && P.Begins(run.trace) == old(P.Begins(run.trace))
    {
      config, masterKey := c, rules.masterKey(c.settings.projectionKey);
      run.Take(P.Adopt);
    }

    // ---- Changes of providers ----

    ghost predicate Prepares(change: P.Change, wasRunning: bool)
      reads this, manager, manager.process, run
    {
      Working() && run.system.writer == P.Preparing(change, wasRunning) && (!wasRunning ==> manager.listener.None?)
    }

    // An operation on the manager before anything is saved: the change is live, or refused
    // with nothing lost.
    twostate predicate Enacted(ok: bool, change: P.Change, wasRunning: bool)
      reads this, manager, manager.process, run
    {
      && Working()
      && run.system.writer == (if ok then P.Live(change, wasRunning) else P.Idle)
      && P.Begins(run.trace) == old(P.Begins(run.trace))
      && (!ok && P.Lost(run.system) ==> old(P.Lost(run.system)))
      && manager.faults >= old(manager.faults)
      && (manager.faults == old(manager.faults) && old(manager.Available()) && (wasRunning ==> old(manager.listener).Some?) ==>
            ok && (wasRunning ==> manager.listener.Some?))
    }

    // The publication lock is taken while the protocol shows what there is to see.
    ghost method LockPublication(scene: M.Scene)
      requires run.Valid() && run.system.writer.Preparing? && CoupledTo(scene)
      modifies run
      ensures run.Valid() && CoupledTo(scene) && P.Begins(run.trace) == old(P.Begins(run.trace))
      ensures var w := old(run.system.writer);
              run.system == old(run.system).(readers := map[], writer := P.Held(w.change, w.wasRunning))
    {
      run.Hold();
    }

    // The manager runs with what the change asks for, which the protocol does not know yet.
    ghost predicate Enactable(change: P.Change)
      reads this, manager, manager.process, run
    {
      && manager.Valid() && Sound(rules, manager.rules) && ValidConfig(rules, config)
      && masterKey == rules.masterKey(config.settings.projectionKey)
      && run.Valid() && run.system.writer == P.Held(change, true) && !change.Paths? && run.system.running
      && run.system.disk == Of(disk) && run.system.config == Of(config)
      && P.Enacted(run.system.runtime, change) == P.Setup(manager.options.providers, manager.options.settings)
      && manager.listener.Some? && manager.Current()
    }

    ghost method GoLive(change: P.Change)
      requires Enactable(change)
      modifies run
      ensures Working() && run.system.writer == P.Live(change, true) && P.Begins(run.trace) == old(P.Begins(run.trace))
    {
      run.Take(P.Enact(M.Contents(manager.config.value.providers)));
    }

    // The change is refused, with or without the lock, before anything has changed.
    ghost method TurnDown()
      requires Working() && (run.system.writer.Preparing? || run.system.writer.Held?)
      modifies run
      ensures Valid() && P.Begins(run.trace) == old(P.Begins(run.trace)) && (P.Lost(run.system) ==> old(P.Lost(run.system)))
    {
      run.Take(if run.system.writer.Held? then P.Abandon else P.Refuse);
    }

    // The runtime failed its check and was closed, which the protocol does not know yet.
    ghost method CloseDown()
      requires manager.Valid() && manager.Closed() && Sound(rules, manager.rules) && ValidConfig(rules, config)
      requires masterKey == rules.masterKey(config.settings.projectionKey)
      requires run.Valid() && run.system.writer.Held? && run.system.writer.change.Providers? && run.system.running
      requires run.system.disk == Of(disk) && run.system.config == Of(config)
      requires run.system.runtime == P.Setup(manager.options.providers, manager.options.settings)
      modifies run
      ensures Valid() && P.Begins(run.trace) == old(P.Begins(run.trace)) && (P.Lost(run.system) ==> old(P.Lost(run.system)))
    {
      run.Take(P.CloseHeld);
    }

    method EnactProviders(candidate: Config, wasRunning: bool) returns (ok: bool)
      requires ValidConfig(rules, candidate) && Prepares(P.Providers(Of(candidate)), wasRunning)
      modifies manager, manager.process, run
      ensures Enacted(ok, P.Providers(Of(candidate)), wasRunning)
      ensures ok ==> manager.options.settings == old(manager.options.settings)
    {
      if wasRunning {
        ok := ApplyRunning(candidate);
      } else {
        ok := StartStopped(candidate);
      }
    }

    method ApplyRunning(candidate: Config) returns (ok: bool)
      requires Prepares(P.Providers(Of(candidate)), true)
      modifies manager, manager.process, run
      ensures Enacted(ok, P.Providers(Of(candidate)), true)
      ensures ok ==> manager.options.settings == old(manager.options.settings)
    {
      var guard := new M.Guard();
      ghost var wasUp := manager.listener.Some?;
      ok := manager.ApplyProviders(Definitions(candidate), guard);
      if !guard.locked {
        TurnDown();
        return;
      }
      LockPublication(guard.scene.value);
      if ok {
        GoLive(P.Providers(Of(candidate)));
      } else if wasUp && manager.listener.None? {
        CloseDown();
      } else {
        TurnDown();
      }
    }

    method StartStopped(candidate: Config) returns (ok: bool)
      requires Prepares(P.Providers(Of(candidate)), false)
      modifies manager, manager.process, run
      ensures Enacted(ok, P.Providers(Of(candidate)), false)
      ensures ok ==> manager.options.settings == old(manager.options.settings)
    {
      LockPublication(manager.Sight());
      ok := manager.StartWithProviders(Definitions(candidate));
      if !ok { AfterRefusal(config, masterKey); }
      run.Take(P.Start(ok, if ok then M.Contents(manager.config.value.providers) else map[]));
    }

    // ---- Restoring ----

    // restoreStoppedSettings
    method RestoreStopped(previous: Config, key: string) returns (ok: bool)
      requires manager.Valid() && Sound(rules, manager.rules) && ValidConfig(rules, previous)
      requires key == rules.masterKey(previous.settings.projectionKey)
      modifies manager, manager.process
      ensures manager.Valid() && manager.Closed()
      ensures old(manager.listener).None? ==> ok
      ensures manager.faults >= old(manager.faults) && (manager.faults == old(manager.faults) ==> ok)
      ensures manager.options == if ok then M.Options(RuntimeSettings(rules, previous.settings), Definitions(previous))
                                 else old(manager.options)
    {
      ok := manager.Stop();
      if !ok { return; }
      var s := previous.settings;
      ok := manager.ConfigureWhenStopped(M.Settings(s.bind, s.host, s.port, s.prefix, key, s.dns), Definitions(previous));
    }

    // A refused start of a stopped runtime: it can always be configured as before.
    method AfterRefusal(previous: Config, key: string)
      requires manager.Valid() && Sound(rules, manager.rules) && ValidConfig(rules, previous)
      requires key == rules.masterKey(previous.settings.projectionKey) && manager.listener.None?
      modifies manager, manager.process
      ensures manager.Valid() && manager.Closed() && manager.faults >= old(manager.faults)
      ensures manager.options == M.Options(RuntimeSettings(rules, previous.settings), Definitions(previous))
    {
      Disturb();
      var _ := RestoreStopped(previous, key);
    }

    // rollbackAfterPersistenceFailure, when the rollback has failed.
    method StopAfterRollback() returns (outcome: Outcome)
      requires Working() && run.system.writer.Undoing? && !run.system.writer.change.Paths?
      modifies manager, manager.process, run
      ensures Undone(outcome) && outcome == Broken
    {
      var _ := manager.Stop();
      run.Take(P.UndoFails);
      outcome := Broken;
    }

    // A change that was rejected by the disk has been taken back, or its undoing has failed:
    // then the data plane is stopped, set up as it was when it was rejected.
    twostate predicate Undone(outcome: Outcome)
      reads this, manager, manager.process, run
    {
      && Valid() && outcome != Done && P.Begins(run.trace) == old(P.Begins(run.trace))
      && manager.faults >= old(manager.faults)
      && (outcome == Failed && P.Lost(run.system) ==> old(P.Lost(run.system)))
      && (outcome == Broken ==>
            manager.listener == None && manager.options.settings == old(manager.options.settings))
    }

    // Unless the manager meets a fault itself, a change it is running can be taken back.
    twostate predicate TakenBack(outcome: Outcome, wasRunning: bool)
      reads manager
    {
      manager.faults == old(manager.faults) && (wasRunning ==> old(manager.listener).Some?) ==> outcome != Broken
    }

    method UndoProviders(wasRunning: bool) returns (outcome: Outcome)
      requires Undoable(wasRunning) && run.system.writer.change.Providers?
      modifies manager, manager.process, run
      ensures Undone(outcome) && TakenBack(outcome, wasRunning)
    {
      Background();
      if !wasRunning {
        outcome := UndoStart();
        return;
      }
      var restored := manager.ApplyProviders(Definitions(config), null);
      if restored {
        outcome := TakeBack();
        return;
      }
      if manager.config.None? { run.Close(); }
      outcome := StopAfterRollback();
    }

    ghost predicate Undoable(wasRunning: bool)
      reads this, manager, manager.process, run
    {
      Working() && run.system.writer.Undoing? && run.system.writer.wasRunning == wasRunning && !run.system.writer.change.Paths?
    }

    // The manager runs with its options of before, which the protocol does not know yet.
    ghost predicate Restored()
      reads this, manager, manager.process, run
    {
      && manager.Valid() && Sound(rules, manager.rules) && ValidConfig(rules, config)
      && masterKey == rules.masterKey(config.settings.projectionKey)
      && run.Valid() && run.system.writer.Undoing? && run.system.writer.wasRunning && !run.system.writer.change.Paths?
      && run.system.running
      && run.system.disk == Of(disk) && run.system.config == Of(config)
      && P.Undone(run.system.runtime, run.system.config, run.system.writer.change)
         == P.Setup(manager.options.providers, manager.options.settings)
      && manager.listener.Some? && manager.Current()
    }

    method TakeBack() returns (outcome: Outcome)
      requires Restored()
      modifies run
      ensures Undone(outcome) && outcome == Failed
    {
      run.Take(P.Undo(M.Contents(manager.config.value.providers)));
      outcome := Failed;
    }

    // A data plane started for the change is stopped and set up as before.
    method UndoStart() returns (outcome: Outcome)
      requires Undoable(false)
      modifies manager, manager.process, run
      ensures Undone(outcome) && TakenBack(outcome, false)
    {
      var restored := RestoreStopped(config, masterKey);
      if restored {
        run.Take(P.Undo(map[]));
        return Failed;
      }
      run.Close();
      outcome := StopAfterRollback();
    }

    // ---- Committing ----

    // What every change comes to: one change is begun, and only success keeps it.
    twostate predicate Committed(outcome: Outcome, candidate: Config, change: P.Change)
      reads this, manager, manager.process, run
    {
      && Valid() && config == (if outcome == Done then candidate else old(config))
      && P.Begins(run.trace) == old(P.Begins(run.trace)) + [change]
      && (outcome == Broken ==> manager.listener == None)
      && Onward() && (Smooth() && ValidConfig(rules, candidate) ==> outcome == Done)
      && (manager.faults == old(manager.faults) && old(manager.Available()) ==> outcome != Broken)
    }

    // A change is begun and prepared; what else goes on may bring the data plane down.
    method Prepare(change: P.Change) returns (wasRunning: bool)
      requires Valid() && P.Fits(run.system.config, change)
      modifies manager, manager.process, run
      ensures Prepares(change, wasRunning) && manager.options == old(manager.options)
      ensures P.Begins(run.trace) == old(P.Begins(run.trace)) + [change]
      ensures P.Lost(run.system) <==> old(P.Lost(run.system))
      ensures Undisturbed() && (wasRunning <==> old(manager.listener).Some?)
    {
      wasRunning := manager.status == M.Running;
      run.Take(P.Begin(change));
      Background();
    }

    method CommitProviders(candidate: Config) returns (outcome: Outcome)
      requires Valid() && ValidConfig(rules, candidate) && candidate.settings == config.settings
      modifies this, manager, manager.process, run
      ensures Committed(outcome, candidate, P.Providers(Of(candidate)))
      ensures old(Settled()) ==> Settled()
      ensures outcome == Done ==> (Settled() <==> old(Settled()))
    {
      var wasRunning := Prepare(P.Providers(Of(candidate)));
      var enacted := EnactProviders(candidate, wasRunning);
      if !enacted { return Failed; }
      outcome := PersistProviders(candidate, wasRunning);
    }

    // A live change, to be persisted or undone.
    ghost predicate Persistable(candidate: Config, change: P.Change, wasRunning: bool)
      reads this, manager, manager.process, run
    {
      Working() && ValidConfig(rules, candidate) && change.target == Of(candidate) && run.system.writer == P.Live(change, wasRunning)
    }

    twostate predicate Persisted(outcome: Outcome, candidate: Config)
      reads this, manager, manager.process, run
    {
      && Valid() && config == (if outcome == Done then candidate else old(config))
      && P.Begins(run.trace) == old(P.Begins(run.trace))
      && (outcome == Failed && P.Lost(run.system) ==> old(P.Lost(run.system)))
      && (outcome == Broken ==> manager.listener == None)
      && (outcome != Failed ==> manager.options.settings == old(manager.options.settings))
      && Onward() && (faults == old(faults) ==> outcome == Done) && TakenBack(outcome, old(run.system.writer.Live? && run.system.writer.wasRunning))
    }

    method PersistProviders(candidate: Config, wasRunning: bool) returns (outcome: Outcome)
      requires Persistable(candidate, P.Providers(Of(candidate)), wasRunning)
      modifies this, manager, manager.process, run
      ensures Persisted(outcome, candidate)
    {
      var saved := SaveLive(candidate);
      if !saved {
        outcome := UndoProviders(wasRunning);
        return;
      }
      Adopt(candidate);
      outcome := Done;
    }

    // A change that is valid is begun, and made unless something fails; any other is refused.
    twostate predicate Attempted(outcome: Outcome, candidate: Config)
      reads this, manager, manager.process, run
    {
      && config == (if outcome == Done then candidate else old(config))
      && P.Begins(run.trace) == old(P.Begins(run.trace))
                                + (if ValidConfig(rules, candidate) then [P.Providers(Of(candidate))] else [])
      && (Smooth() ==> (outcome == Done <==> ValidConfig(rules, candidate)))
      && (!ValidConfig(rules, candidate) ==> outcome == Failed)
      && (manager.faults == old(manager.faults) && old(manager.Available()) ==> outcome != Broken)
    }

    // Adding, changing and deleting providers.
    method ApplyConfig(candidate: Config) returns (outcome: Outcome)
      requires Valid() && candidate.settings == config.settings
      modifies this, manager, manager.process, run
      ensures Valid() && (old(Settled()) ==> Settled())
      ensures Attempted(outcome, candidate)
      ensures outcome == Done ==> (Settled() <==> old(Settled()))
      ensures outcome == Broken ==> manager.listener == None
    {
      var ok := ValidateConfig(candidate);
      if !ok { return Failed; }
      outcome := CommitProviders(candidate);
    }

    method FindProvider(id: string) returns (k: nat)
      ensures k <= |config.providers| && forall i :: 0 <= i < k ==> config.providers[i].id != id
      ensures k < |config.providers| ==> config.providers[k].id == id
    {
      k := 0;
      while k < |config.providers| && config.providers[k].id != id
        invariant k <= |config.providers| && forall i :: 0 <= i < k ==> config.providers[i].id != id
      {
        k := k + 1;
      }
    }

    method DeleteProvider(id: string) returns (outcome: Outcome)
      requires Valid()
      modifies this, manager, manager.process, run
      ensures Valid() && (old(Settled()) ==> Settled())
      ensures || (Refused(outcome) && forall p :: p in old(config).providers ==> p.id != id)
              || exists k: nat :: k < |old(config).providers| && old(config).providers[k].id == id && Attempted(outcome, Deleted(old(config), k))
    {
      var k := FindProvider(id);
      if k == |config.providers| { return Failed; }
      outcome := ApplyConfig(Deleted(config, k));
    }

    // Without any effect.
    twostate predicate Refused(outcome: Outcome)
      reads this, manager, run
    {
      outcome == Failed && config == old(config) && disk == old(disk) && run.trace == old(run.trace) && manager.options == old(manager.options)
    }

    // What is not given is taken from the provider replaced, if it is of the same type.
    method UpdateProvider(id: string, p: PolicyPaths.Provider) returns (outcome: Outcome)
      requires Valid()
      modifies this, manager, manager.process, run
      ensures Valid() && (old(Settled()) ==> Settled())
      ensures || (Refused(outcome) && forall q :: q in old(config).providers ==> q.id != id)
              || exists k: nat ::
                   && k < |old(config).providers| && old(config).providers[k].id == id
                   && Attempted(outcome, Replaced(old(config), k, Inherited(rules, old(config).providers[k], p)))
    {
      var k := FindProvider(id);
      if k == |config.providers| { return Failed; }
      outcome := ApplyConfig(Replaced(config, k, Inherited(rules, config.providers[k], p)));
    }

    // Refused outright when the identifier, or the name up to case, is taken.
    method AddProvider(p: PolicyPaths.Provider) returns (outcome: Outcome)
      requires Valid()
      modifies this, manager, manager.process, run
      ensures Valid() && (old(Settled()) ==> Settled())
      ensures var added := Completed(rules, p);
              if exists q :: q in old(config).providers && (q.id == added.id || rules.fold(q.name) == rules.fold(added.name))
              then Refused(outcome)
              else Attempted(outcome, old(config).(providers := old(config).providers + [added]))
    {
      var added := Completed(rules, p);
      for i := 0 to |config.providers|
        invariant forall k :: 0 <= k < i ==> config.providers[k].id != added.id && rules.fold(config.providers[k].name) != rules.fold(added.name)
      {
        if config.providers[i].id == added.id || rules.fold(config.providers[i].name) == rules.fold(added.name) { return Failed; }
      }
      outcome := ApplyConfig(config.(providers := config.providers + [added]));
    }

    // ---- Reordering ----

    method EnactOrder(candidate: Config, wasRunning: bool) returns (ok: bool)
      requires ValidConfig(rules, candidate) && Prepares(P.Providers(Of(candidate)), wasRunning)
      requires Permutes(Definitions(candidate))
      modifies manager, manager.process, run
      ensures Enacted(ok, P.Providers(Of(candidate)), wasRunning)
      ensures ok ==> manager.options.settings == old(manager.options.settings)
    {
      if wasRunning {
        ok := ReorderRunning(candidate);
      } else {
        ok := StartStopped(candidate);
      }
    }

    ghost predicate Permutes(defs: seq<M.Definition>)
      reads manager
    {
      manager.listener.Some? ==> multiset(defs) == multiset(manager.options.providers)
    }

    // A permutation keeps the manager valid, and is only refused when there is no listener.
    method Reorder(defs: seq<M.Definition>, guard: M.Guard?) returns (ok: bool)
      requires manager.Valid() && Permutes(defs) && manager.Open(guard)
      modifies manager, guard
      ensures manager.Guarded(guard) && (ok && guard != null ==> guard.locked)
      ensures manager.Valid() && (M.OrderFree(manager.rules) ==> (ok <==> old(manager.listener).Some?))
      ensures ok ==> manager.listener.Some? && old(manager.listener).Some? && manager.config == old(manager.config)
                     && manager.options == old(manager.options).(providers := defs) && manager.Current()
      ensures !ok ==> manager.Untouched()
      ensures manager.faults >= old(manager.faults)
      ensures manager.faults == old(manager.faults) ==> (ok <==> old(manager.listener).Some?)
    {
      if manager.listener.Some? { manager.ReorderingIsPossible(defs); }
      ok := manager.ReorderProviders(defs, guard);
    }

    method ReorderRunning(candidate: Config) returns (ok: bool)
      requires Prepares(P.Providers(Of(candidate)), true) && Permutes(Definitions(candidate))
      modifies manager, run
      ensures Enacted(ok, P.Providers(Of(candidate)), true)
      ensures ok ==> manager.options.settings == old(manager.options.settings)
    {
      var guard := new M.Guard();
      ok := Reorder(Definitions(candidate), guard);
      if !guard.locked {
        TurnDown();
        return;
      }
      LockPublication(guard.scene.value);
      if ok { GoLive(P.Providers(Of(candidate))); } else { TurnDown(); }
    }

    // `live` tells whether the data plane was still up when a failed save had to be undone.
    method UndoOrder(wasRunning: bool) returns (outcome: Outcome, ghost live: bool)
      requires Undoable(wasRunning) && run.system.writer.change.Providers?
      requires multiset(run.system.writer.change.target.setup.definitions) == multiset(Definitions(config))
      modifies manager, manager.process, run
      ensures Undone(outcome) && TakenBack(outcome, wasRunning)
      ensures outcome == Broken && M.OrderFree(manager.rules) && wasRunning ==> !live
    {
      Background();
      live := manager.listener.Some?;
      if !wasRunning {
        outcome := UndoStart();
        return;
      }
      var restored := Reorder(Definitions(config), null);
      if restored {
        outcome := TakeBack();
        return;
      }
      outcome := StopAfterRollback();
    }

    method CommitOrder(candidate: Config) returns (outcome: Outcome, ghost live: bool)
      requires Valid() && ValidConfig(rules, candidate) && candidate == config.(providers := candidate.providers)
      requires multiset(Definitions(candidate)) == multiset(Definitions(config))
      modifies this, manager, manager.process, run
      ensures Committed(outcome, candidate, P.Providers(Of(candidate)))
      ensures old(Settled()) ==> Settled()
      ensures outcome == Broken && M.OrderFree(manager.rules) && old(manager.listener).Some? ==> !live
    {
      live := false;
      var wasRunning := Prepare(P.Providers(Of(candidate)));
      var enacted := EnactOrder(candidate, wasRunning);
      if !enacted { return Failed, live; }
      outcome, live := PersistOrder(candidate, wasRunning);
    }

    method PersistOrder(candidate: Config, wasRunning: bool) returns (outcome: Outcome, ghost live: bool)
      requires Persistable(candidate, P.Providers(Of(candidate)), wasRunning)
      requires multiset(Definitions(candidate)) == multiset(Definitions(config))
      modifies this, manager, manager.process, run
      ensures Persisted(outcome, candidate)
      ensures outcome == Broken && M.OrderFree(manager.rules) && wasRunning ==> !live
    {
      live := false;
      var saved := SaveLive(candidate);
      if !saved {
        outcome, live := UndoOrder(wasRunning);
        return;
      }
      Adopt(candidate);
      outcome := Done;
    }

    // The same providers in the order of these identifiers.
    ghost predicate IsReordered(providers: seq<PolicyPaths.Provider>, ids: seq<string>, list: seq<PolicyPaths.Provider>) {
      PolicyPaths.Ids(list) == ids && multiset(list) == multiset(providers)
    }

    // The new order is persisted or undone, and undoing it cannot fail while the data plane is up.
    method ReorderProviders(ids: seq<string>) returns (outcome: Outcome, ghost live: bool)
      requires Valid()
      modifies this, manager, manager.process, run
      ensures Valid() && (old(Settled()) ==> Settled())
      ensures config == old(config).(providers := config.providers)
      ensures outcome == Done ==> PolicyPaths.Ids(config.providers) == ids && multiset(config.providers) == multiset(old(config).providers)
      ensures outcome != Done ==> config == old(config)
      ensures outcome == Broken ==> manager.listener == None
      ensures outcome == Broken && M.OrderFree(manager.rules) && old(manager.listener).Some? ==> !live
      ensures multiset(ids) != multiset(PolicyPaths.Ids(old(config).providers)) ==> Refused(outcome)
      ensures Smooth() && multiset(ids) == multiset(PolicyPaths.Ids(old(config).providers)) ==>
                outcome == Done || exists list :: IsReordered(old(config).providers, ids, list) && !ValidConfig(rules, old(config).(providers := list))
      ensures manager.faults == old(manager.faults) && old(manager.Available()) ==> outcome != Broken
    {
      live := false;
      var providers, changed := PolicyPaths.ReorderedProviders(config.providers, ids);
      if providers.None? { return Failed, false; }
      if !changed { return Done, false; }
      var candidate := config.(providers := providers.value);
      var ok := ValidateConfig(candidate);
      if !ok { return Failed, false; }
      ReorderPermutesDefinitions(candidate, config);
      outcome, live := CommitOrder(candidate);
    }

    // ---- Settings ----

    method EnactSettings(candidate: Config, wasRunning: bool) returns (ok: bool)
      requires ValidConfig(rules, candidate) && Prepares(P.Settings(Of(candidate)), wasRunning)
      modifies manager, manager.process, run
      ensures Enacted(ok, P.Settings(Of(candidate)), wasRunning)
    {
      if !wasRunning {
        ok := StartConfigured(candidate);
        return;
      }
      var guard := new M.Guard();
      ok := manager.ApplyProjectionSettings(RuntimeSettings(rules, candidate.settings), guard);
      if !guard.locked {
        TurnDown();
        return;
      }
      LockPublication(guard.scene.value);
      if ok { GoLive(P.Settings(Of(candidate))); } else { TurnDown(); }
    }

    method StartConfigured(candidate: Config) returns (ok: bool)
      requires ValidConfig(rules, candidate) && Prepares(P.Settings(Of(candidate)), false)
      modifies manager, manager.process, run
      ensures Enacted(ok, P.Settings(Of(candidate)), false)
    {
      LockPublication(manager.Sight());
      ok := ConfigureAndStart(candidate);
      if !ok { AfterRefusal(config, masterKey); }
      run.Take(P.Start(ok, if ok then M.Contents(manager.config.value.providers) else map[]));
    }

    method ConfigureAndStart(candidate: Config) returns (ok: bool)
      requires manager.Valid() && Sound(rules, manager.rules) && ValidConfig(rules, candidate) && manager.listener.None?
      modifies manager, manager.process
      ensures manager.Valid() && (ok <==> manager.listener.Some?)
      ensures manager.options == M.Options(RuntimeSettings(rules, candidate.settings), Definitions(candidate))
      ensures manager.faults >= old(manager.faults) && (manager.faults == old(manager.faults) && old(manager.Available()) ==> ok)
    {
      ok := manager.ConfigureWhenStopped(RuntimeSettings(rules, candidate.settings), Definitions(candidate));
      if !ok { assert false; }  // a valid configuration is never refused
      ok := manager.StartLocked();
    }

    method UndoSettings(wasRunning: bool) returns (outcome: Outcome)
      requires Undoable(wasRunning) && run.system.writer.change.Settings?
      modifies manager, manager.process, run
      ensures Undone(outcome) && TakenBack(outcome, wasRunning)
    {
      Background();
      if !wasRunning {
        outcome := UndoStart();
        return;
      }
      var s := config.settings;
      var restored := manager.ApplyProjectionSettings(M.Settings(s.bind, s.host, s.port, s.prefix, masterKey, s.dns), null);
      if restored {
        outcome := TakeBack();
        return;
      }
      outcome := StopAfterRollback();
    }

    method CommitSettings(candidate: Config) returns (outcome: Outcome)
      requires Valid() && ValidConfig(rules, candidate) && candidate.providers == config.providers
      modifies this, manager, manager.process, run
      ensures Committed(outcome, candidate, P.Settings(Of(candidate)))
      ensures outcome == Done || (outcome == Failed && old(Settled())) ==> Settled()
      ensures outcome == Broken ==> manager.options.settings == RuntimeSettings(rules, candidate.settings)
    {
      var wasRunning := Prepare(P.Settings(Of(candidate)));
      var enacted := EnactSettings(candidate, wasRunning);
      if !enacted { return Failed; }
      outcome := PersistSettings(candidate, wasRunning);
    }

    method PersistSettings(candidate: Config, wasRunning: bool) returns (outcome: Outcome)
      requires Persistable(candidate, P.Settings(Of(candidate)), wasRunning)
      modifies this, manager, manager.process, run
      ensures Persisted(outcome, candidate)
    {
      var saved := SaveLive(candidate);
      if !saved {
        outcome := UndoSettings(wasRunning);
        return;
      }
      Adopt(candidate);
      outcome := Done;
    }

    // New settings. Whatever fails, settings that change nothing at run time keep disk, memory
    // and runtime together; others do unless their undoing fails, and then they do not.
    method UpdateSettings(s: Settings, management: Option<string>, token: Option<string>, dns: Option<M.Dns>)
      returns (outcome: Outcome)
      requires Valid()
      modifies this, manager, manager.process, run
      ensures Valid()
      ensures config == if outcome == Done then Patched(old(config), s, management, token, dns) else old(config)
      ensures outcome == Done ==> Settled()
      ensures old(Settled()) ==>
                (Settled() <==> (outcome == Broken ==> SameAtRunTime(old(config), Patched(old(config), s, management, token, dns))))
      ensures outcome == Broken ==> manager.listener == None
      ensures Smooth() ==> (outcome == Done <==> ValidConfig(rules, Patched(old(config), s, management, token, dns)))
      ensures manager.faults == old(manager.faults) && old(manager.Available()) ==> outcome != Broken
      ensures var candidate := Patched(old(config), s, management, token, dns);
              P.Begins(run.trace) == old(P.Begins(run.trace)) + if ValidConfig(rules, candidate) then [P.Settings(Of(candidate))] else []
    {
      var candidate := Patched(config, s, management, token, dns);
      var ok := ValidateConfig(candidate);
      if !ok { return Failed; }
      outcome := CommitSettings(candidate);
    }

    predicate SameAtRunTime(c: Config, d: Config) {
      RuntimeSettings(rules, c.settings) == RuntimeSettings(rules, d.settings)
    }

    // Some run of the protocol that begins with this change of settings, and no other, ends
    // with the runtime set up otherwise, exactly when the change is one of the runtime's settings.
    lemma SettingsLostExactlyWhenNew(candidate: Config)
      requires Valid() && Settled() && candidate.providers == config.providers
      ensures var begun := P.Next(run.system, P.Begin(P.Settings(Of(candidate))));
              (exists rest :: P.Runs(begun, rest) && P.Begins(rest) == [] && P.Lost(P.After(begun, rest)))
              <==> !SameAtRunTime(config, candidate)
    {
      ValidAgrees();
      P.ChangeLosesExactlyWhenNew(run.system, P.Settings(Of(candidate)));
    }

    // ---- Policy paths ----

    // They do not reach the runtime.
    method SavePolicyPaths(paths: seq<PolicyPaths.PolicyPath>) returns (outcome: Outcome)
      requires Valid()
      modifies this, run
      ensures Committed(outcome, old(config).(paths := paths), P.Paths(Of(old(config).(paths := paths))))
      ensures outcome != Broken && (old(Settled()) <==> Settled())
    {
      var candidate := config.(paths := paths);
      run.Take(P.Begin(P.Paths(Of(candidate))));
      LockPublication(manager.Sight());
      var ok := ValidateConfig(candidate);
      if !ok {
        run.Take(P.Abandon);
        return Failed;
      }
      outcome := CommitPaths(candidate);
    }

    method CommitPaths(candidate: Config) returns (outcome: Outcome)
      requires Working() && ValidConfig(rules, candidate) && run.system.writer.Held?
      requires run.system.writer.change == P.Paths(Of(candidate))
      modifies this, run
      ensures Persisted(outcome, candidate) && outcome != Broken && manager.options == old(manager.options)
    {
      run.Take(P.Enact(map[]));
      outcome := PersistPaths(candidate);
    }

    method PersistPaths(candidate: Config) returns (outcome: Outcome)
      requires Working() && ValidConfig(rules, candidate) && run.system.writer.Live?
      requires run.system.writer.change == P.Paths(Of(candidate))
      modifies this, run
      ensures Persisted(outcome, candidate) && outcome != Broken && manager.options == old(manager.options)
    {
      var saved := Save(candidate);
      if !saved {
        ForgetPaths();
        return Failed;
      }
      Adopt(candidate);
      outcome := Done;
    }

    // Nothing is to be undone.
    ghost method ForgetPaths()
      requires Working() && run.system.writer.Undoing? && run.system.writer.change.Paths?
      modifies run
      ensures Valid() && P.Begins(run.trace) == old(P.Begins(run.trace)) && (P.Lost(run.system) ==> old(P.Lost(run.system)))
    {
      run.Take(P.Undo(map[]));
    }
  }

  // The application starts from the stored configuration, whether or not the data plane does.
  method Open(rules: Rules, process: M.Process, library: M.Rules, stored: Config) returns (app: App)
    requires ValidConfig(rules, stored) && Sound(rules, library)
    requires process.owner == null ==> process.table == M.NoTable
    modifies process
    ensures fresh(app) && app.Valid() && app.Settled() && app.disk == stored
    ensures app.manager.faults == 0 && old(process.owner) == null ==> app.manager.listener.Some?
  {
    var manager := new M.Manager(process, library, M.Options(RuntimeSettings(rules, stored.settings), Definitions(stored)));
    var _ := manager.StartLocked();
    app := new App(rules, manager, stored);
  }
}
