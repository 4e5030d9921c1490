/** Publication: readers under the publication lock, writers that take it after preparing, and
    the background refreshes that it does not stop.
    */
module Publication {
  import opened Common
  import opened Text
  import Configuration
  import M = Manager
  import ProviderFilter

  // What a snapshot is built from, besides the contents of the providers.
  datatype Setup = Setup(definitions: seq<M.Definition>, settings: M.Settings)

  // A configuration, and the setup of a runtime that serves it.
  datatype Config = Config(setup: Setup, stored: Configuration.Config)

  type Contents = map<string, ProviderFilter.State>

  datatype Snapshot = Empty | Built(setup: Setup, contents: Contents)

  // What a change may touch besides the stored configuration.
  datatype Change = Providers(target: Config) | Settings(target: Config) | Paths(target: Config)

  datatype Writer =
    | Idle
    | Preparing(change: Change, wasRunning: bool)  // without the lock
    | Held(change: Change, wasRunning: bool)       // the lock is taken, nothing has changed
    | Live(change: Change, wasRunning: bool)       // the runtime has changed
    | Saved(change: Change, wasRunning: bool)      // the disk too
    | Undoing(change: Change, wasRunning: bool)    // the disk refused

  datatype Reader =
    | Entered
    | Authenticated(config: Config)
    | Up(config: Config)  // the status was running
    | Formatted(config: Config, snapshot: Snapshot)

  datatype System = System(
    readers: map<nat, Reader>,
    writer: Writer,
    disk: Config,
    config: Config,
    runtime: Setup,   // the manager's options
    cored: bool,      // the manager has a configuration, which refreshes publish
    running: bool,
    snapshot: Snapshot)

  datatype Action =
    | Enter(reader: nat)
    | Authenticate(reader: nat)
    | CheckStatus(reader: nat)
    | Format(reader: nat)
    | Leave(reader: nat)
    | Begin(change: Change)
    | Refuse                       // while preparing
    | Acquire
    | Abandon                      // refused under the lock, before any change
    | CloseHeld                    // the runtime failed its check
    | Enact(contents: Contents)
    | Start(ok: bool, contents: Contents)
    | Persist
    | PersistFails
    | Adopt
    | Undo(contents: Contents)
    | UndoFails
    | Refresh(contents: Contents)
    | FailClosed

  predicate HoldsLock(w: Writer) { !w.Idle? && !w.Preparing? }

  predicate Changing(w: Writer) { w.Live? || w.Saved? || w.Undoing? }

  // A change of providers keeps the settings, one of settings the providers, one of paths both.
  predicate Fits(c: Config, change: Change) {
    && (!change.Providers? ==> change.target.setup.definitions == c.setup.definitions)
    && (!change.Settings? ==> change.target.setup.settings == c.setup.settings)
  }

  predicate Enabled(s: System, a: Action) {
    match a
    case Enter(r) => !HoldsLock(s.writer) && r !in s.readers
    case Authenticate(r) => r in s.readers && s.readers[r].Entered?
    case CheckStatus(r) => r in s.readers && s.readers[r].Authenticated?
    case Format(r) => r in s.readers && s.readers[r].Up?
    case Leave(r) => r in s.readers
    case Begin(change) => s.writer.Idle? && Fits(s.config, change)
    case Refuse => s.writer.Preparing?
    case Acquire => s.writer.Preparing? && s.readers == map[]
    case Abandon => s.writer.Held?
    case CloseHeld => s.writer.Held? && s.writer.change.Providers? && s.running
    case Enact(_) => s.writer.Held? && (s.writer.change.Paths? || (s.writer.wasRunning && s.running))
    case Start(_, _) => s.writer.Held? && !s.writer.change.Paths? && !s.writer.wasRunning && !s.running
    case Persist => s.writer.Live?
    case PersistFails => s.writer.Live?
    case Adopt => s.writer.Saved?
    case Undo(_) => s.writer.Undoing? && (s.writer.change.Paths? || (s.writer.wasRunning ==> s.running))
    case UndoFails => s.writer.Undoing? && !s.writer.change.Paths?
    case Refresh(_) => s.cored
    case FailClosed => s.cored
  }

  function Closed(s: System): System {
    s.(cored := false, running := false, snapshot := Empty)
  }

  // The runtime's options once a change is enacted on a running data plane.
  function Enacted(runtime: Setup, change: Change): Setup {
    match change
    case Providers(target) => runtime.(definitions := target.setup.definitions)
    case Settings(target) => runtime.(settings := target.setup.settings)
    case Paths(_) => runtime
  }

  // Starting stopped providers takes over the providers only; new settings configure everything.
  function Started(runtime: Setup, change: Change): Setup {
    if change.Settings? then change.target.setup else Enacted(runtime, change)
  }

  function Undone(runtime: Setup, config: Config, change: Change): Setup {
    match change
    case Providers(_) => runtime.(definitions := config.setup.definitions)
    case Settings(_) => runtime.(settings := config.setup.settings)
    case Paths(_) => runtime
  }

  function Publish(s: System, runtime: Setup, contents: Contents): System {
    s.(runtime := runtime, cored := true, running := true, snapshot := Built(runtime, contents))
  }

  function Reset(s: System): System {
    Closed(s).(runtime := s.config.setup)
  }

  function Next(s: System, a: Action): System
    requires Enabled(s, a)
  {
    match a
    case Enter(r) => s.(readers := s.readers[r := Entered])
    case Authenticate(r) => s.(readers := s.readers[r := Authenticated(s.config)])
    case CheckStatus(r) =>
      s.(readers := if s.running then s.readers[r := Up(s.readers[r].config)] else s.readers - {r})
    case Format(r) => s.(readers := s.readers[r := Formatted(s.readers[r].config, s.snapshot)])
    case Leave(r) => s.(readers := s.readers - {r})
    case Begin(change) => s.(writer := Preparing(change, s.running))
    case Refuse => s.(writer := Idle)
    case Acquire => s.(writer := Held(s.writer.change, s.writer.wasRunning))
    case Abandon => s.(writer := Idle)
    case CloseHeld => Closed(s).(writer := Idle)
    case Enact(contents) =>
      var n := if s.writer.change.Paths? then s else Publish(s, Enacted(s.runtime, s.writer.change), contents);
      n.(writer := Live(s.writer.change, s.writer.wasRunning))
    case Start(ok, contents) =>
      if ok then Publish(s, Started(s.runtime, s.writer.change), contents).(writer := Live(s.writer.change, false))
      else Reset(s).(writer := Idle)
    case Persist => s.(disk := s.writer.change.target, writer := Saved(s.writer.change, s.writer.wasRunning))
    case PersistFails => s.(writer := Undoing(s.writer.change, s.writer.wasRunning))
    case Adopt => s.(config := s.writer.change.target, writer := Idle)
    case Undo(contents) =>
      var n :=
        if s.writer.change.Paths? then s
        else if s.writer.wasRunning then Publish(s, Undone(s.runtime, s.config, s.writer.change), contents)
        else Reset(s);
      n.(writer := Idle)
    case UndoFails => Closed(s).(writer := Idle)
    case Refresh(contents) => s.(snapshot := Built(s.runtime, contents))
    case FailClosed => Closed(s)
  }

  // ---- What every step keeps ----

  // While a runtime has providers, they are those of the configuration, or of the change made.
  ghost predicate SetUp(s: System) {
    if Changing(s.writer) then
      && (s.cored ==> s.runtime.definitions == s.writer.change.target.setup.definitions)
      && (s.writer.change.Settings? ==> s.runtime.settings == s.writer.change.target.setup.settings)
    else s.cored ==> s.runtime.definitions == s.config.setup.definitions
  }

  ghost predicate Agrees(s: System, r: Reader) {
    !r.Entered? ==>
      && r.config == s.config
      && (r.Formatted? && r.snapshot.Built? ==>
            r.snapshot.setup == Setup(s.config.setup.definitions, s.runtime.settings))
  }

  ghost predicate Inv(s: System) {
    && (HoldsLock(s.writer) ==> s.readers == map[])
    && (!s.writer.Idle? ==> Fits(s.config, s.writer.change))
    && SetUp(s)
    && s.disk == (if s.writer.Saved? then s.writer.change.target else s.config)
    && (s.snapshot.Built? ==> s.cored && s.snapshot.setup == s.runtime)
    && (s.running ==> s.cored)
    && forall r :: r in s.readers ==> Agrees(s, s.readers[r])
  }

  predicate OfReader(a: Action) {
    a.Enter? || a.Authenticate? || a.CheckStatus? || a.Format? || a.Leave?
  }

  lemma ReaderStepKeepsInv(s: System, a: Action)
    requires Inv(s) && Enabled(s, a) && OfReader(a)
    ensures Inv(Next(s, a))
  {
    var n := Next(s, a);
    forall r | r in n.readers ensures Agrees(n, n.readers[r]) {
      if r in s.readers { assert Agrees(s, s.readers[r]); }
    }
  }

  // Preparing, and steps beside the writer: configuration and options stay.
  predicate Calm(a: Action) {
    a.Begin? || a.Refuse? || a.Acquire? || a.Abandon? || a.CloseHeld? || a.Refresh? || a.FailClosed?
  }

  lemma CalmStepKeepsInv(s: System, a: Action)
    requires Inv(s) && Enabled(s, a) && Calm(a)
    ensures Inv(Next(s, a))
  {
    var n := Next(s, a);
    assert n.readers == s.readers && n.config == s.config && n.runtime == s.runtime;
    forall r | r in n.readers ensures Agrees(n, n.readers[r]) { assert Agrees(s, s.readers[r]); }
  }

  // A writer changes the runtime, the disk or the configuration only while no reader is inside.
  lemma WriterStepKeepsInv(s: System, a: Action)
    requires Inv(s) && Enabled(s, a) && !OfReader(a) && !Calm(a)
    ensures Inv(Next(s, a))
  {
    assert HoldsLock(s.writer) && s.readers == map[];
  }

  lemma StepKeepsInv(s: System, a: Action)
    requires Inv(s) && Enabled(s, a)
    ensures Inv(Next(s, a))
  {
    if OfReader(a) { ReaderStepKeepsInv(s, a); } else if Calm(a) { CalmStepKeepsInv(s, a); } else { WriterStepKeepsInv(s, a); }
  }

  ghost predicate Runs(s: System, actions: seq<Action>)
    decreases |actions|
  {
    actions == [] || (Enabled(s, actions[0]) && Runs(Next(s, actions[0]), actions[1..]))
  }

  ghost function After(s: System, actions: seq<Action>): System
    requires Runs(s, actions)
    decreases |actions|
  {
    if actions == [] then s else After(Next(s, actions[0]), actions[1..])
  }

  // Right after the process has started, with or without a data plane.
  predicate Initial(s: System) {
    && s.readers == map[] && s.writer.Idle? && s.disk == s.config && s.runtime == s.config.setup
    && (s.snapshot == Empty || (s.cored && s.snapshot.setup == s.runtime)) && (s.running ==> s.cored)
  }

  lemma {:induction false} RunKeepsInv(s: System, actions: seq<Action>)
    requires Inv(s) && Runs(s, actions)
    ensures Inv(After(s, actions))
    decreases |actions|
  {
    if actions != [] {
      StepKeepsInv(s, actions[0]);
      RunKeepsInv(Next(s, actions[0]), actions[1..]);
    }
  }

  // ---- Lost settings ----

  // The runtime is set up with settings that are not stored, and no change is deciding about them.
  predicate Lost(s: System) {
    s.runtime.settings != s.config.setup.settings && !(Changing(s.writer) && s.writer.change.Settings?)
  }

  // A rejected change of settings that cannot be taken back, and differs from what is stored.
  predicate Loses(s: System, a: Action) {
    a.UndoFails? && s.writer.Undoing? && s.writer.change.Settings?
    && s.writer.change.target.setup.settings != s.config.setup.settings
  }

  // New settings, and every restoration of a stopped runtime.
  predicate Repairs(s: System, a: Action) {
    match a
    case Enact(_) => s.writer.Held? && s.writer.change.Settings?
    case Start(ok, _) => s.writer.Held? && (s.writer.change.Settings? || !ok)
    case Undo(_) => s.writer.Undoing? && !s.writer.change.Paths? && !s.writer.wasRunning
    case _ => false
  }

  // Settings are lost and found by exactly these steps.
  lemma LossIsExact(s: System, a: Action)
    requires Inv(s) && Enabled(s, a)
    ensures Lost(Next(s, a)) <==> Loses(s, a) || (Lost(s) && !Repairs(s, a))
  {
  }

  // Whatever readers, writers, refreshes and failures do: a reader formats a snapshot with the
  // providers of the configuration it authenticated against, which is also the one on disk, or
  // an empty one; and with its settings too, exactly when they are not lost.
  lemma ReadersSeeOneConfiguration(s: System, actions: seq<Action>, reader: nat)
    requires Initial(s) && Runs(s, actions)
    requires reader in After(s, actions).readers && After(s, actions).readers[reader].Formatted?
    ensures var n := After(s, actions); var r := n.readers[reader];
            && r.config == n.config == n.disk
            && (r.snapshot.Built? ==>
                  && r.snapshot.setup.definitions == r.config.setup.definitions
                  && (r.snapshot.setup == r.config.setup <==> !Lost(n)))
  {
    RunKeepsInv(s, actions);
    var n := After(s, actions);
    assert Agrees(n, n.readers[reader]);
  }

  ghost predicate LossFree(s: System, actions: seq<Action>)
    requires Runs(s, actions)
    decreases |actions|
  {
    actions == [] || (!Loses(s, actions[0]) && LossFree(Next(s, actions[0]), actions[1..]))
  }

  ghost predicate NeverLost(s: System, actions: seq<Action>)
    requires Runs(s, actions)
    decreases |actions|
  {
    !Lost(s) && (actions == [] || NeverLost(Next(s, actions[0]), actions[1..]))
  }

  // Over whole runs the settings are never lost exactly when no differing change is.
  lemma {:induction false} RunsWithoutLoss(s: System, actions: seq<Action>)
    requires Inv(s) && !Lost(s) && Runs(s, actions)
    ensures LossFree(s, actions) <==> NeverLost(s, actions)
    ensures LossFree(s, actions) ==> !Lost(After(s, actions))
    decreases |actions|
  {
    if actions != [] {
      LossIsExact(s, actions[0]);
      StepKeepsInv(s, actions[0]);
      if !Lost(Next(s, actions[0])) { RunsWithoutLoss(Next(s, actions[0]), actions[1..]); }
    }
  }

  // Every reader of a run sees exactly one configuration when no differing change is lost.
  lemma ReadersSeeExactlyOne(s: System, actions: seq<Action>, reader: nat)
    requires Initial(s) && Runs(s, actions) && LossFree(s, actions)
    requires reader in After(s, actions).readers && After(s, actions).readers[reader].Formatted?
    ensures var r := After(s, actions).readers[reader];
            r.config == After(s, actions).disk && (r.snapshot == Empty || r.snapshot.setup == r.config.setup)
  {
    RunsWithoutLoss(s, actions);
    ReadersSeeOneConfiguration(s, actions, reader);
  }

  // ---- Runs put together ----

  lemma {:induction false} RunsJoin(s: System, first: seq<Action>, second: seq<Action>)
    requires Runs(s, first) && Runs(After(s, first), second)
    ensures Runs(s, first + second) && After(s, first + second) == After(After(s, first), second)
    ensures LossFree(s, first) && LossFree(After(s, first), second) ==> LossFree(s, first + second)
    decreases |first|
  {
    var all := first + second;
    if first == [] {
      assert all == second;
    } else {
      assert all[0] == first[0] && all[1..] == first[1..] + second;
      RunsJoin(Next(s, first[0]), first[1..], second);
    }
  }

  lemma {:induction false} BeginsJoin(first: seq<Action>, second: seq<Action>)
    ensures Begins(first + second) == Begins(first) + Begins(second)
    decreases |first|
  {
    if first == [] {
      assert first + second == second && [] + Begins(second) == Begins(second);
    } else {
      var rest := first[1..];
      assert (first + second)[0] == first[0] && (first + second)[1..] == rest + second;
      BeginsJoin(rest, second);
      Regroup(Begun(first[0]), Begins(rest), Begins(second));
    }
  }

  lemma RunsCompose(s: System, first: seq<Action>, second: seq<Action>)
    requires Runs(s, first) && Runs(After(s, first), second)
    ensures Runs(s, first + second) && After(s, first + second) == After(After(s, first), second)
    ensures LossFree(s, first) && LossFree(After(s, first), second) ==> LossFree(s, first + second)
    ensures Begins(first + second) == Begins(first) + Begins(second)
  {
    RunsJoin(s, first, second);
    BeginsJoin(first, second);
  }

  // The changes begun in a run.
  function Begins(actions: seq<Action>): seq<Change> {
    if actions == [] then [] else Begun(actions[0]) + Begins(actions[1..])
  }

  function Begun(a: Action): seq<Change> { if a.Begin? then [a.change] else [] }

  lemma RunOneMore(s: System, a: Action, rest: seq<Action>)
    requires Enabled(s, a) && Runs(Next(s, a), rest)
    ensures Runs(s, [a] + rest) && After(s, [a] + rest) == After(Next(s, a), rest)
    ensures !Loses(s, a) && LossFree(Next(s, a), rest) ==> LossFree(s, [a] + rest)
    ensures Begins([a] + rest) == Begun(a) + Begins(rest)
  {
    assert ([a] + rest)[1..] == rest;
  }

  lemma RunOfOne(s: System, a: Action)
    requires Enabled(s, a)
    ensures Runs(s, [a]) && After(s, [a]) == Next(s, a) && (!Loses(s, a) ==> LossFree(s, [a]))
    ensures !a.Begin? ==> Begins([a]) == []
  {
    assert [a][1..] == [] && Runs(Next(s, a), []);
  }

  lemma RunOfTwo(s: System, a: Action, b: Action)
    requires Enabled(s, a) && Enabled(Next(s, a), b)
    ensures Runs(s, [a, b]) && After(s, [a, b]) == Next(Next(s, a), b)
    ensures !Loses(s, a) && !Loses(Next(s, a), b) ==> LossFree(s, [a, b])
    ensures !a.Begin? && !b.Begin? ==> Begins([a, b]) == []
  {
    RunOfOne(Next(s, a), b);
    RunOneMore(s, a, [b]);
    assert [a] + [b] == [a, b];
  }

  lemma RunOfFour(s: System, a: Action, b: Action, c: Action, d: Action)
    requires Enabled(s, a) && Enabled(Next(s, a), b) && Enabled(Next(Next(s, a), b), c)
    requires Enabled(Next(Next(Next(s, a), b), c), d)
    ensures Runs(s, [a, b, c, d]) && After(s, [a, b, c, d]) == Next(Next(Next(Next(s, a), b), c), d)
    ensures !a.UndoFails? && !b.UndoFails? && !c.UndoFails? && !d.UndoFails? ==> LossFree(s, [a, b, c, d])
    ensures !a.Begin? && !b.Begin? && !c.Begin? && !d.Begin? ==> Begins([a, b, c, d]) == []
  {
    RunOfTwo(s, a, b);
    RunOfTwo(Next(Next(s, a), b), c, d);
    RunsCompose(s, [a, b], [c, d]);
    assert [a, b] + [c, d] == [a, b, c, d];
  }

  // A writer that prepares does not stop a reader: a whole reading can run now, and it sees
  // the current configuration.
  lemma ReadingIsNotBlocked(s: System, reader: nat) returns (actions: seq<Action>)
    requires !HoldsLock(s.writer) && reader !in s.readers && s.running
    ensures Runs(s, actions) && LossFree(s, actions)
    ensures After(s, actions) == s.(readers := s.readers[reader := Formatted(s.config, s.snapshot)])
  {
    actions := [Enter(reader), Authenticate(reader), CheckStatus(reader), Format(reader)];
    RunOfFour(s, actions[0], actions[1], actions[2], actions[3]);
  }

  // A reader that comes while there is no data plane is turned away, whatever refreshes do.
  lemma {:induction false} StoppedServesNobody(s: System, actions: seq<Action>, reader: nat)
    requires !s.running && Runs(s, actions) && (forall a :: a in actions ==> Quiet(a))
    requires reader in s.readers ==> s.readers[reader].Entered? || s.readers[reader].Authenticated?
    ensures reader in After(s, actions).readers ==>
              After(s, actions).readers[reader].Entered? || After(s, actions).readers[reader].Authenticated?
    decreases |actions|
  {
    if actions != [] {
      assert Quiet(actions[0]);
      StoppedServesNobody(Next(s, actions[0]), actions[1..], reader);
    }
  }

  lemma {:induction false} Drain(s: System) returns (actions: seq<Action>)
    ensures Runs(s, actions) && LossFree(s, actions) && Begins(actions) == []
    ensures After(s, actions) == s.(readers := map[])
    decreases |s.readers|
  {
    if s.readers == map[] {
      actions := [];
    } else {
      var reader :| reader in s.readers;
      actions := Drain(Next(s, Leave(reader)));
      RunOneMore(s, Leave(reader), actions);
      actions := [Leave(reader)] + actions;
    }
  }

  // ---- A run on record ----

  lemma RunGrows(s: System, actions: seq<Action>, a: Action)
    requires Runs(s, actions) && Enabled(After(s, actions), a)
    ensures Runs(s, actions + [a]) && After(s, actions + [a]) == Next(After(s, actions), a)
    ensures Begins(actions + [a]) == Begins(actions) + Begun(a)
  {
    RunOfOne(After(s, actions), a);
    RunsCompose(s, actions, [a]);
    assert Begins([a]) == Begun(a) by { assert [a][1..] == []; }
  }

  // A run that is still going on: where it began, what has happened, and where it is now.
  class Recorder {
    ghost const first: System
    ghost var trace: seq<Action>
    ghost var system: System

    ghost constructor (s: System)
      requires Initial(s)
      ensures Valid() && system == first == s && trace == []
    {
      first, trace, system := s, [], s;
    }

    ghost predicate Valid()
      reads this
    {
      Initial(first) && Runs(first, trace) && After(first, trace) == system && Inv(system)
    }

    ghost method Take(a: Action)
      requires Valid() && Enabled(system, a)
      modifies this
      ensures Valid() && system == Next(old(system), a) && trace == old(trace) + [a]
      ensures Begins(trace) == Begins(old(trace)) + Begun(a)
    {
      RunGrows(first, trace, a);
      StepKeepsInv(system, a);
      trace, system := trace + [a], Next(system, a);
    }

    // Any steps of readers.
    ghost method Wander()
      requires Valid()
      modifies this
      ensures Valid() && NoneBegun(old(trace)) && system == old(system).(readers := system.readers)
    {
      var steps: int := *;
      while 0 < steps
        invariant Valid() && NoneBegun(old(trace)) && system == old(system).(readers := system.readers)
      {
        steps := steps - 1;
        var a: Action := *;
        if OfReader(a) && Enabled(system, a) { Take(a); }
      }
    }

    // The writer takes the lock once the readers that are inside have left.
    ghost method Hold()
      requires Valid() && system.writer.Preparing?
      modifies this
      ensures Valid() && NoneBegun(old(trace))
      ensures system == old(system).(readers := map[], writer := Held(old(system).writer.change, old(system).writer.wasRunning))
    {
      Wander();
      while system.readers != map[]
        invariant Valid() && NoneBegun(old(trace)) && system == old(system).(readers := system.readers)
        decreases |system.readers|
      {
        var reader :| reader in system.readers;
        ghost var before := system.readers;
        Take(Leave(reader));
        assert before.Keys == system.readers.Keys + {reader};
        assert |before.Keys| == |before| && |system.readers.Keys| == |system.readers|;
      }
      Take(Acquire);
    }

    // The data plane is gone, if there was one.
    ghost method Close()
      requires Valid()
      modifies this
      ensures Valid() && NoneBegun(old(trace)) && system == Closed(old(system))
    {
      if system.cored { Take(FailClosed); }
    }

    // No change has begun since.
    ghost predicate NoneBegun(before: seq<Action>)
      reads this
    {
      Begins(trace) == Begins(before)
    }
  }

  // ---- Lost settings are served ----

  // A continuation without further loss, in which a reader gets other settings than the stored.
  ghost predicate Served(s: System, actions: seq<Action>, reader: nat) {
    && Runs(s, actions) && LossFree(s, actions)
    && reader in After(s, actions).readers
    && var r := After(s, actions).readers[reader];
       r.Formatted? && r.snapshot.Built? && r.snapshot.setup != r.config.setup
  }

  // The writer finishes without deciding about settings.
  lemma ComeToRest(s: System) returns (actions: seq<Action>)
    requires Inv(s) && Lost(s)
    ensures Runs(s, actions) && LossFree(s, actions)
    ensures var n := After(s, actions); n.writer.Idle? && Lost(n) && Inv(n)
  {
    match s.writer
    case Idle =>
      actions := [];
    case Preparing(_, _) =>
      actions := [Refuse];
      RunOfOne(s, Refuse);
    case Held(_, _) =>
      actions := [Abandon];
      RunOfOne(s, Abandon);
    case Live(_, _) =>
      actions := [Persist, Adopt];
      RunOfTwo(s, Persist, Adopt);
    case Saved(_, _) =>
      actions := [Adopt];
      RunOfOne(s, Adopt);
    case Undoing(change, _) =>
      var a := if change.Paths? then Undo(map[]) else UndoFails;
      actions := [a];
      RunOfOne(s, a);
    RunKeepsInv(s, actions);
  }

  // A data plane at rest can be brought to serve what its runtime is set up with.
  lemma ComeToServe(s: System) returns (actions: seq<Action>)
    requires Inv(s) && Lost(s) && s.writer.Idle? && s.readers == map[]
    ensures Runs(s, actions) && LossFree(s, actions)
    ensures var n := After(s, actions);
            n.writer.Idle? && n.readers == map[] && n.running && n.snapshot.Built? && Lost(n) && n.snapshot.setup == n.runtime
  {
    if s.running {
      actions := [Refresh(map[])];
      RunOfOne(s, Refresh(map[]));
    } else {
      var begin := [Begin(Providers(s.config)), Acquire];
      RunOfTwo(s, begin[0], begin[1]);
      var held := After(s, begin);
      RunOfOne(held, Start(true, map[]));
      var live := Next(held, Start(true, map[]));
      RunOfTwo(live, Persist, Adopt);
      RunsCompose(held, [Start(true, map[])], [Persist, Adopt]);
      RunsCompose(s, begin, [Start(true, map[])] + [Persist, Adopt]);
      actions := begin + ([Start(true, map[])] + [Persist, Adopt]);
    }
  }

  lemma LostIsServed(s: System, reader: nat) returns (actions: seq<Action>)
    requires Inv(s) && Lost(s)
    ensures Served(s, actions, reader)
  {
    var rest := ComeToRest(s);
    var n := After(s, rest);
    var leave := Drain(n);
    var serve := ComeToServe(After(n, leave));
    var m := After(After(n, leave), serve);
    var read := ReadingIsNotBlocked(m, reader);
    RunsCompose(s, rest, leave);
    RunsCompose(s, rest + leave, serve);
    RunsCompose(s, rest + leave + serve, read);
    actions := rest + leave + serve + read;
  }

  // Lost settings are exactly those that some reader, any reader, can still be served.
  lemma ServedExactlyWhenLost(s: System, reader: nat)
    requires Inv(s)
    ensures Lost(s) <==> exists actions :: Served(s, actions, reader)
  {
    if Lost(s) {
      var actions := LostIsServed(s, reader);
    } else {
      forall actions | Runs(s, actions) && LossFree(s, actions) ensures !Served(s, actions, reader) {
        RunsWithoutLoss(s, actions);
        RunKeepsInv(s, actions);
        var n := After(s, actions);
        if reader in n.readers { assert Agrees(n, n.readers[reader]); }
      }
    }
  }

  // A rejected change of settings that is not taken back is served to some reader, without any
  // further loss, exactly when it differs from what is stored.
  lemma RejectedIsServed(s: System, reader: nat)
    requires Inv(s) && s.writer.Undoing? && s.writer.change.Settings?
    ensures (exists tail :: Served(Next(s, UndoFails), tail, reader))
            <==> s.writer.change.target.setup.settings != s.config.setup.settings
  {
    StepKeepsInv(s, UndoFails);
    LossIsExact(s, UndoFails);
    ServedExactlyWhenLost(Next(s, UndoFails), reader);
  }

  // ---- One change of settings ----

  // Only a change to stored settings is being made, if any.
  ghost predicate Harmless(s: System, change: Change) {
    && Inv(s) && !Lost(s) && (!s.writer.Idle? ==> s.writer.change == change)
    && change.Settings? && change.target.setup.settings == s.config.setup.settings
  }

  lemma HarmlessStep(s: System, a: Action, change: Change)
    requires Harmless(s, change) && Enabled(s, a) && !a.Begin?
    ensures Harmless(Next(s, a), change)
  {
    StepKeepsInv(s, a);
    LossIsExact(s, a);
  }

  // Settings that are already stored cannot be lost by changing to them.
  lemma {:induction false} SameSettingsStay(s: System, actions: seq<Action>, change: Change)
    requires Harmless(s, change) && Runs(s, actions) && Begins(actions) == []
    ensures !Lost(After(s, actions))
    decreases |actions|
  {
    if actions != [] {
      HarmlessStep(s, actions[0], change);
      SameSettingsStay(Next(s, actions[0]), actions[1..], change);
    }
  }

  lemma LosingRun(s: System, change: Change) returns (rest: seq<Action>)
    requires Inv(s) && s.writer.Idle? && change.Settings? && Fits(s.config, change)
    requires change.target.setup.settings != s.config.setup.settings
    ensures Runs(Next(s, Begin(change)), rest) && Begins(rest) == [] && Lost(After(Next(s, Begin(change)), rest))
  {
    var begun := Next(s, Begin(change));
    var leave := Drain(begun);
    var n := After(begun, leave);
    var enact := if s.running then Enact(map[]) else Start(true, map[]);
    RunOfFour(n, Acquire, enact, PersistFails, UndoFails);
    RunsCompose(begun, leave, [Acquire, enact, PersistFails, UndoFails]);
    rest := leave + [Acquire, enact, PersistFails, UndoFails];
  }

  // A change of settings keeps runtime and configuration together for every choice of failures,
  // readers and refreshes, exactly when it changes none of the runtime's settings.
  lemma ChangeLosesExactlyWhenNew(s: System, change: Change)
    requires Inv(s) && s.writer.Idle? && !Lost(s) && change.Settings? && Fits(s.config, change)
    ensures (exists rest :: Runs(Next(s, Begin(change)), rest) && Begins(rest) == [] && Lost(After(Next(s, Begin(change)), rest)))
            <==> change.target.setup.settings != s.config.setup.settings
  {
    var begun := Next(s, Begin(change));
    if change.target.setup.settings != s.config.setup.settings {
      var rest := LosingRun(s, change);
    } else {
      StepKeepsInv(s, Begin(change));
      forall rest | Runs(begun, rest) && Begins(rest) == [] ensures !Lost(After(begun, rest)) {
        SameSettingsStay(begun, rest, change);
      }
    }
  }

  // ---- Snapshots nobody can read ----

  predicate Quiet(a: Action) { OfReader(a) || a.Refresh? || a.FailClosed? }

  lemma {:induction false} NothingToRefresh(s: System, actions: seq<Action>)
    requires !s.running && Runs(s, actions) && (forall a :: a in actions ==> Quiet(a))
    ensures !After(s, actions).running
    ensures !s.cored && s.snapshot == Empty ==> After(s, actions).snapshot == Empty && !After(s, actions).cored
    decreases |actions|
  {
    if actions != [] {
      assert Quiet(actions[0]);
      NothingToRefresh(Next(s, actions[0]), actions[1..]);
    }
  }

  // Without a data plane an empty snapshot can be replaced exactly while the manager keeps a
  // configuration, as it does when its listener could not be bound.
  lemma UnservedSnapshot(s: System)
    requires Inv(s) && !s.running && s.snapshot == Empty
    ensures (exists actions ::
               Runs(s, actions) && (forall a :: a in actions ==> Quiet(a))
               && !After(s, actions).running && After(s, actions).snapshot.Built?)
            <==> s.cored
  {
    if s.cored {
      RunOfOne(s, Refresh(map[]));
      assert forall a :: a in [Refresh(map[])] ==> Quiet(a);
      assert After(s, [Refresh(map[])]).snapshot.Built?;
    } else {
      forall actions | Runs(s, actions) && (forall a :: a in actions ==> Quiet(a)) ensures After(s, actions).snapshot == Empty {
        NothingToRefresh(s, actions);
      }
    }
  }
}
