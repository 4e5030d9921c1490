/** The write freeze: management handlers run under the read side of a lock and are refused
    while an update is active; the update is prepared under the write side. The journal is
    also changed by the worker, which takes no part in the lock. Handlers, the freeze and
    the worker interleave freely, one step at a time.
    */
module UpdateGate {
  import opened Common
  import opened UpdateTransaction

  // Every path but the session one is guarded; requests that only read take no lock.
  datatype Route = Session | Guarded

  datatype Stage = Waiting | Admitted | Executing

  datatype Handler = Handler(route: Route, stage: Stage)

  datatype Gate = Gate(
    serving: bool,                  // a server process holds the instance lock
    handlers: map<nat, Handler>,    // requests that have not been answered yet
    frozen: bool,                   // the exclusive side is held by a freeze
    phase: Option<Phase>)           // the journal on disk

  datatype Action =
    | Request(id: nat, route: Route)
    | Admit(id: nat)                // the read lock is granted
    | Check(id: nat, readable: bool)  // the guard looks at the journal, then runs the handler or refuses
    | Respond(id: nat)
    | Freeze
    | Prepare(written: bool)        // journals the update, inside the freeze
    | Thaw
    | PrepareOffline                // the command line, which holds the instance lock itself
    | Advance(next: Phase)          // the worker journals its next phase
    | Reopen                        // it journals recovery_failed over a rolled_back it believes unwritten
    | Launch
    | Exit

  predicate HoldsRead(h: Handler) { h.stage != Waiting }

  predicate Writing(h: Handler) { h.route == Guarded && h.stage == Executing }

  predicate ActiveNow(g: Gate) { g.phase.Some? && Active(g.phase.value) }

  ghost predicate Enabled(g: Gate, a: Action) {
    match a
    case Request(id, _) => g.serving && id !in g.handlers
    case Admit(id) => id in g.handlers && g.handlers[id].stage == Waiting && !g.frozen
    case Check(id, _) => id in g.handlers && g.handlers[id].stage == Admitted
    case Respond(id) => id in g.handlers && g.handlers[id].stage == Executing
    case Freeze => g.serving && !g.frozen && forall id :: id in g.handlers ==> !HoldsRead(g.handlers[id])
    case Prepare(_) => g.frozen && !ActiveNow(g)
    case Thaw => g.frozen
    case PrepareOffline => !g.serving && !ActiveNow(g)
    case Advance(_) => ActiveNow(g)
    case Reopen => g.phase == Some(RolledBack)
    case Launch => !g.serving && (g.phase.Some? ==> StartupAllowed(g.phase.value))
    case Exit => g.serving
  }

  function Next(g: Gate, a: Action): Gate {
    match a
    case Request(id, route) => g.(handlers := g.handlers[id := Handler(route, Waiting)])
    case Admit(id) =>
      if id in g.handlers then g.(handlers := g.handlers[id := g.handlers[id].(stage := Admitted)]) else g
    case Check(id, readable) =>
      if id !in g.handlers then g
      else if g.handlers[id].route == Guarded && (!readable || ActiveNow(g)) then g.(handlers := g.handlers - {id})
      else g.(handlers := g.handlers[id := g.handlers[id].(stage := Executing)])
    case Respond(id) => g.(handlers := g.handlers - {id})
    case Freeze => g.(frozen := true)
    case Prepare(written) => if written then g.(phase := Some(Prepared)) else g
    case Thaw => g.(frozen := false)
    case PrepareOffline => g.(phase := Some(Prepared))
    case Advance(next) => g.(phase := Some(next))
    case Reopen => g.(phase := Some(RecoveryFailed))
    case Launch => g.(serving := true)
    case Exit => g.(serving := false, handlers := map[], frozen := false)
  }

  // An admitted request runs exactly when it is for the session, or the journal can be read and
  // no update is in progress; else it is answered with a refusal.
  lemma CheckIsExact(g: Gate, id: nat, readable: bool)
    requires Enabled(g, Check(id, readable))
    ensures var n := Next(g, Check(id, readable));
            && n == g.(handlers := n.handlers)
            && (id in n.handlers <==>
                  || g.handlers[id].route == Session
                  || (readable && (g.phase.None? || g.phase.value in {Failed, RolledBack, Installed, Succeeded})))
            && (id in n.handlers ==> n.handlers == g.handlers[id := Handler(g.handlers[id].route, Executing)])
            && (id !in n.handlers ==> n.handlers == g.handlers - {id})
  {
    if g.phase.Some? { StartsAreSupervised(g.phase.value); }
  }

  ghost predicate Locked(g: Gate) {
    && (g.frozen ==> forall id :: id in g.handlers ==> !HoldsRead(g.handlers[id]))
    && (!g.serving ==> g.handlers == map[] && !g.frozen)
  }

  // The promise of the freeze: no guarded handler executes while an update is active.
  ghost predicate WritesFrozen(g: Gate) {
    ActiveNow(g) ==> forall id :: id in g.handlers ==> !Writing(g.handlers[id])
  }

  ghost predicate WriterInside(g: Gate) {
    exists id :: id in g.handlers && Writing(g.handlers[id])
  }

  // Exactly one step can break the promise, and it does so exactly when a writer is inside.
  lemma StepKeepsFreeze(g: Gate, a: Action)
    requires Locked(g) && WritesFrozen(g) && Enabled(g, a)
    ensures Locked(Next(g, a))
    ensures WritesFrozen(Next(g, a)) <==> !(a.Reopen? && WriterInside(g))
  {
    var n := Next(g, a);
    match a
    case Reopen =>
      if WriterInside(g) {
        var id :| id in g.handlers && Writing(g.handlers[id]);
        assert id in n.handlers && Writing(n.handlers[id]);
      }
    case Check(id, readable) =>
      if ActiveNow(n) {
        forall other | other in n.handlers ensures !Writing(n.handlers[other]) {
          assert other in g.handlers;
        }
      }
    case _ =>
  }

  ghost predicate Runs(g: Gate, actions: seq<Action>)
    decreases |actions|
  {
    actions == [] || (Enabled(g, actions[0]) && Runs(Next(g, actions[0]), actions[1..]))
  }

  function After(g: Gate, actions: seq<Action>): Gate
    decreases |actions|
  {
    if actions == [] then g else After(Next(g, actions[0]), actions[1..])
  }

  // A freeze journals the update and lets the handlers go on; if the write failed, nothing has
  // happened. A restart forgets every request and the freeze.
  lemma FreezeAndRestart(g: Gate, written: bool)
    requires g.serving
    ensures Enabled(g, Freeze) && !ActiveNow(g) ==>
              && Runs(g, [Freeze, Prepare(written), Thaw])
              && After(g, [Freeze, Prepare(written), Thaw]) == if written then g.(phase := Some(Prepared), frozen := false) else g.(frozen := false)
    ensures g.phase.None? ==> Runs(g, [Exit, Launch]) && After(g, [Exit, Launch]) == g.(handlers := map[], frozen := false)
  {
    var freeze := [Freeze, Prepare(written), Thaw];
    assert freeze[1..] == [Prepare(written), Thaw] && freeze[1..][1..] == [Thaw] && freeze[1..][1..][1..] == [];
    var g1 := Next(g, Freeze);
    var g2 := Next(g1, Prepare(written));
    assert After(g2, [Thaw]) == After(Next(g2, Thaw), []) && (Runs(g2, [Thaw]) <==> Enabled(g2, Thaw));
    var restart := [Exit, Launch];
    assert restart[1..] == [Launch] && restart[1..][1..] == [];
    assert After(Next(g, Exit), [Launch]) == After(Next(Next(g, Exit), Launch), []);
  }

  // No worker of this run reopens the journal under a handler.
  ghost predicate NeverReopensOnWriter(g: Gate, actions: seq<Action>)
    decreases |actions|
  {
    actions == []
    || (!(actions[0].Reopen? && WriterInside(g)) && NeverReopensOnWriter(Next(g, actions[0]), actions[1..]))
  }

  ghost predicate AlwaysFrozen(g: Gate, actions: seq<Action>)
    decreases |actions|
  {
    WritesFrozen(g) && (actions == [] || AlwaysFrozen(Next(g, actions[0]), actions[1..]))
  }

  // Over whole runs: the promise holds at every point exactly in the runs without that step.
  lemma {:induction false} FreezeHoldsInEveryRun(g: Gate, actions: seq<Action>)
    requires Locked(g) && WritesFrozen(g) && Runs(g, actions)
    ensures AlwaysFrozen(g, actions) <==> NeverReopensOnWriter(g, actions)
    decreases |actions|
  {
    if actions != [] {
      StepKeepsFreeze(g, actions[0]);
      if WritesFrozen(Next(g, actions[0])) {
        FreezeHoldsInEveryRun(Next(g, actions[0]), actions[1..]);
      }
    }
  }

  lemma {:induction false} LockHoldsInEveryRun(g: Gate, actions: seq<Action>)
    requires Locked(g) && Runs(g, actions)
    ensures Locked(After(g, actions))
    decreases |actions|
  {
    if actions != [] {
      var a, n := actions[0], Next(g, actions[0]);
      forall id | n.frozen && id in n.handlers ensures !HoldsRead(n.handlers[id]) {
        if a.Request? && a.id == id { } else { assert id in g.handlers; }
      }
      LockHoldsInEveryRun(n, actions[1..]);
    }
  }

  // When "prepared" becomes durable every admitted handler has been answered: in any run,
  // a freeze that journals finds no request holding the lock, and an offline one no server.
  lemma PreparedMeansDrained(g: Gate, actions: seq<Action>, a: Action)
    requires Locked(g) && Runs(g, actions) && Enabled(After(g, actions), a)
    requires a.Prepare? || a.PrepareOffline?
    ensures forall id :: id in After(g, actions).handlers ==> !HoldsRead(After(g, actions).handlers[id])
  {
    LockHoldsInEveryRun(g, actions);
  }

  // The failing run: the journal already says rolled_back when the worker, told by a failed
  // directory sync that it does not, replaces it; a handler admitted in between still writes.
  lemma ReopeningBreaksTheFreeze()
    ensures exists g: Gate, actions: seq<Action> ::
              Locked(g) && WritesFrozen(g) && Runs(g, actions) && !WritesFrozen(After(g, actions))
  {
    var g := Gate(true, map[0 := Handler(Guarded, Admitted)], false, Some(RollingBack));
    var actions := [Advance(RolledBack), Check(0, true), Reopen];
    var g1 := Next(g, actions[0]);
    var g2 := Next(g1, actions[1]);
    var g3 := Next(g2, actions[2]);
    assert actions[1..] == [Check(0, true), Reopen] && actions[1..][1..] == [Reopen] && actions[1..][1..][1..] == [];
    assert g1.phase == Some(RolledBack) && g2.phase == Some(RolledBack) && g2.handlers[0] == Handler(Guarded, Executing);
    assert Runs(g3, []) && Runs(g2, [Reopen]) && Runs(g1, [Check(0, true), Reopen]) && Runs(g, actions);
    assert After(g2, [Reopen]) == g3 && After(g1, [Check(0, true), Reopen]) == g3 && After(g, actions) == g3;
    assert 0 in g3.handlers && Writing(g3.handlers[0]);
  }
}
