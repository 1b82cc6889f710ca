/**
 What becomes of a start handler, told from the run: when it may clear another task's slot as
 stale, when it must leave, and when its worker comes to run.  A handler is known by its
 session id; sections of other threads may come between any two of its own.
 */
module LifecycleStarts {
  import opened SignSlots
  import opened Lifecycle
  import opened LifecycleStructure
  import LifecycleSlotLoss

  predicate Own(a: Action, t: Task) { a.StarterStep? && a.task == t }

  // The handler's own sections among the actions k to n - 1.
  function OwnSections(acts: seq<Action>, k: nat, n: nat, t: Task): nat
    requires k <= n <= |acts|
    decreases n
  {
    if k == n then 0 else OwnSections(acts, k, n - 1, t) + (if Own(acts[n - 1], t) then 1 else 0)
  }

  predicate Is(s: State, t: Task, g: SessionId) { t in s.starters && s.starters[t].sid == g }

  predicate StandsAt(s: State, t: Task, g: SessionId, pc: StartPc) { Is(s, t, g) && s.starters[t].pc == pc }

  // The handler has returned.
  ghost predicate Gone(s: State, g: SessionId) {
    g in s.taskOf && forall t :: t in s.starters ==> s.starters[t].sid != g
  }

  lemma UpTo(acts: seq<Action>, n: nat)
    requires n < |acts|
    ensures After(acts[..n + 1]) == Step(After(acts[..n]), acts[n])
  {
    assert acts[..n + 1][..n] == acts[..n];
  }

  lemma OthersKeepHandler(s: State, a: Action, t: Task)
    requires t in s.starters && !Own(a, t)
    ensures t in Step(s, a).starters && Step(s, a).starters[t] == s.starters[t]
  {
    match a
    case StarterStep(u, fails) => if u in s.starters { HandlerAlone(s, u, fails, t); }
    case AborterStep(c) => if c in s.aborters { AbortEffectFrame(s, s.aborters[c]); }
    case WorkerStep(g) => if g in s.workers && g in s.taskOf { WorkerFrame(s, g); }
    case ScanStep(c, pick) => if c in s.scans { ScanFrame(s, c, pick); }
    case _ =>
  }

  lemma HandlerAlone(s: State, u: Task, fails: bool, t: Task)
    requires u in s.starters && t in s.starters && t != u
    ensures t in DoStarter(s, u, fails).starters && DoStarter(s, u, fails).starters[t] == s.starters[t]
  {
  }

  lemma OwnMoves(s: State, t: Task, fails: bool)
    requires t in s.starters
    ensures s.starters[t].pc != Leave ==>
      t in DoStarter(s, t, fails).starters
      && DoStarter(s, t, fails).starters[t] == s.starters[t].(pc := StartNext(s, t, fails))
    ensures s.starters[t].pc == Leave ==> DoStarter(s, t, fails).starters == s.starters - {t}
  {
  }

  lemma StartersChange(s: State, a: Action)
    ensures forall t :: t in Step(s, a).starters ==>
      || (t in s.starters && Step(s, a).starters[t].sid == s.starters[t].sid)
      || (t !in s.starters && Step(s, a).starters[t].sid == s.nextSid)
    ensures s.taskOf.Keys <= Step(s, a).taskOf.Keys
  {
    match a
    case StarterStep(u, fails) => if u in s.starters { HandlerChange(s, u, fails); }
    case AborterStep(c) => if c in s.aborters { AbortEffectFrame(s, s.aborters[c]); }
    case WorkerStep(g) => if g in s.workers && g in s.taskOf { WorkerFrame(s, g); }
    case ScanStep(c, pick) => if c in s.scans { ScanFrame(s, c, pick); }
    case _ =>
  }

  lemma HandlerChange(s: State, u: Task, fails: bool)
    requires u in s.starters
    ensures forall t :: t in DoStarter(s, u, fails).starters ==>
      t in s.starters && DoStarter(s, u, fails).starters[t].sid == s.starters[t].sid
    ensures DoStarter(s, u, fails).taskOf == s.taskOf
  {
    OwnMoves(s, u, fails);
    if s.starters[u].pc != Register { StartEffectFrame(s, u, fails); }
  }

  lemma GoneStays(s: State, a: Action, g: SessionId)
    requires Structure(s) && Gone(s, g)
    ensures Gone(Step(s, a), g)
  {
    StartersChange(s, a);
  }

  lemma ClosedGrows(s: State, a: Action)
    ensures s.closed <= Step(s, a).closed
  {
    match a
    case StarterStep(u, fails) =>
      if u in s.starters && s.starters[u].pc != Register { StartEffectFrame(s, u, fails); }
    case AborterStep(c) => if c in s.aborters { AbortKeepsClosed(s, s.aborters[c]); }
    case WorkerStep(g) => if g in s.workers && g in s.taskOf { WorkerFrame(s, g); }
    case ScanStep(c, pick) => if c in s.scans { ScanFrame(s, c, pick); }
    case _ =>
  }

  lemma AbortKeepsClosed(s: State, a: Aborter)
    ensures s.closed <= AbortEffect(s, a).closed
  {
    if a.pc == EndSlot { EndTaskFrame(s, a.task); }
  }

  // ---- A stale clear is justified ----

  // At action k the handler reads who uses its key: another task.
  ghost predicate ReadsOwner(acts: seq<Action>, k: nat, t: Task, g: SessionId, busy: Task) {
    && k < |acts| && Own(acts[k], t)
    && var s := After(acts[..k]);
      && StandsAt(s, t, g, Busy) && s.starters[t].key in s.signSlots.byKey
      && s.signSlots.byKey[s.starters[t].key] == busy && busy != t
  }

  ghost predicate HadSession(acts: seq<Action>, m: nat, busy: Task, prior: SessionId) {
    m <= |acts| && var s := After(acts[..m]); busy in s.sessions && s.sessions[busy] == prior
  }

  // Before action m the task had no session in the map, or one that is closed in state s.
  ghost predicate StaleAt(acts: seq<Action>, m: nat, busy: Task, s: State) {
    m <= |acts| && var at := After(acts[..m]); busy !in at.sessions || at.sessions[busy] in s.closed
  }

  ghost predicate Reading(acts: seq<Action>, n: nat, t: Task, g: SessionId, busy: Task) {
    exists k: nat :: k < n && ReadsOwner(acts, k, t, g, busy)
  }

  ghost predicate ReadingOpen(acts: seq<Action>, n: nat, t: Task, g: SessionId, busy: Task, prior: SessionId) {
    exists k: nat, m: nat :: k < m < n && ReadsOwner(acts, k, t, g, busy) && HadSession(acts, m, busy, prior)
  }

  ghost predicate FoundStale(acts: seq<Action>, n: nat, t: Task, g: SessionId, busy: Task) {
    exists k: nat, m: nat ::
      k < m < n <= |acts| && ReadsOwner(acts, k, t, g, busy) && StaleAt(acts, m, busy, After(acts[..n]))
  }

  // How the handler has come where it is.
  ghost predicate Came(acts: seq<Action>, n: nat, t: Task)
    requires n <= |acts|
  {
    var s := After(acts[..n]);
    t in s.starters ==>
      match s.starters[t].pc
      case LookOld(busy) => Reading(acts, n, t, s.starters[t].sid, busy)
      case OldClosed(busy, prior) => ReadingOpen(acts, n, t, s.starters[t].sid, busy, prior)
      case ClearStale(busy) => FoundStale(acts, n, t, s.starters[t].sid, busy)
      case _ => true
  }

  lemma CameStays(acts: seq<Action>, n: nat, t: Task)
    requires n < |acts| && Came(acts, n, t) && !Own(acts[n], t)
    ensures Came(acts, n + 1, t)
  {
    var s, s' := After(acts[..n]), After(acts[..n + 1]);
    UpTo(acts, n);
    ClosedGrows(s, acts[n]);
    if t in s.starters {
      OthersKeepHandler(s, acts[n], t);
      match s.starters[t].pc
      case ClearStale(busy) =>
        var k: nat, m: nat :| k < m < n && ReadsOwner(acts, k, t, s.starters[t].sid, busy) && StaleAt(acts, m, busy, s);
        assert StaleAt(acts, m, busy, s');
      case _ =>
    } else if t in s'.starters {
      NewHandler(s, acts[n], t);
    }
  }

  lemma NewHandler(s: State, a: Action, t: Task)
    requires t !in s.starters && t in Step(s, a).starters
    ensures Step(s, a).starters[t].pc == Check
  {
    match a
    case StarterStep(u, fails) => if u in s.starters { HandlerChange(s, u, fails); }
    case AborterStep(c) => if c in s.aborters { AbortEffectFrame(s, s.aborters[c]); }
    case WorkerStep(g) => if g in s.workers && g in s.taskOf { WorkerFrame(s, g); }
    case ScanStep(c, pick) => if c in s.scans { ScanFrame(s, c, pick); }
    case _ =>
  }

  lemma CameMoves(acts: seq<Action>, n: nat, t: Task)
    requires n < |acts| && Came(acts, n, t) && Own(acts[n], t) && t in After(acts[..n]).starters
    ensures Came(acts, n + 1, t)
  {
    var s, s' := After(acts[..n]), After(acts[..n + 1]);
    var g := s.starters[t].sid;
    UpTo(acts, n);
    OwnMoves(s, t, acts[n].fails);
    ClosedGrows(s, acts[n]);
    match s.starters[t].pc
    case Busy =>
      if s'.starters[t].pc.LookOld? { assert ReadsOwner(acts, n, t, g, s'.starters[t].pc.busy); }
    case LookOld(busy) =>
      var k: nat :| k < n && ReadsOwner(acts, k, t, g, busy);
      if busy in s.sessions { assert HadSession(acts, n, busy, s.sessions[busy]); }
      assert busy !in s.sessions ==> StaleAt(acts, n, busy, s');
    case OldClosed(busy, prior) =>
      var k: nat, m: nat :| k < m < n && ReadsOwner(acts, k, t, g, busy) && HadSession(acts, m, busy, prior);
      if prior in s.closed { assert StaleAt(acts, m, busy, s'); }
    case _ =>
  }

  lemma {:induction false} CameHolds(acts: seq<Action>, n: nat, t: Task)
    requires n <= |acts|
    ensures Came(acts, n, t)
    decreases n
  {
    if n > 0 {
      CameHolds(acts, n - 1, t);
      if !Own(acts[n - 1], t) {
        CameStays(acts, n - 1, t);
      } else if t in After(acts[..n - 1]).starters {
        CameMoves(acts, n - 1, t);
      } else {
        UpTo(acts, n - 1);
      }
    }
  }

  // A handler's section takes the slot of another task away only if, since the handler read
  // that this task uses its key, the task had no session in the map, or one closed by now.
  lemma StaleClearIsJustified(acts: seq<Action>, j: nat, t: Task, busy: Task)
    requires j < |acts| && Own(acts[j], t) && busy != t
    requires HoldsSlot(After(acts[..j]), busy) && !HoldsSlot(After(acts[..j + 1]), busy)
    ensures t in After(acts[..j]).starters
    ensures FoundStale(acts, j, t, After(acts[..j]).starters[t].sid, busy)
  {
    UpTo(acts, j);
    LifecycleSlotLoss.StepHolds(After(acts[..j]), acts[j], busy);
    CameHolds(acts, j, t);
  }

  // ---- An owner with an open session turns the handler away ----

  // Turned away after so many further sections of its own, the last of which is its return.
  ghost predicate TurnedAway(s: State, t: Task, g: SessionId, busy: Task, prior: SessionId, sections: nat) {
    || Gone(s, g)
    || (StandsAt(s, t, g, LookOld(busy)) && sections == 0)
    || (StandsAt(s, t, g, OldClosed(busy, prior)) && sections <= 1)
    || (StandsAt(s, t, g, Leave) && sections <= 2)
  }

  ghost predicate HasOpenSession(s: State, busy: Task, prior: SessionId) {
    busy in s.sessions && s.sessions[busy] == prior && prior !in s.closed
  }

  lemma LeavesGone(s: State, t: Task, g: SessionId, fails: bool)
    requires Structure(s) && StandsAt(s, t, g, Leave)
    ensures Gone(DoStarter(s, t, fails), g)
  {
    OwnMoves(s, t, fails);
    assert OwnedBy(s, g, t);
    forall u | u in s.starters && u != t ensures s.starters[u].sid != g {
      assert OwnedBy(s, s.starters[u].sid, u);
    }
  }

  lemma TurnedAwayMoves(s: State, t: Task, g: SessionId, fails: bool, busy: Task, prior: SessionId, sections: nat)
    requires Structure(s) && TurnedAway(s, t, g, busy, prior, sections) && HasOpenSession(s, busy, prior)
    requires t in s.starters
    ensures TurnedAway(DoStarter(s, t, fails), t, g, busy, prior, sections + 1)
  {
    if Gone(s, g) {
      GoneStays(s, StarterStep(t, fails), g);
    } else if s.starters[t].pc == Leave {
      LeavesGone(s, t, g, fails);
    } else {
      OwnMoves(s, t, fails);
    }
  }

  lemma TurnedAwayStays(s: State, a: Action, t: Task, g: SessionId, busy: Task, prior: SessionId, sections: nat)
    requires Structure(s) && TurnedAway(s, t, g, busy, prior, sections) && !Own(a, t)
    ensures TurnedAway(Step(s, a), t, g, busy, prior, sections)
  {
    if Gone(s, g) { GoneStays(s, a, g); } else { OthersKeepHandler(s, a, t); }
  }

  lemma TurnedAwayStep(s: State, a: Action, t: Task, g: SessionId, busy: Task, prior: SessionId, sections: nat)
    requires Structure(s) && TurnedAway(s, t, g, busy, prior, sections) && HasOpenSession(s, busy, prior)
    ensures TurnedAway(Step(s, a), t, g, busy, prior, sections + (if Own(a, t) then 1 else 0))
  {
    if !Own(a, t) {
      TurnedAwayStays(s, a, t, g, busy, prior, sections);
    } else if t in s.starters {
      TurnedAwayMoves(s, t, g, a.fails, busy, prior, sections);
    } else {
      GoneStays(s, a, g);
    }
  }

  lemma ReadsAndLooks(s: State, t: Task, g: SessionId, fails: bool, busy: Task, prior: SessionId)
    requires StandsAt(s, t, g, Busy) && busy != t
    requires s.starters[t].key in s.signSlots.byKey && s.signSlots.byKey[s.starters[t].key] == busy
    ensures TurnedAway(DoStarter(s, t, fails), t, g, busy, prior, 0)
  {
    OwnMoves(s, t, fails);
  }

  ghost predicate OpenAt(acts: seq<Action>, m: nat, busy: Task, prior: SessionId) {
    m <= |acts| && HasOpenSession(After(acts[..m]), busy, prior)
  }

  ghost predicate TurnedAwayBy(acts: seq<Action>, k: nat, n: nat, t: Task, g: SessionId, busy: Task, prior: SessionId)
    requires k < n <= |acts|
  {
    TurnedAway(After(acts[..n]), t, g, busy, prior, OwnSections(acts, k + 1, n, t))
  }

  lemma TurnsAwayFirst(acts: seq<Action>, k: nat, t: Task, g: SessionId, busy: Task, prior: SessionId)
    requires ReadsOwner(acts, k, t, g, busy)
    ensures TurnedAwayBy(acts, k, k + 1, t, g, busy, prior)
  {
    UpTo(acts, k);
    ReadsAndLooks(After(acts[..k]), t, g, acts[k].fails, busy, prior);
  }

  lemma TurnsAwayNext(acts: seq<Action>, k: nat, n: nat, t: Task, g: SessionId, busy: Task, prior: SessionId)
    requires k < n < |acts| && TurnedAwayBy(acts, k, n, t, g, busy, prior) && OpenAt(acts, n, busy, prior)
    ensures TurnedAwayBy(acts, k, n + 1, t, g, busy, prior)
  {
    UpTo(acts, n);
    StructureHolds(acts[..n]);
    TurnedAwayStep(After(acts[..n]), acts[n], t, g, busy, prior, OwnSections(acts, k + 1, n, t));
  }

  // A handler that read that another task uses its key, while that task's session is
  // registered and open from then on, comes nowhere but to its return, and has returned after
  // three further sections of its own.
  lemma {:induction false} OpenSessionTurnsAway(acts: seq<Action>, k: nat, n: nat, t: Task, g: SessionId,
                                                busy: Task, prior: SessionId)
    requires ReadsOwner(acts, k, t, g, busy) && k < n <= |acts|
    requires forall m: nat :: k <= m < n ==> OpenAt(acts, m, busy, prior)
    ensures TurnedAwayBy(acts, k, n, t, g, busy, prior)
    decreases n
  {
    if n == k + 1 {
      TurnsAwayFirst(acts, k, t, g, busy, prior);
    } else {
      OpenSessionTurnsAway(acts, k, n - 1, t, g, busy, prior);
      TurnsAwayNext(acts, k, n - 1, t, g, busy, prior);
    }
  }

  // A section of such a handler leaves every slot and every session as it is.
  lemma TurnedAwayTakesNothing(s: State, t: Task, g: SessionId, fails: bool, busy: Task, prior: SessionId,
                               sections: nat)
    requires TurnedAway(s, t, g, busy, prior, sections) && Is(s, t, g)
    ensures var s' := DoStarter(s, t, fails);
      && s'.signSlots == s.signSlots && s'.keygenActive == s.keygenActive && s'.sessions == s.sessions
      && s'.workers == s.workers && s'.closed == s.closed
  {
  }

  lemma OpenSessionKeepsSlots(acts: seq<Action>, k: nat, n: nat, t: Task, g: SessionId, busy: Task, prior: SessionId)
    requires ReadsOwner(acts, k, t, g, busy) && k < n < |acts|
    requires forall m: nat :: k <= m < n ==> OpenAt(acts, m, busy, prior)
    requires Own(acts[n], t) && Is(After(acts[..n]), t, g)
    ensures var s, s' := After(acts[..n]), After(acts[..n + 1]);
      && s'.signSlots == s.signSlots && s'.keygenActive == s.keygenActive && s'.sessions == s.sessions
      && s'.workers == s.workers && s'.closed == s.closed
  {
    OpenSessionTurnsAway(acts, k, n, t, g, busy, prior);
    UpTo(acts, n);
    TurnedAwayTakesNothing(After(acts[..n]), t, g, acts[n].fails, busy, prior, OwnSections(acts, k + 1, n, t));
  }
}
