/**
 What a start handler comes to.  A task that holds its slot is not begun again, so a session
 whose slot is still held is never pushed out of the map; a handler nothing stands in the way
 of gets its worker to run; a marked one does not, and calls an abort it waits for.
 */
module LifecycleBegins {
  import opened SignSlots
  import opened Lifecycle
  import opened LifecycleStructure
  import opened LifecycleStarts
  import LifecycleSlots

  // ---- A begin while the slot is held ----

  // On its way out, and its session has been put nowhere.
  ghost predicate Out(s: State, t: Task, g: SessionId) {
    && (Gone(s, g) || StandsAt(s, t, g, Leave))
    && g !in s.workers && (forall u :: u in s.sessions ==> s.sessions[u] != g)
  }

  // A section adds to the map and to the workers only the handler's own session.
  lemma HandlerAdds(s: State, u: Task, fails: bool)
    requires u in s.starters
    ensures var s', g := DoStarter(s, u, fails), s.starters[u].sid;
      && (s'.sessions == s.sessions || (s.starters[u].pc == Register && s'.sessions == s.sessions[u := g]))
      && (s'.workers == s.workers
          || (s.starters[u].pc == Spawn && s'.workers == s.workers[g := Worker(s.starters[u].single, Running)]))
  {
    if s.starters[u].pc == Spawn {
      assert StartEffect(s, u, fails).sessions == s.sessions;
    } else {
      LifecycleSlots.IdleHandlerWorkers(s, u, fails);
      if s.starters[u].pc != Register { StartEffectFrame(s, u, fails); }
    }
  }

  lemma OtherStepsAddNothing(s: State, a: Action)
    requires !a.StarterStep?
    ensures forall u :: u in Step(s, a).sessions ==> u in s.sessions && Step(s, a).sessions[u] == s.sessions[u]
    ensures forall g :: g in Step(s, a).workers ==> g in s.workers
  {
    match a
    case AborterStep(c) =>
      if c in s.aborters {
        AbortEffectFrame(s, s.aborters[c]);
        if s.aborters[c].pc != Unregister { AbortEffectSessions(s, s.aborters[c]); }
      }
    case WorkerStep(g) => if g in s.workers && g in s.taskOf { WorkerFrame(s, g); }
    case ScanStep(c, pick) => if c in s.scans { ScanFrame(s, c, pick); }
    case _ =>
  }

  lemma OutStays(s: State, a: Action, t: Task, g: SessionId)
    requires Structure(s) && Out(s, t, g)
    ensures Out(Step(s, a), t, g)
  {
    OutGoes(s, a, t, g);
    if !a.StarterStep? {
      OtherStepsAddNothing(s, a);
    } else if a.task in s.starters {
      HandlerAdds(s, a.task, a.fails);
      OutHasNoOtherHandler(s, t, g, a.task);
    }
  }

  lemma OutHasNoOtherHandler(s: State, t: Task, g: SessionId, u: Task)
    requires Structure(s) && Out(s, t, g) && u in s.starters
    ensures s.starters[u].sid == g ==> s.starters[u].pc == Leave
  {
    if s.starters[u].sid == g { assert OwnedBy(s, g, u); }
  }

  lemma OutGoes(s: State, a: Action, t: Task, g: SessionId)
    requires Structure(s) && Out(s, t, g)
    ensures Gone(Step(s, a), g) || StandsAt(Step(s, a), t, g, Leave)
  {
    if Gone(s, g) {
      GoneStays(s, a, g);
    } else if Own(a, t) {
      LeavesGone(s, t, g, a.fails);
    } else {
      OthersKeepHandler(s, a, t);
    }
  }

  // What turns a handler away before it has begun: a mark or a failure at the entry check, a
  // failure up to the busy check, an empty key, and, when it comes to begin, its slot or its
  // key being held, or a failure of the threshold keygen handler.
  ghost predicate Refuses(s: State, t: Task, fails: bool)
    requires t in s.starters
  {
    var st := s.starters[t];
    match st.pc
    case Check => fails || t in s.marked
    case Stop1 => fails
    case Busy => fails || st.key == ""
    case BeginSlot =>
      || HoldsSlot(s, t)
      || (t.kind == Sign && (st.key == "" || (st.key in s.signSlots.byKey && s.signSlots.byKey[st.key] != t)))
      || (t.kind == Keygen && fails && !st.single)
    case _ => false
  }

  lemma RefusalLeaves(s: State, t: Task, g: SessionId, fails: bool)
    requires Structure(s) && Is(s, t, g) && Refuses(s, t, fails)
    ensures Out(DoStarter(s, t, fails), t, g)
  {
    OwnMoves(s, t, fails);
    HandlerAdds(s, t, fails);
    assert Untouched(s, t, g);
    forall u | u in s.sessions ensures s.sessions[u] != g {
      assert OwnedBy(s, s.sessions[u], u) && OwnedBy(s, g, t);
    }
  }

  lemma {:induction false} OutFrom(acts: seq<Action>, k: nat, n: nat, t: Task, g: SessionId)
    requires k <= n <= |acts| && Out(After(acts[..k]), t, g)
    ensures Out(After(acts[..n]), t, g)
    decreases n
  {
    if k < n {
      OutFrom(acts, k, n - 1, t, g);
      UpTo(acts, n - 1);
      StructureHolds(acts[..n - 1]);
      OutStays(After(acts[..n - 1]), acts[n - 1], t, g);
    }
  }

  // A handler turned away at a section of its own is on its way out from then on, and its
  // session never gets into the map nor has a worker.
  lemma RefusedHandlerLeaves(acts: seq<Action>, k: nat, n: nat, t: Task, g: SessionId)
    requires k < n <= |acts| && Own(acts[k], t)
    requires Is(After(acts[..k]), t, g) && Refuses(After(acts[..k]), t, acts[k].fails)
    ensures Out(After(acts[..n]), t, g)
  {
    UpTo(acts, k);
    StructureHolds(acts[..k]);
    RefusalLeaves(After(acts[..k]), t, g, acts[k].fails);
    OutFrom(acts, k + 1, n, t, g);
  }

  // A handler that comes to its begin section while its task, of either kind, holds its slot
  // takes the way out: from then on it is leaving or gone, and its session is neither in the
  // map nor has it a worker.
  lemma BeginRefusedWhileHeld(acts: seq<Action>, k: nat, n: nat, t: Task, g: SessionId)
    requires k < n <= |acts| && Own(acts[k], t)
    requires StandsAt(After(acts[..k]), t, g, BeginSlot) && HoldsSlot(After(acts[..k]), t)
    ensures Out(After(acts[..n]), t, g)
  {
    RefusedHandlerLeaves(acts, k, n, t, g);
  }

  // A begin section reached with slot and key free.
  ghost predicate MayGoOn(s: State, t: Task)
    requires t in s.starters
  {
    !HoldsSlot(s, t) && (t.kind == Sign ==> s.starters[t].key != "" && s.starters[t].key !in s.signSlots.byKey)
  }

  lemma FreeSlotTaken(s: State, t: Task, g: SessionId)
    requires StandsAt(s, t, g, BeginSlot) && MayGoOn(s, t)
    ensures var s' := DoStarter(s, t, false); HoldsSlot(s', t) && StandsAt(s', t, g, Register)
  {
    OwnMoves(s, t, false);
    LifecycleSlots.HandlerSlot(s, t, false, t);
  }

  lemma RegisterPuts(s: State, t: Task, g: SessionId, fails: bool)
    requires StandsAt(s, t, g, Register)
    ensures var s' := DoStarter(s, t, fails); t in s'.sessions && s'.sessions[t] == g && StandsAt(s', t, g, Stop3)
  {
    OwnMoves(s, t, fails);
  }

  lemma {:induction false} WaitsBetweenSections(acts: seq<Action>, k: nat, n: nat, t: Task, g: SessionId, pc: StartPc)
    requires k <= n <= |acts| && StandsAt(After(acts[..k]), t, g, pc) && OwnSections(acts, k, n, t) == 0
    ensures StandsAt(After(acts[..n]), t, g, pc)
    decreases n
  {
    if k < n {
      WaitsBetweenSections(acts, k, n - 1, t, g, pc);
      StillStands(acts, n - 1, t, g, pc);
    }
  }

  lemma StillStands(acts: seq<Action>, n: nat, t: Task, g: SessionId, pc: StartPc)
    requires n < |acts| && StandsAt(After(acts[..n]), t, g, pc) && !Own(acts[n], t)
    ensures StandsAt(After(acts[..n + 1]), t, g, pc)
  {
    UpTo(acts, n);
    OthersKeepHandler(After(acts[..n]), acts[n], t);
  }

  // With slot and key free, and no failure, it takes the slot, and its next section puts its
  // session into the map.
  lemma BeginGrantedWhenFree(acts: seq<Action>, k: nat, n: nat, t: Task, g: SessionId)
    requires k < n < |acts| && acts[k] == StarterStep(t, false) && Own(acts[n], t)
    requires OwnSections(acts, k + 1, n, t) == 0
    requires StandsAt(After(acts[..k]), t, g, BeginSlot) && MayGoOn(After(acts[..k]), t)
    ensures HoldsSlot(After(acts[..k + 1]), t)
    ensures t in After(acts[..n + 1]).sessions && After(acts[..n + 1]).sessions[t] == g
  {
    UpTo(acts, k);
    FreeSlotTaken(After(acts[..k]), t, g);
    WaitsBetweenSections(acts, k + 1, n, t, g, Register);
    UpTo(acts, n);
    RegisterPuts(After(acts[..n]), t, g, acts[n].fails);
  }

  // ---- A session whose slot is still held stays in the map or is taken out by its own end ----

  // Not past its begin section.
  ghost predicate NotBegun(pc: StartPc) {
    !pc.Register? && !pc.Stop3? && !pc.Spawn? && (pc.Aborting? ==> !pc.registered)
  }

  ghost predicate Guarded(s: State, t: Task, g: SessionId) {
    g !in s.replaced && OwnedBy(s, g, t)
    && (t in s.starters && s.starters[t].sid != g ==> NotBegun(s.starters[t].pc))
  }

  lemma HandlerReplaces(s: State, u: Task, fails: bool)
    requires u in s.starters
    ensures forall g :: g in DoStarter(s, u, fails).replaced && g !in s.replaced ==>
      s.starters[u].pc == Register && u in s.sessions && s.sessions[u] == g && s.starters[u].sid != g
  {
    if s.starters[u].pc != Register { StartEffectFrame(s, u, fails); }
  }

  lemma OthersReplaceNothing(s: State, a: Action)
    requires !a.StarterStep?
    ensures Step(s, a).replaced == s.replaced && forall g :: g in s.taskOf ==>
      g in Step(s, a).taskOf && (a.StartTask? || Step(s, a).taskOf[g] == s.taskOf[g])
  {
    match a
    case AborterStep(c) => if c in s.aborters { AbortEffectFrame(s, s.aborters[c]); }
    case WorkerStep(g) => if g in s.workers && g in s.taskOf { WorkerFrame(s, g); }
    case ScanStep(c, pick) => if c in s.scans { ScanFrame(s, c, pick); }
    case _ =>
  }

  lemma OwnHandlerGuards(s: State, t: Task, g: SessionId, fails: bool)
    requires Structure(s) && Guarded(s, t, g) && HoldsSlot(s, t) && t in s.starters
    ensures Guarded(DoStarter(s, t, fails), t, g)
  {
    HandlerReplaces(s, t, fails);
    HandlerChange(s, t, fails);
    OwnMoves(s, t, fails);
    if s.starters[t].pc == BeginSlot && s.starters[t].sid != g { RefusalLeaves(s, t, s.starters[t].sid, fails); }
  }

  lemma OtherHandlerGuards(s: State, t: Task, g: SessionId, u: Task, fails: bool)
    requires Structure(s) && Guarded(s, t, g) && u in s.starters && u != t
    ensures Guarded(DoStarter(s, u, fails), t, g)
  {
    HandlerReplaces(s, u, fails);
    HandlerChange(s, u, fails);
    if t in s.starters { HandlerAlone(s, u, fails, t); } else { assert t !in DoStarter(s, u, fails).starters; }
    if u in s.sessions { assert OwnedBy(s, s.sessions[u], u); }
  }

  lemma GuardStays(s: State, a: Action, t: Task, g: SessionId)
    requires Structure(s) && Guarded(s, t, g) && HoldsSlot(s, t)
    ensures Guarded(Step(s, a), t, g)
  {
    if a.StarterStep? {
      if a.task in s.starters {
        if a.task == t { OwnHandlerGuards(s, t, g, a.fails); } else { OtherHandlerGuards(s, t, g, a.task, a.fails); }
      }
    } else {
      OthersReplaceNothing(s, a);
      if t in s.starters { OthersKeepHandler(s, a, t); } else if t in Step(s, a).starters { NewHandler(s, a, t); }
      assert OwnedBy(Step(s, a), g, t);
    }
  }

  ghost predicate HeldAt(acts: seq<Action>, m: nat, t: Task) { m <= |acts| && HoldsSlot(After(acts[..m]), t) }

  lemma BeginGuards(acts: seq<Action>, i: nat, t: Task, g: SessionId)
    requires i < |acts| && Own(acts[i], t) && StandsAt(After(acts[..i]), t, g, BeginSlot)
    ensures Guarded(After(acts[..i + 1]), t, g)
  {
    var s := After(acts[..i]);
    UpTo(acts, i);
    StructureHolds(acts[..i]);
    HandlerReplaces(s, t, acts[i].fails);
    HandlerChange(s, t, acts[i].fails);
    assert Untouched(s, t, g) && OwnedBy(s, g, t);
  }

  lemma GuardNext(acts: seq<Action>, n: nat, t: Task, g: SessionId)
    requires n < |acts| && Guarded(After(acts[..n]), t, g) && HeldAt(acts, n, t)
    ensures Guarded(After(acts[..n + 1]), t, g)
  {
    UpTo(acts, n);
    StructureHolds(acts[..n]);
    GuardStays(After(acts[..n]), acts[n], t, g);
  }

  // A session that has begun is never pushed out of the map while its task holds the slot.
  lemma {:induction false} HeldSlotGuardsSession(acts: seq<Action>, i: nat, n: nat, t: Task, g: SessionId)
    requires i < n <= |acts| && Own(acts[i], t) && StandsAt(After(acts[..i]), t, g, BeginSlot)
    requires forall m: nat :: i < m < n ==> HeldAt(acts, m, t)
    ensures Guarded(After(acts[..n]), t, g)
    ensures g !in After(acts[..n]).replaced
    decreases n
  {
    if n == i + 1 {
      BeginGuards(acts, i, t, g);
    } else {
      HeldSlotGuardsSession(acts, i, n - 1, t, g);
      GuardNext(acts, n - 1, t, g);
    }
  }

  // ---- A handler that nothing stands in the way of ----

  // What it meets at a section of its own: no mark, no failure, a stale owner of its key at
  // most, and slot and key free when it begins.
  ghost predicate Clear(s: State, t: Task)
    requires t in s.starters
  {
    && t !in s.marked
    && match s.starters[t].pc
       case Busy => s.starters[t].key != ""
       case LookOld(busy) => busy !in s.sessions || s.sessions[busy] in s.closed
       case BeginSlot => MayGoOn(s, t)
       case _ => true
  }

  ghost predicate ClearAt(acts: seq<Action>, m: nat, t: Task, g: SessionId) {
    m < |acts| && (Own(acts[m], t) && Is(After(acts[..m]), t, g) ==> !acts[m].fails && Clear(After(acts[..m]), t))
  }

  // How many sections it is from spawning its worker, at most.
  function Rest(pc: StartPc): nat {
    match pc
    case Check => 11
    case Stop1 => 10
    case Busy => 9
    case LookOld(_) => 8
    case OldClosed(_, _) => 7
    case ClearStale(_) => 6
    case Stop2 => 5
    case BeginSlot => 4
    case Register => 3
    case Stop3 => 2
    case Spawn => 1
    case Aborting(_, _) | Leave => 0
  }

  ghost predicate OnItsWay(s: State, t: Task, g: SessionId) {
    && Is(s, t, g) && !s.starters[t].pc.Leave? && !s.starters[t].pc.Aborting?
    && (s.starters[t].pc.OldClosed? ==> s.starters[t].pc.prior in s.closed)
  }

  lemma ClearSectionGoesOn(s: State, t: Task, g: SessionId)
    requires OnItsWay(s, t, g) && Clear(s, t) && s.starters[t].pc != Spawn
    ensures OnItsWay(DoStarter(s, t, false), t, g)
    ensures Rest(DoStarter(s, t, false).starters[t].pc) < Rest(s.starters[t].pc)
    ensures DoStarter(s, t, false).starters[t].single == s.starters[t].single
  {
    OwnMoves(s, t, false);
    ClosedGrows(s, StarterStep(t, false));
  }

  lemma SpawnRuns(s: State, t: Task, g: SessionId, fails: bool)
    requires StandsAt(s, t, g, Spawn)
    ensures var s' := DoStarter(s, t, fails); g in s'.workers && s'.workers[g] == Worker(s.starters[t].single, Running)
  {
  }

  // Its worker runs, a single-key one or a threshold one.
  ghost predicate RunsAt(acts: seq<Action>, m: nat, g: SessionId, single: bool) {
    m <= |acts| && g in After(acts[..m]).workers && After(acts[..m]).workers[g] == Worker(single, Running)
  }

  ghost predicate HasRun(acts: seq<Action>, n: nat, g: SessionId, single: bool) {
    exists m: nat :: m <= n && RunsAt(acts, m, g, single)
  }

  ghost predicate ComesToRun(acts: seq<Action>, k: nat, n: nat, t: Task, g: SessionId, single: bool, rest: nat)
    requires k <= n <= |acts|
  {
    || HasRun(acts, n, g, single)
    || (OnItsWay(After(acts[..n]), t, g) && After(acts[..n]).starters[t].single == single
        && Rest(After(acts[..n]).starters[t].pc) + OwnSections(acts, k, n, t) <= rest)
  }

  lemma OnItsWayStays(s: State, a: Action, t: Task, g: SessionId)
    requires OnItsWay(s, t, g) && !Own(a, t)
    ensures OnItsWay(Step(s, a), t, g) && Step(s, a).starters[t] == s.starters[t]
  {
    OthersKeepHandler(s, a, t);
    ClosedGrows(s, a);
  }

  lemma ComesNearer(acts: seq<Action>, k: nat, n: nat, t: Task, g: SessionId, single: bool, rest: nat)
    requires k <= n < |acts| && ComesToRun(acts, k, n, t, g, single, rest) && ClearAt(acts, n, t, g)
    ensures ComesToRun(acts, k, n + 1, t, g, single, rest)
  {
    var s := After(acts[..n]);
    UpTo(acts, n);
    if HasRun(acts, n, g, single) {
      var m: nat :| m <= n && RunsAt(acts, m, g, single);
      assert HasRun(acts, n + 1, g, single);
    } else if !Own(acts[n], t) {
      OnItsWayStays(s, acts[n], t, g);
    } else if s.starters[t].pc == Spawn {
      SpawnRuns(s, t, g, acts[n].fails);
      assert RunsAt(acts, n + 1, g, single);
    } else {
      ClearSectionGoesOn(s, t, g);
    }
  }

  lemma {:induction false} ComesToRunFrom(acts: seq<Action>, k: nat, n: nat, t: Task, g: SessionId)
    requires k <= n <= |acts| && OnItsWay(After(acts[..k]), t, g)
    requires forall m: nat :: k <= m < n ==> ClearAt(acts, m, t, g)
    ensures ComesToRun(acts, k, n, t, g, After(acts[..k]).starters[t].single, Rest(After(acts[..k]).starters[t].pc))
    decreases n
  {
    if k < n {
      ComesToRunFrom(acts, k, n - 1, t, g);
      var st := After(acts[..k]).starters[t];
      ComesNearer(acts, k, n - 1, t, g, st.single, Rest(st.pc));
    }
  }

  // A handler, of either kind, whose task is not marked, whose sections do not fail, that
  // meets at most a stale owner of its key, and finds slot and key free when it begins, has
  // its worker running after at most eleven sections.
  lemma ClearHandlerRuns(acts: seq<Action>, k: nat, n: nat, t: Task, g: SessionId)
    requires k <= n <= |acts| && StandsAt(After(acts[..k]), t, g, Check)
    requires forall m: nat :: k <= m < n ==> ClearAt(acts, m, t, g)
    requires OwnSections(acts, k, n, t) >= 11
    ensures HasRun(acts, n, g, After(acts[..k]).starters[t].single)
  {
    ComesToRunFrom(acts, k, n, t, g);
  }

  // ---- A stale owner does not hold up a handler ----

  ghost predicate BeginsAt(acts: seq<Action>, m: nat, t: Task, g: SessionId) {
    m <= |acts| && StandsAt(After(acts[..m]), t, g, BeginSlot)
  }

  ghost predicate ComesToBegin(acts: seq<Action>, k: nat, n: nat, t: Task, g: SessionId)
    requires k <= n <= |acts|
  {
    || (exists m: nat :: k < m <= n && BeginsAt(acts, m, t, g))
    || (OnItsWay(After(acts[..n]), t, g)
        && 4 < Rest(After(acts[..n]).starters[t].pc)
        && Rest(After(acts[..n]).starters[t].pc) + OwnSections(acts, k, n, t) <= 9)
  }

  lemma ClearSectionToBegin(s: State, t: Task, g: SessionId)
    requires OnItsWay(s, t, g) && Clear(s, t) && 4 < Rest(s.starters[t].pc)
    ensures 4 <= Rest(DoStarter(s, t, false).starters[t].pc)
  {
    OwnMoves(s, t, false);
  }

  lemma ComesNearerBegin(acts: seq<Action>, k: nat, n: nat, t: Task, g: SessionId)
    requires k <= n < |acts| && ComesToBegin(acts, k, n, t, g) && ClearAt(acts, n, t, g)
    ensures ComesToBegin(acts, k, n + 1, t, g)
  {
    var s := After(acts[..n]);
    UpTo(acts, n);
    if m: nat :| k < m <= n && BeginsAt(acts, m, t, g) {
      assert k < m <= n + 1;
    } else if !Own(acts[n], t) {
      OnItsWayStays(s, acts[n], t, g);
    } else {
      ClearSectionGoesOn(s, t, g);
      ClearSectionToBegin(s, t, g);
      if Rest(Step(s, acts[n]).starters[t].pc) == 4 { assert BeginsAt(acts, n + 1, t, g); }
    }
  }

  // A handler that reads that another task uses its key, and finds that task without a session
  // or with a closed one, goes on to its own begin section, within five sections of its own.
  lemma {:induction false} StaleOwnerPassed(acts: seq<Action>, k: nat, n: nat, t: Task, g: SessionId, busy: Task)
    requires k <= n <= |acts| && ReadsOwner(acts, k, t, g, busy)
    requires forall m: nat :: k <= m < n ==> ClearAt(acts, m, t, g)
    ensures ComesToBegin(acts, k, n, t, g)
    ensures OwnSections(acts, k, n, t) >= 5 ==> exists m: nat :: k < m <= n && BeginsAt(acts, m, t, g)
    decreases n
  {
    if k == n {
      ReadsBeforeBegin(acts, k, t, g, busy);
    } else {
      StaleOwnerPassed(acts, k, n - 1, t, g, busy);
      ComesNearerBegin(acts, k, n - 1, t, g);
    }
    ComesToBeginSoon(acts, k, n, t, g);
  }

  lemma ReadsBeforeBegin(acts: seq<Action>, k: nat, t: Task, g: SessionId, busy: Task)
    requires ReadsOwner(acts, k, t, g, busy)
    ensures ComesToBegin(acts, k, k, t, g)
  {
  }

  lemma ComesToBeginSoon(acts: seq<Action>, k: nat, n: nat, t: Task, g: SessionId)
    requires k <= n <= |acts| && ComesToBegin(acts, k, n, t, g)
    ensures OwnSections(acts, k, n, t) >= 5 ==> exists m: nat :: k < m <= n && BeginsAt(acts, m, t, g)
  {
  }

  // ---- A marked task gets no worker ----

  // Its worker has not been spawned, and is not about to be.
  ghost predicate NoWorkerYet(s: State, t: Task, g: SessionId) {
    && OwnedBy(s, g, t) && g !in s.workers
    && forall u :: u in s.starters && s.starters[u].sid == g ==> s.starters[u].pc != Spawn
  }

  lemma MarkedGetsNoWorker(s: State, a: Action, t: Task, g: SessionId)
    requires Structure(s) && NoWorkerYet(s, t, g) && t in s.marked
    ensures NoWorkerYet(Step(s, a), t, g)
  {
    StartersChange(s, a);
    if !a.StarterStep? {
      OtherStepsAddNothing(s, a);
      OthersReplaceNothing(s, a);
      forall u | u in Step(s, a).starters && Step(s, a).starters[u].sid == g
        ensures Step(s, a).starters[u].pc != Spawn
      {
        if u in s.starters { OthersKeepHandler(s, a, u); } else { NewHandler(s, a, u); }
      }
    } else if a.task in s.starters {
      MarkedHandlerGetsNoWorker(s, a.task, a.fails, t, g);
    }
  }

  lemma MarkedHandlerGetsNoWorker(s: State, u: Task, fails: bool, t: Task, g: SessionId)
    requires Structure(s) && NoWorkerYet(s, t, g) && t in s.marked && u in s.starters
    ensures NoWorkerYet(DoStarter(s, u, fails), t, g)
  {
    var s' := DoStarter(s, u, fails);
    HandlerAdds(s, u, fails);
    HandlerChange(s, u, fails);
    OwnMoves(s, u, fails);
    if s.starters[u].sid == g { assert OwnedBy(s, g, u); }
    forall v | v in s'.starters && s'.starters[v].sid == g ensures s'.starters[v].pc != Spawn {
      if v != u { HandlerAlone(s, u, fails, v); }
    }
  }

  ghost predicate MarkedAt(acts: seq<Action>, m: nat, t: Task) { m <= |acts| && t in After(acts[..m]).marked }

  // A handler whose task is marked from some section before its spawn on never gets a worker.
  lemma {:induction false} MarkKeepsWorkerAway(acts: seq<Action>, k: nat, n: nat, t: Task, g: SessionId)
    requires k <= n <= |acts| && NoWorkerYet(After(acts[..k]), t, g)
    requires forall m: nat :: k <= m < n ==> MarkedAt(acts, m, t)
    ensures NoWorkerYet(After(acts[..n]), t, g)
    decreases n
  {
    if k < n {
      MarkKeepsWorkerAway(acts, k, n - 1, t, g);
      UpTo(acts, n - 1);
      assert Structure(After(acts[..n - 1])) by { StructureHolds(acts[..n - 1]); }
      assert MarkedAt(acts, n - 1, t);
      MarkedGetsNoWorker(After(acts[..n - 1]), acts[n - 1], t, g);
    }
  }

  // ---- A handler that finds its task marked aborts it, and waits ----

  // The call is under way and the handler waits for it, or it has returned.
  ghost predicate AwaitsAbort(s: State, t: Task, g: SessionId, c: AbortId) {
    && c < s.nextAbort && c in s.aborters && s.aborters[c].task == t
    && (s.aborters[c].pc == Returned || (Is(s, t, g) && s.starters[t].pc.Aborting? && s.starters[t].pc.call == c))
  }

  ghost predicate CallStays(s: State, s': State, c: AbortId)
    requires c in s.aborters
  {
    && c in s'.aborters && s'.aborters[c].task == s.aborters[c].task && s.nextAbort <= s'.nextAbort
    && (s.aborters[c].pc == Returned ==> s'.aborters[c].pc == Returned)
  }

  lemma HandlerKeepsCall(s: State, u: Task, fails: bool, c: AbortId)
    requires AbortersOk(s) && c in s.aborters && u in s.starters
    ensures CallStays(s, DoStarter(s, u, fails), c)
  {
    if s.starters[u].pc != Register {
      StartEffectFrame(s, u, fails);
      HandlerCounts(s, u, fails);
    }
  }

  lemma HandlerCounts(s: State, u: Task, fails: bool)
    requires u in s.starters && s.starters[u].pc != Register
    ensures s.nextAbort <= DoStarter(s, u, fails).nextAbort
  {
  }

  lemma AborterKeepsCall(s: State, d: AbortId, c: AbortId)
    requires c in s.aborters && d in s.aborters
    ensures CallStays(s, DoAborter(s, d), c)
  {
    AbortEffectFrame(s, s.aborters[d]);
  }

  lemma CallsStay(s: State, a: Action, c: AbortId)
    requires AbortersOk(s) && c in s.aborters
    ensures CallStays(s, Step(s, a), c)
  {
    match a
    case StarterStep(u, fails) => if u in s.starters { HandlerKeepsCall(s, u, fails, c); }
    case AborterStep(d) => if d in s.aborters { AborterKeepsCall(s, d, c); }
    case WorkerStep(g) => if g in s.workers && g in s.taskOf { WorkerFrame(s, g); }
    case ScanStep(d, pick) => if d in s.scans { ScanFrame(s, d, pick); }
    case _ =>
  }

  lemma AwaitStays(s: State, a: Action, t: Task, g: SessionId, c: AbortId)
    requires Structure(s) && AwaitsAbort(s, t, g, c)
    ensures AwaitsAbort(Step(s, a), t, g, c)
  {
    CallsStay(s, a, c);
    if s.aborters[c].pc != Returned {
      if Own(a, t) { OwnMoves(s, t, a.fails); } else { OthersKeepHandler(s, a, t); }
    }
  }

  lemma StopCalls(s: State, t: Task, g: SessionId, fails: bool)
    requires Is(s, t, g) && t in s.marked
    requires s.starters[t].pc in {Stop2, Stop3} || (s.starters[t].pc == Stop1 && !fails)
    ensures AwaitsAbort(DoStarter(s, t, fails), t, g, s.nextAbort)
  {
    OwnMoves(s, t, fails);
    assert StartEffect(s, t, fails) == CallAbort(s, t);
  }

  lemma {:induction false} AwaitsFrom(acts: seq<Action>, k: nat, n: nat, t: Task, g: SessionId, c: AbortId)
    requires k <= n <= |acts| && AwaitsAbort(After(acts[..k]), t, g, c)
    ensures AwaitsAbort(After(acts[..n]), t, g, c)
    decreases n
  {
    if k < n {
      AwaitsFrom(acts, k, n - 1, t, g, c);
      UpTo(acts, n - 1);
      assert Structure(After(acts[..n - 1])) by { StructureHolds(acts[..n - 1]); }
      AwaitStays(After(acts[..n - 1]), acts[n - 1], t, g, c);
    }
  }

  // At each of its checks before begin, and at the one after registering, a handler that
  // finds its task marked calls an abort of its task, and is still waiting for it until the
  // call has returned.
  lemma MarkedHandlerAborts(acts: seq<Action>, k: nat, n: nat, t: Task, g: SessionId)
    requires k < n <= |acts| && Own(acts[k], t) && Is(After(acts[..k]), t, g) && t in After(acts[..k]).marked
    requires var pc := After(acts[..k]).starters[t].pc; pc in {Stop2, Stop3} || (pc == Stop1 && !acts[k].fails)
    ensures AwaitsAbort(After(acts[..n]), t, g, After(acts[..k]).nextAbort)
  {
    UpTo(acts, k);
    StopCalls(After(acts[..k]), t, g, acts[k].fails);
    AwaitsFrom(acts, k + 1, n, t, g, After(acts[..k]).nextAbort);
  }

  // ---- How a handler starts ----

  // A start message begins a handler, with a session of its own, at its entry check, unless
  // the task has one already or no id.
  lemma HandlerStarts(acts: seq<Action>, k: nat, t: Task, key: string, single: bool)
    requires k < |acts| && acts[k] == StartTask(t, key, single)
    ensures var s, s' := After(acts[..k]), After(acts[..k + 1]); var g := s.nextSid;
      if t.id == "" || t in s.starters then s' == s
      else StandsAt(s', t, g, Check) && s'.starters[t].key == key && s'.starters[t].single == single && g !in s.taskOf
  {
    UpTo(acts, k);
    StructureHolds(acts[..k]);
  }

  // ---- Marked before it begins, it does not begin ----

  // The handler has an abort check ahead of its begin section: at the entry, after the peer
  // keys, and, a threshold sign handler, again after the busy check.
  ghost predicate CheckedAhead(s: State, t: Task, g: SessionId) {
    Is(s, t, g) ==>
      match s.starters[t].pc
      case Check | Stop1 => true
      case Busy | LookOld(_) | OldClosed(_, _) | ClearStale(_) | Stop2 => !s.starters[t].single
      case Aborting(_, _) | Leave => true
      case _ => false
  }

  lemma CheckedMoves(s: State, a: Action, t: Task, g: SessionId)
    requires Structure(s) && CheckedAhead(s, t, g) && g in s.taskOf && t in s.marked
    ensures CheckedAhead(Step(s, a), t, g) && g in Step(s, a).taskOf
  {
    StartersChange(s, a);
    if t in s.starters {
      if Own(a, t) { OwnMoves(s, t, a.fails); } else { OthersKeepHandler(s, a, t); }
    }
  }

  lemma CheckedFirst(acts: seq<Action>, k: nat, t: Task, g: SessionId)
    requires k <= |acts| && Is(After(acts[..k]), t, g)
    ensures g in After(acts[..k]).taskOf
  {
    StructureHolds(acts[..k]);
    assert OwnedBy(After(acts[..k]), g, t);
  }

  lemma CheckedNext(acts: seq<Action>, n: nat, t: Task, g: SessionId)
    requires n < |acts| && MarkedAt(acts, n, t)
    requires CheckedAhead(After(acts[..n]), t, g) && g in After(acts[..n]).taskOf
    ensures CheckedAhead(After(acts[..n + 1]), t, g) && g in After(acts[..n + 1]).taskOf
  {
    UpTo(acts, n);
    assert Structure(After(acts[..n])) by { StructureHolds(acts[..n]); }
    CheckedMoves(After(acts[..n]), acts[n], t, g);
  }

  // Such a handler of a task that is marked from then on never comes to its begin section, so
  // it takes no slot and registers nothing.
  lemma {:induction false} MarkedNeverBegins(acts: seq<Action>, k: nat, n: nat, t: Task, g: SessionId)
    requires k <= n <= |acts| && Is(After(acts[..k]), t, g) && CheckedAhead(After(acts[..k]), t, g)
    requires forall m: nat :: k <= m < n ==> MarkedAt(acts, m, t)
    ensures CheckedAhead(After(acts[..n]), t, g) && g in After(acts[..n]).taskOf
    ensures !BeginsAt(acts, n, t, g)
    decreases n
  {
    if k == n {
      CheckedFirst(acts, k, t, g);
    } else {
      MarkedNeverBegins(acts, k, n - 1, t, g);
      CheckedNext(acts, n - 1, t, g);
    }
  }
}
