/**
 Slots are conserved over every run: whichever of the abort, the handler's early return
 and the worker's deferred cleanup ran, and in whatever order, a task whose threads are
 all gone holds no keygen or sign slot.
 */
module LifecycleSlots {
  import opened SignSlots
  import opened Lifecycle
  import opened LifecycleStructure
  import opened LifecycleAborts

  // An abort call that has passed the closed check will end the task's slot.
  ghost predicate WillEnd(pc: AbortPc) {
    pc.Cancel? || pc.Close? || pc.Unregister? || pc.EndSlot?
  }

  ghost predicate Ending(s: State, t: Task) {
    exists c :: c in s.aborters && s.aborters[c].task == t && WillEnd(s.aborters[c].pc)
  }

  ghost predicate WorkerRunning(s: State, t: Task) {
    exists g :: g in s.workers && s.workers[g].pc == Running && OwnedBy(s, g, t)
  }

  // Between begin and the hand-over to the worker or to an abort call.
  ghost predicate HandlerHolds(s: State, t: Task) {
    t in s.starters &&
    (s.starters[t].pc.Register? || s.starters[t].pc.Stop3? || s.starters[t].pc.Spawn?)
  }

  // The abort call a handler made after registering will find the handler's own session.
  ghost predicate WillFind(a: Aborter, t: Task, g: SessionId) {
    a.pc.Mark? || a.pc.LookKeygen? || (a.pc.LookSign? && t.kind == Sign) || (a.pc.IsClosed? && a.sid == g)
  }

  ghost predicate HandlerAborts(s: State, t: Task) {
    t in s.starters && s.starters[t].pc.Aborting? && s.starters[t].pc.registered
    && s.starters[t].pc.call in s.aborters
    && WillFind(s.aborters[s.starters[t].pc.call], t, s.starters[t].sid)
  }

  ghost predicate OwnSessionOpen(s: State, t: Task) {
    t in s.starters && t in s.sessions && s.sessions[t] == s.starters[t].sid && s.starters[t].sid !in s.closed
  }

  ghost predicate SlotOk(s: State, t: Task) {
    && (HoldsSlot(s, t) ==> HandlerHolds(s, t) || HandlerAborts(s, t) || WorkerRunning(s, t) || Ending(s, t))
    // Until its worker runs, a registered session stays open and in the map, unless an
    // abort is about to end the slot.
    && (HoldsSlot(s, t) && t in s.starters && RegisteredNoWorker(s.starters[t].pc) ==>
          OwnSessionOpen(s, t) || Ending(s, t))
  }

  ghost predicate SlotsConserved(s: State) {
    forall t :: SlotOk(s, t)
  }

  // ---- One task at a time ----

  // A step of another task's thread: at most it ends this task's slot (a stale clear).
  ghost predicate SameHandlerAndSession(s: State, s': State, t: Task) {
    && (HoldsSlot(s', t) ==> HoldsSlot(s, t))
    && (t in s.starters <==> t in s'.starters)
    && (t in s.starters ==> s'.starters[t] == s.starters[t])
    && (t in s.sessions <==> t in s'.sessions)
    && (t in s.sessions ==> s'.sessions[t] == s.sessions[t])
  }

  ghost predicate SameCalls(s: State, s': State, t: Task) {
    forall c :: c in s.aborters && s.aborters[c].task == t ==> c in s'.aborters && s'.aborters[c] == s.aborters[c]
  }

  ghost predicate SameSessionIds(s: State, s': State, t: Task) {
    forall g :: OwnedBy(s, g, t) ==>
      OwnedBy(s', g, t) && (g in s'.closed ==> g in s.closed)
      && (g in s.workers ==> g in s'.workers && s'.workers[g] == s.workers[g])
  }

  ghost predicate OthersStep(s: State, s': State, t: Task) {
    SameHandlerAndSession(s, s', t) && SameCalls(s, s', t) && SameSessionIds(s, s', t)
  }

  lemma OthersStepKeeps(s: State, s': State, t: Task)
    requires Structure(s) && SlotOk(s, t) && OthersStep(s, s', t)
    ensures SlotOk(s', t)
  {
    if HoldsSlot(s', t) {
      if Ending(s, t) {
        var c :| c in s.aborters && s.aborters[c].task == t && WillEnd(s.aborters[c].pc);
        assert s'.aborters[c] == s.aborters[c];
      }
      if WorkerRunning(s, t) {
        var g :| g in s.workers && s.workers[g].pc == Running && OwnedBy(s, g, t);
        assert g in s'.workers;
      }
    }
  }

  lemma KeepEnding(s: State, s': State, t: Task)
    requires Ending(s, t) && CallsOnlyStart(s, s')
    ensures Ending(s', t)
  {
    var c :| c in s.aborters && s.aborters[c].task == t && WillEnd(s.aborters[c].pc);
    assert s'.aborters[c] == s.aborters[c];
  }

  lemma KeepWorkerRunning(s: State, s': State, t: Task)
    requires WorkerRunning(s, t) && s'.taskOf == s.taskOf
    requires forall g :: g in s.workers ==> g in s'.workers && s'.workers[g] == s.workers[g]
    ensures WorkerRunning(s', t)
  {
    var g :| g in s.workers && s.workers[g].pc == Running && OwnedBy(s, g, t);
    assert s'.workers[g].pc == Running && OwnedBy(s', g, t);
  }

  // ---- The task's own handler ----

  lemma RegisterKeepsSlot(s: State, t: Task, fails: bool)
    requires Structure(s) && SlotOk(s, t) && t in s.starters && s.starters[t].pc == Register
    ensures SlotOk(DoStarter(s, t, fails), t)
  {
    assert Untouched(s, t, s.starters[t].sid);
  }

  lemma SpawnKeepsSlot(s: State, t: Task, fails: bool)
    requires Structure(s) && SlotOk(s, t) && t in s.starters && s.starters[t].pc == Spawn
    ensures SlotOk(DoStarter(s, t, fails), t)
  {
    var g, s' := s.starters[t].sid, DoStarter(s, t, fails);
    assert s'.workers[g].pc == Running && OwnedBy(s', g, t);
  }

  lemma Stop3KeepsSlot(s: State, t: Task, fails: bool)
    requires Structure(s) && SlotOk(s, t) && t in s.starters && s.starters[t].pc == Stop3
    ensures SlotOk(DoStarter(s, t, fails), t)
  {
    var s' := DoStarter(s, t, fails);
    StartEffectFrame(s, t, fails);
    if Ending(s, t) { KeepEnding(s, s', t); }
  }

  // Sections before the begin and after the abort call neither take the slot nor owe it.
  lemma IdleHandlerKeepsSlot(s: State, t: Task, fails: bool)
    requires Structure(s) && SlotOk(s, t) && t in s.starters && !HandlerHolds(s, t)
    ensures SlotOk(DoStarter(s, t, fails), t)
  {
    var s' := DoStarter(s, t, fails);
    StartEffectFrame(s, t, fails);
    IdleHandlerSlot(s, t, fails);
    IdleHandlerWorkers(s, t, fails);
    if HandlerAborts(s, t) || (t in s'.starters && RegisteredNoWorker(s'.starters[t].pc)) {
      WaitingHandler(s, t, fails);
    }
    if HoldsSlot(s', t) && !HandlerHolds(s', t) {
      if Ending(s, t) { KeepEnding(s, s', t); }
      if WorkerRunning(s, t) { KeepWorkerRunning(s, s', t); }
    }
  }

  lemma StaleClearSlot(s: State, busy: Task, u: Task)
    ensures HoldsSlot(s.(signSlots := End(s.signSlots, busy)), u) ==> HoldsSlot(s, u)
  {
  }

  lemma BeginTaskSlot(s: State, t: Task, key: string, u: Task)
    ensures HoldsSlot(BeginTask(s, t, key), u) ==> HoldsSlot(s, u) || u == t
  {
  }

  lemma StartEffectSlots(s: State, t: Task, fails: bool)
    requires t in s.starters && !s.starters[t].pc.ClearStale? && !s.starters[t].pc.BeginSlot?
    ensures var e := StartEffect(s, t, fails); e.keygenActive == s.keygenActive && e.signSlots == s.signSlots
  {
    match s.starters[t].pc
    case Stop1 => assert StartEffect(s, t, fails) == if !fails && t in s.marked then CallAbort(s, t) else s;
    case Stop2 => assert StartEffect(s, t, fails) == if t in s.marked then CallAbort(s, t) else s;
    case Stop3 => assert StartEffect(s, t, fails) == if t in s.marked then CallAbort(s, t) else s;
    case Register => assert StartEffect(s, t, fails) == RegisterSession(s, t, s.starters[t].sid);
    case Spawn =>
    case _ =>
  }

  // A handler's section takes no slot but its own, and that in the begin section.
  lemma HandlerTakes(s: State, t: Task, fails: bool, u: Task)
    requires t in s.starters && HoldsSlot(StartEffect(s, t, fails), u)
    ensures HoldsSlot(s, u) || (u == t && s.starters[t].pc.BeginSlot? && StartNext(s, t, fails).Register?)
  {
    match s.starters[t].pc
    case ClearStale(busy) => StaleClearSlot(s, busy, u);
    case BeginSlot => BeginTaskSlot(s, t, s.starters[t].key, u);
    case _ => StartEffectSlots(s, t, fails);
  }

  lemma HandlerSlot(s: State, t: Task, fails: bool, u: Task)
    requires t in s.starters && s.starters[t].pc != Leave
    ensures HoldsSlot(DoStarter(s, t, fails), u) <==> HoldsSlot(StartEffect(s, t, fails), u)
  {
  }

  lemma IdleHandlerSlot(s: State, t: Task, fails: bool)
    requires t in s.starters && !HandlerHolds(s, t)
    ensures var s' := DoStarter(s, t, fails); HoldsSlot(s', t) ==> HoldsSlot(s, t) || HandlerHolds(s', t)
  {
    if s.starters[t].pc != Leave && HoldsSlot(DoStarter(s, t, fails), t) {
      HandlerSlot(s, t, fails, t);
      HandlerTakes(s, t, fails, t);
    }
  }

  lemma IdleHandlerWorkers(s: State, t: Task, fails: bool)
    requires t in s.starters && !s.starters[t].pc.Spawn?
    ensures StartEffect(s, t, fails).workers == s.workers
  {
    match s.starters[t].pc
    case Stop1 => assert StartEffect(s, t, fails) == if !fails && t in s.marked then CallAbort(s, t) else s;
    case Stop2 => assert StartEffect(s, t, fails) == if t in s.marked then CallAbort(s, t) else s;
    case Stop3 => assert StartEffect(s, t, fails) == if t in s.marked then CallAbort(s, t) else s;
    case Register => assert StartEffect(s, t, fails) == RegisterSession(s, t, s.starters[t].sid);
    case ClearStale(busy) =>
    case BeginSlot =>
    case _ =>
  }

  lemma WaitingHandler(s: State, t: Task, fails: bool)
    requires t in s.starters && !HandlerHolds(s, t)
    requires var s' := DoStarter(s, t, fails);
      HandlerAborts(s, t) || (t in s'.starters && RegisteredNoWorker(s'.starters[t].pc))
    ensures DoStarter(s, t, fails) == s
            || (s.starters[t].pc.Aborting? && StartNext(s, t, fails) == Leave && !HandlerAborts(s, t))
  {
    var pc := s.starters[t].pc;
    if pc.Aborting? {
      assert s.starters[t := s.starters[t]] == s.starters;
    } else {
      NotYetAborting(s, t, fails);
    }
  }

  lemma NotYetAborting(s: State, t: Task, fails: bool)
    requires t in s.starters && !HandlerHolds(s, t) && !s.starters[t].pc.Aborting?
    ensures !RegisteredNoWorker(StartNext(s, t, fails))
  {
  }

  lemma OwnHandlerKeepsSlot(s: State, t: Task, fails: bool)
    requires Structure(s) && SlotOk(s, t) && t in s.starters
    ensures SlotOk(DoStarter(s, t, fails), t)
  {
    match s.starters[t].pc
    case Register => RegisterKeepsSlot(s, t, fails);
    case Stop3 => Stop3KeepsSlot(s, t, fails);
    case Spawn => SpawnKeepsSlot(s, t, fails);
    case _ => IdleHandlerKeepsSlot(s, t, fails);
  }

  // ---- The task's own abort calls ----

  lemma OwnLookupKeepsSlot(s: State, c: AbortId)
    requires Structure(s) && c in s.aborters && !WillEnd(s.aborters[c].pc) && SlotOk(s, s.aborters[c].task)
    ensures SlotOk(DoAborter(s, c), s.aborters[c].task)
  {
    var a, t, s' := s.aborters[c], s.aborters[c].task, DoAborter(s, c);
    AbortEffectFrame(s, a);
    if Ending(s, t) {
      var d :| d in s.aborters && s.aborters[d].task == t && WillEnd(s.aborters[d].pc);
      assert s'.aborters[d] == s.aborters[d];
    }
    if WorkerRunning(s, t) { KeepWorkerRunning(s, s', t); }
    if s'.aborters[c].pc == Cancel { assert Ending(s', t); }
  }

  lemma OwnEndingKeepsSlot(s: State, c: AbortId)
    requires Structure(s) && c in s.aborters && WillEnd(s.aborters[c].pc) && SlotOk(s, s.aborters[c].task)
    ensures SlotOk(DoAborter(s, c), s.aborters[c].task)
  {
    var a, t, s' := s.aborters[c], s.aborters[c].task, DoAborter(s, c);
    if a.pc != EndSlot {
      assert s'.aborters[c].task == t && WillEnd(s'.aborters[c].pc);
    }
  }

  // ---- The task's own worker ----

  lemma OwnWorkerKeepsSlot(s: State, g: SessionId)
    requires Structure(s) && g in s.workers && g in s.taskOf && SlotOk(s, s.taskOf[g])
    ensures SlotOk(DoWorker(s, g), s.taskOf[g])
  {
    var t, s' := s.taskOf[g], DoWorker(s, g);
    WorkerFrame(s, g);
    if s.workers[g].pc != Running {
      if WorkerRunning(s, t) {
        var h :| h in s.workers && s.workers[h].pc == Running && OwnedBy(s, h, t);
        assert s'.workers[h].pc == Running && OwnedBy(s', h, t);
      }
      if Ending(s, t) { KeepEnding(s, s', t); }
    }
  }

  // ---- Threads of other tasks ----

  lemma OtherRegisterStep(s: State, u: Task, fails: bool, t: Task)
    requires Structure(s) && u in s.starters && u != t && s.starters[u].pc == Register
    ensures OthersStep(s, DoStarter(s, u, fails), t)
  {
    OtherHandlerSlots(s, u, fails, t);
    assert SameSessionIds(s, DoStarter(s, u, fails), t);
  }

  lemma OtherHandlerStep(s: State, u: Task, fails: bool, t: Task)
    requires Structure(s) && u in s.starters && u != t
    ensures OthersStep(s, DoStarter(s, u, fails), t)
  {
    if s.starters[u].pc == Register {
      OtherRegisterStep(s, u, fails, t);
    } else {
      OtherHandlerSlots(s, u, fails, t);
      OtherHandlerRest(s, u, fails, t);
      HandlerMovesAlone(s, u, fails);
    }
  }

  lemma HandlerMovesAlone(s: State, u: Task, fails: bool)
    requires u in s.starters
    ensures DoStarter(s, u, fails).starters - {u} == s.starters - {u}
  {
  }

  lemma OtherHandlerRest(s: State, u: Task, fails: bool, t: Task)
    requires Structure(s) && u in s.starters && u != t && s.starters[u].pc != Register
    ensures SameCalls(s, DoStarter(s, u, fails), t) && SameSessionIds(s, DoStarter(s, u, fails), t)
    ensures DoStarter(s, u, fails).sessions == s.sessions
  {
    StartEffectFrame(s, u, fails);
    assert OwnedBy(s, s.starters[u].sid, u);
    OtherHandlerWorkers(s, u, fails);
  }

  lemma OtherHandlerWorkers(s: State, u: Task, fails: bool)
    requires u in s.starters
    ensures forall g :: g in s.workers && g != s.starters[u].sid ==>
              g in DoStarter(s, u, fails).workers && DoStarter(s, u, fails).workers[g] == s.workers[g]
  {
  }

  lemma OtherHandlerSlots(s: State, u: Task, fails: bool, t: Task)
    requires u in s.starters && u != t
    ensures HoldsSlot(DoStarter(s, u, fails), t) ==> HoldsSlot(s, t)
  {
    if s.starters[u].pc != Leave && HoldsSlot(DoStarter(s, u, fails), t) {
      HandlerSlot(s, u, fails, t);
      HandlerTakes(s, u, fails, t);
    }
  }

  lemma OtherAborterStep(s: State, c: AbortId, t: Task)
    requires Structure(s) && c in s.aborters && s.aborters[c].task != t
    ensures OthersStep(s, DoAborter(s, c), t)
  {
    var a := s.aborters[c];
    AbortEffectFrame(s, a);
    assert SameCalls(s, DoAborter(s, c), t);
    assert SameSessionIds(s, DoAborter(s, c), t) by {
      assert a.pc == Close ==> OwnedBy(s, a.sid, a.task);
    }
    OtherAborterRest(s, c, t);
  }

  lemma OtherAborterRest(s: State, c: AbortId, t: Task)
    requires c in s.aborters && s.aborters[c].task != t
    ensures SameHandlerAndSession(s, DoAborter(s, c), t)
  {
    var a := s.aborters[c];
    AbortEffectFrame(s, a);
    if a.pc == EndSlot {
      assert AbortEffect(s, a).sessions == s.sessions;
    } else if a.pc != Unregister {
      AbortEffectSessions(s, a);
    }
    EndsOnlyItself(s, a, t);
  }

  lemma EndTaskEndsOnly(s: State, u: Task, t: Task)
    requires u != t
    ensures HoldsSlot(EndTask(s, u), t) ==> HoldsSlot(s, t)
  {
  }

  lemma AbortEffectSlots(s: State, a: Aborter)
    requires a.pc != EndSlot
    ensures var e := AbortEffect(s, a); e.keygenActive == s.keygenActive && e.signSlots == s.signSlots
  {
  }

  lemma EndsOnlyItself(s: State, a: Aborter, t: Task)
    requires a.task != t
    ensures HoldsSlot(AbortEffect(s, a), t) ==> HoldsSlot(s, t)
  {
    if a.pc == EndSlot { EndTaskEndsOnly(s, a.task, t); } else { AbortEffectSlots(s, a); }
  }

  lemma OtherWorkerSlots(s: State, g: SessionId, t: Task)
    requires g in s.workers && g in s.taskOf && s.taskOf[g] != t
    ensures HoldsSlot(DoWorker(s, g), t) ==> HoldsSlot(s, t)
  {
    if s.workers[g].pc == Running { EndTaskEndsOnly(s, s.taskOf[g], t); }
  }

  lemma OtherWorkerIds(s: State, g: SessionId, t: Task)
    requires g in s.workers && g in s.taskOf && s.taskOf[g] != t
    ensures SameSessionIds(s, DoWorker(s, g), t) && SameCalls(s, DoWorker(s, g), t)
  {
    WorkerFrame(s, g);
  }

  lemma OtherWorkerStep(s: State, g: SessionId, t: Task)
    requires Structure(s) && g in s.workers && g in s.taskOf && s.taskOf[g] != t
    ensures OthersStep(s, DoWorker(s, g), t)
  {
    WorkerFrame(s, g);
    OtherWorkerSlots(s, g, t);
    OtherWorkerIds(s, g, t);
  }

  // ---- Every run ----

  lemma StarterStepKeepsSlot(s: State, u: Task, fails: bool, t: Task)
    requires Structure(s) && SlotOk(s, t) && u in s.starters
    ensures SlotOk(DoStarter(s, u, fails), t)
  {
    if u == t {
      OwnHandlerKeepsSlot(s, t, fails);
    } else {
      OtherHandlerStep(s, u, fails, t);
      OthersStepKeeps(s, DoStarter(s, u, fails), t);
    }
  }

  lemma AborterStepKeepsSlot(s: State, c: AbortId, t: Task)
    requires Structure(s) && SlotOk(s, t) && c in s.aborters
    ensures SlotOk(DoAborter(s, c), t)
  {
    if s.aborters[c].task != t {
      OtherAborterStep(s, c, t);
      OthersStepKeeps(s, DoAborter(s, c), t);
    } else if WillEnd(s.aborters[c].pc) {
      OwnEndingKeepsSlot(s, c);
    } else {
      OwnLookupKeepsSlot(s, c);
    }
  }

  lemma WorkerStepKeepsSlot(s: State, g: SessionId, t: Task)
    requires Structure(s) && SlotOk(s, t) && g in s.workers && g in s.taskOf
    ensures SlotOk(DoWorker(s, g), t)
  {
    if s.taskOf[g] == t {
      OwnWorkerKeepsSlot(s, g);
    } else {
      OtherWorkerStep(s, g, t);
      OthersStepKeeps(s, DoWorker(s, g), t);
    }
  }

  lemma ScanStepKeepsSlot(s: State, c: ScanId, pick: Task, t: Task)
    requires Structure(s) && SlotOk(s, t) && c in s.scans
    ensures SlotOk(DoScan(s, c, pick), t)
  {
    ScanFrame(s, c, pick);
    OthersStepKeeps(s, DoScan(s, c, pick), t);
  }

  lemma OtherBeginKeepsSlot(s: State, u: Task, key: string, single: bool, t: Task)
    requires Structure(s) && SlotOk(s, t) && u != t
    ensures SlotOk(DoStartTask(s, u, key, single), t)
  {
    OthersStepKeeps(s, DoStartTask(s, u, key, single), t);
  }

  lemma BeginStepKeepsSlot(s: State, u: Task, key: string, single: bool, t: Task)
    requires Structure(s) && SlotOk(s, t)
    ensures SlotOk(DoStartTask(s, u, key, single), t)
  {
    if u == t { StartKeepsSlot(s, t, key, single); } else { OtherBeginKeepsSlot(s, u, key, single, t); }
  }

  // Actions that start or end no thread's section.
  lemma QuietStepKeepsSlot(s: State, a: Action, t: Task)
    requires Structure(s) && SlotOk(s, t) && (a.NewAbort? || a.NewScan? || a.Lapse?)
    ensures SlotOk(Step(s, a), t)
  {
    OthersStepKeeps(s, Step(s, a), t);
  }

  lemma StepKeepsSlot(s: State, a: Action, t: Task)
    requires Structure(s) && SlotOk(s, t)
    ensures SlotOk(Step(s, a), t)
  {
    match a
    case StarterStep(u, fails) => if u in s.starters { StarterStepKeepsSlot(s, u, fails, t); }
    case AborterStep(c) => if c in s.aborters { AborterStepKeepsSlot(s, c, t); }
    case WorkerStep(g) => if g in s.workers && g in s.taskOf { WorkerStepKeepsSlot(s, g, t); }
    case StartTask(u, key, single) => BeginStepKeepsSlot(s, u, key, single, t);
    case ScanStep(c, pick) => if c in s.scans { ScanStepKeepsSlot(s, c, pick, t); }
    case _ => QuietStepKeepsSlot(s, a, t);
  }

  lemma StartKeepsSlot(s: State, t: Task, key: string, single: bool)
    requires Structure(s) && SlotOk(s, t)
    ensures SlotOk(DoStartTask(s, t, key, single), t)
  {
    var s' := DoStartTask(s, t, key, single);
    if Ending(s, t) { KeepEnding(s, s', t); }
    if WorkerRunning(s, t) {
      var g :| g in s.workers && s.workers[g].pc == Running && OwnedBy(s, g, t);
      assert OwnedBy(s', g, t);
    }
  }

  lemma {:induction false} SlotsConservedHolds(acts: seq<Action>)
    ensures SlotsConserved(After(acts))
  {
    if acts != [] {
      var before := acts[..|acts| - 1];
      SlotsConservedHolds(before);
      StructureHolds(before);
      forall t ensures SlotOk(After(acts), t) {
        assert SlotOk(After(before), t);
        StepKeepsSlot(After(before), acts[|acts| - 1], t);
      }
    }
  }

  // Once no handler, no abort call and no running worker of a task is left, it holds no slot.
  lemma SlotConservation(acts: seq<Action>, t: Task)
    requires var s := After(acts); t !in s.starters && !AbortInFlight(s, t) && !WorkerRunning(s, t)
    ensures !HoldsSlot(After(acts), t)
  {
    SlotsConservedHolds(acts);
    assert SlotOk(After(acts), t);
  }

  // In every reachable state the two sign maps invert each other, so a key has one owner.
  lemma KeyHasOneOwner(acts: seq<Action>, t: Task, u: Task)
    requires var slots := After(acts).signSlots;
      t in slots.active && u in slots.active && slots.active[t] == slots.active[u]
    ensures t == u
  {
    StructureHolds(acts);
  }
}
