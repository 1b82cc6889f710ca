/**
 Which task holds a slot, told from the run: a task holds its slot exactly from a begin
 section of its own that succeeds until the next step that frees it, and there are three
 kinds of those.  So a session whose worker runs can be without its slot, in exactly the
 cases listed, one of them the late end of an older session's worker of the same task.
 */
module LifecycleSlotLoss {
  import opened SignSlots
  import opened Lifecycle
  import opened LifecycleStructure
  import LifecycleReplaced
  import LifecycleSlots

  // The begin section of the task's handler, when it succeeds.
  predicate TakesNow(s: State, a: Action, t: Task) {
    a.StarterStep? && a.task == t && t in s.starters && s.starters[t].pc.BeginSlot? && Begins(s, t, a.fails)
  }

  // A handler that clears the task's slot as stale, an abort call of the task at its last
  // section, or a worker of one of the task's sessions that ends.
  predicate FreesNow(s: State, a: Action, t: Task) {
    match a
    case StarterStep(u, _) => u in s.starters && s.starters[u].pc == ClearStale(t) && t.kind == Sign
    case AborterStep(c) => c in s.aborters && s.aborters[c].task == t && s.aborters[c].pc == EndSlot
    case WorkerStep(h) => h in s.workers && h in s.taskOf && s.taskOf[h] == t && s.workers[h].pc == Running
    case _ => false
  }

  // ---- One step ----

  lemma StaleClearExact(s: State, busy: Task, t: Task)
    ensures HoldsSlot(s.(signSlots := End(s.signSlots, busy)), t) <==>
      HoldsSlot(s, t) && !(busy == t && t.kind == Sign)
  {
  }

  lemma EndTaskExact(s: State, u: Task, t: Task)
    ensures HoldsSlot(EndTask(s, u), t) <==> HoldsSlot(s, t) && u != t
  {
  }

  lemma BeginTaskExact(s: State, u: Task, key: string, t: Task)
    requires MayBeginTask(s, u, key)
    ensures HoldsSlot(BeginTask(s, u, key), t) <==> HoldsSlot(s, t) || u == t
  {
  }

  lemma ClearStep(s: State, u: Task, fails: bool, t: Task)
    requires u in s.starters && s.starters[u].pc.ClearStale?
    ensures HoldsSlot(DoStarter(s, u, fails), t) <==>
      HoldsSlot(s, t) && !(s.starters[u].pc.busy == t && t.kind == Sign)
  {
    LifecycleSlots.HandlerSlot(s, u, fails, t);
    StaleClearExact(s, s.starters[u].pc.busy, t);
  }

  lemma BeginStep(s: State, u: Task, fails: bool, t: Task)
    requires u in s.starters && s.starters[u].pc.BeginSlot?
    ensures HoldsSlot(DoStarter(s, u, fails), t) <==> HoldsSlot(s, t) || (u == t && Begins(s, u, fails))
  {
    LifecycleSlots.HandlerSlot(s, u, fails, t);
    if Begins(s, u, fails) { BeginTaskExact(s, u, s.starters[u].key, t); }
  }

  lemma OtherSection(s: State, u: Task, fails: bool, t: Task)
    requires u in s.starters && !s.starters[u].pc.BeginSlot? && !s.starters[u].pc.ClearStale?
    ensures HoldsSlot(DoStarter(s, u, fails), t) <==> HoldsSlot(s, t)
  {
    if s.starters[u].pc != Leave {
      LifecycleSlots.HandlerSlot(s, u, fails, t);
      LifecycleSlots.StartEffectSlots(s, u, fails);
    }
  }

  lemma HandlerHolds(s: State, u: Task, fails: bool, t: Task)
    requires u in s.starters
    ensures var a := StarterStep(u, fails);
      HoldsSlot(DoStarter(s, u, fails), t) <==> TakesNow(s, a, t) || (HoldsSlot(s, t) && !FreesNow(s, a, t))
  {
    if s.starters[u].pc.ClearStale? {
      ClearStep(s, u, fails, t);
    } else if s.starters[u].pc.BeginSlot? {
      BeginStep(s, u, fails, t);
    } else {
      OtherSection(s, u, fails, t);
    }
  }

  lemma AborterHolds(s: State, c: AbortId, t: Task)
    requires c in s.aborters
    ensures HoldsSlot(DoAborter(s, c), t) <==> HoldsSlot(s, t) && !FreesNow(s, AborterStep(c), t)
  {
    var a := s.aborters[c];
    if a.pc == EndSlot { EndTaskExact(s, a.task, t); } else { LifecycleSlots.AbortEffectSlots(s, a); }
  }

  lemma WorkerHolds(s: State, h: SessionId, t: Task)
    requires h in s.workers && h in s.taskOf
    ensures HoldsSlot(DoWorker(s, h), t) <==> HoldsSlot(s, t) && !FreesNow(s, WorkerStep(h), t)
  {
    if s.workers[h].pc == Running { EndTaskExact(s, s.taskOf[h], t); }
  }

  lemma ScanHolds(s: State, c: ScanId, pick: Task, t: Task)
    requires c in s.scans
    ensures HoldsSlot(DoScan(s, c, pick), t) <==> HoldsSlot(s, t)
  {
    ScanFrame(s, c, pick);
  }

  lemma StepHolds(s: State, a: Action, t: Task)
    ensures HoldsSlot(Step(s, a), t) <==> TakesNow(s, a, t) || (HoldsSlot(s, t) && !FreesNow(s, a, t))
  {
    match a
    case StarterStep(u, fails) => if u in s.starters { HandlerHolds(s, u, fails, t); }
    case AborterStep(c) => if c in s.aborters { AborterHolds(s, c, t); }
    case WorkerStep(h) => if h in s.workers && h in s.taskOf { WorkerHolds(s, h, t); }
    case ScanStep(c, pick) => if c in s.scans { ScanHolds(s, c, pick, t); }
    case _ =>
  }

  // ---- Every run ----

  predicate Takes(acts: seq<Action>, i: nat, t: Task) { i < |acts| && TakesNow(After(acts[..i]), acts[i], t) }

  predicate Frees(acts: seq<Action>, j: nat, t: Task) { j < |acts| && FreesNow(After(acts[..j]), acts[j], t) }

  ghost predicate HeldSince(acts: seq<Action>, i: nat, t: Task) {
    Takes(acts, i, t) && forall j: nat :: i < j < |acts| ==> !Frees(acts, j, t)
  }

  lemma SamePrefix(acts: seq<Action>, i: nat, t: Task)
    requires acts != [] && i < |acts| - 1
    ensures Takes(acts, i, t) <==> Takes(acts[..|acts| - 1], i, t)
    ensures Frees(acts, i, t) <==> Frees(acts[..|acts| - 1], i, t)
  {
    assert acts[..|acts| - 1][..i] == acts[..i];
  }

  lemma HeldSinceStep(acts: seq<Action>, i: nat, t: Task)
    requires acts != [] && i < |acts| - 1
    ensures HeldSince(acts, i, t) <==> HeldSince(acts[..|acts| - 1], i, t) && !Frees(acts, |acts| - 1, t)
  {
    var n := |acts| - 1;
    SamePrefix(acts, i, t);
    if HeldSince(acts[..n], i, t) && !Frees(acts, n, t) {
      forall j: nat | i < j < |acts| ensures !Frees(acts, j, t) {
        if j < n { SamePrefix(acts, j, t); }
      }
    }
    if HeldSince(acts, i, t) {
      forall j: nat | i < j < n ensures !Frees(acts[..n], j, t) { SamePrefix(acts, j, t); }
      assert !Frees(acts, n, t);
    }
  }

  // A task holds its slot exactly if it has begun and no step has freed it since.
  lemma {:induction false} HeldIffNotFreedSince(acts: seq<Action>, t: Task)
    ensures HoldsSlot(After(acts), t) <==> exists i: nat :: HeldSince(acts, i, t)
  {
    if acts != [] {
      var n := |acts| - 1;
      HeldIffNotFreedSince(acts[..n], t);
      StepHolds(After(acts[..n]), acts[n], t);
      forall i: nat | i < n ensures HeldSince(acts, i, t) <==> HeldSince(acts[..n], i, t) && !Frees(acts, n, t) {
        HeldSinceStep(acts, i, t);
      }
      assert HeldSince(acts, n, t) <==> Takes(acts, n, t);
      if i: nat :| HeldSince(acts[..n], i, t) { assert i < n; }
      if i: nat :| HeldSince(acts, i, t) { assert i <= n; }
    }
  }

  // ---- A session whose worker runs ----

  // The session's worker has ended, and its handler has nothing left to do.
  ghost predicate Done(s: State, g: SessionId) {
    && g in s.taskOf && (g in s.workers ==> s.workers[g].pc != Running)
    && forall t :: t in s.starters && s.starters[t].sid == g ==> s.starters[t].pc == Leave
  }

  lemma EndedIsDone(s: State, g: SessionId)
    requires Structure(s) && g in s.workers && g in s.taskOf && s.workers[g].pc == Running
    ensures Done(DoWorker(s, g), g)
  {
    WorkerFrame(s, g);
    forall t | t in s.starters && s.starters[t].sid == g ensures s.starters[t].pc == Leave {
      assert !NotRegisteredYet(s.starters[t].pc) && !RegisteredNoWorker(s.starters[t].pc);
    }
  }

  lemma HandlerWorkers(s: State, u: Task, fails: bool, g: SessionId)
    requires u in s.starters && s.starters[u].pc != Register
    requires s.starters[u].sid == g ==> s.starters[u].pc == Leave
    ensures g in DoStarter(s, u, fails).workers <==> g in s.workers
    ensures g in s.workers ==> DoStarter(s, u, fails).workers[g] == s.workers[g]
  {
    if s.starters[u].pc != Leave && s.starters[u].pc != Spawn { LifecycleSlots.IdleHandlerWorkers(s, u, fails); }
  }

  lemma HandlerKeepsDone(s: State, u: Task, fails: bool, g: SessionId)
    requires u in s.starters && Done(s, g)
    ensures Done(DoStarter(s, u, fails), g)
  {
    if s.starters[u].pc != Register {
      StartEffectFrame(s, u, fails);
      HandlerWorkers(s, u, fails, g);
    }
  }

  lemma WorkerKeepsDone(s: State, h: SessionId, g: SessionId)
    requires h in s.workers && h in s.taskOf && Done(s, g)
    ensures Done(DoWorker(s, h), g)
  {
    WorkerFrame(s, h);
  }

  lemma StepKeepsDone(s: State, a: Action, g: SessionId)
    requires Structure(s) && Done(s, g)
    ensures Done(Step(s, a), g)
  {
    match a
    case StarterStep(u, fails) => if u in s.starters { HandlerKeepsDone(s, u, fails, g); }
    case AborterStep(c) => if c in s.aborters { AbortEffectFrame(s, s.aborters[c]); }
    case WorkerStep(h) => if h in s.workers && h in s.taskOf { WorkerKeepsDone(s, h, g); }
    case ScanStep(c, pick) => if c in s.scans { ScanFrame(s, c, pick); }
    case _ =>
  }

  lemma {:induction false} DoneStays(acts: seq<Action>, j: nat, n: nat, g: SessionId)
    requires j <= n <= |acts| && Done(After(acts[..j]), g)
    ensures Done(After(acts[..n]), g)
    decreases n
  {
    if j < n {
      DoneStays(acts, j, n - 1, g);
      StructureHolds(acts[..n - 1]);
      StepKeepsDone(After(acts[..n - 1]), acts[n - 1], g);
      assert acts[..n][..n - 1] == acts[..n - 1];
    }
  }

  lemma EndedStaysDone(acts: seq<Action>, j: nat, g: SessionId)
    requires j < |acts| && acts[j] == WorkerStep(g)
    requires var s := After(acts[..j]); g in s.workers && g in s.taskOf && s.workers[g].pc == Running
    ensures Done(After(acts), g)
  {
    StructureHolds(acts[..j]);
    EndedIsDone(After(acts[..j]), g);
    assert acts[..j + 1][..j] == acts[..j];
    DoneStays(acts, j + 1, |acts|, g);
    assert acts[..|acts|] == acts;
  }

  // A running worker has not ended before.
  lemma NotOwnWorker(acts: seq<Action>, j: nat, t: Task, g: SessionId)
    requires Frees(acts, j, t) && g in After(acts).workers && After(acts).workers[g].pc == Running
    ensures acts[j] != WorkerStep(g)
  {
    if acts[j] == WorkerStep(g) { EndedStaysDone(acts, j, g); }
  }

  // The j-th step frees the slot, and not by the end of this session's own worker: it is a
  // stale clear, an abort call of the task, or the end of another of the task's workers.
  predicate FreedByOthers(acts: seq<Action>, j: nat, t: Task, g: SessionId) {
    Frees(acts, j, t) && acts[j] != WorkerStep(g)
  }

  ghost predicate NotTakenAfter(acts: seq<Action>, j: nat, t: Task) {
    forall k: nat :: j < k < |acts| ==> !Takes(acts, k, t)
  }

  ghost predicate LostTo(acts: seq<Action>, i: nat, j: nat, t: Task, g: SessionId) {
    i < j && FreedByOthers(acts, j, t, g) && NotTakenAfter(acts, j, t)
  }

  lemma {:induction false} LastTake(acts: seq<Action>, i: nat, n: nat, t: Task) returns (k: nat)
    requires i < n <= |acts| && Takes(acts, i, t)
    ensures i <= k < n && Takes(acts, k, t) && forall m: nat :: k < m < n ==> !Takes(acts, m, t)
    decreases n
  {
    if Takes(acts, n - 1, t) { k := n - 1; } else { k := LastTake(acts, i, n - 1, t); }
  }

  // A session whose handler began at step i and whose worker runs has lost its task's slot
  // exactly if one of those steps has freed it since, and the task has not begun again after.
  lemma RunningSessionLosesSlotIff(acts: seq<Action>, i: nat, t: Task, g: SessionId)
    requires Takes(acts, i, t) && After(acts[..i]).starters[t].sid == g
    requires g in After(acts).workers && After(acts).workers[g].pc == Running
    ensures !HoldsSlot(After(acts), t) <==> exists j: nat :: LostTo(acts, i, j, t, g)
  {
    HeldIffNotFreedSince(acts, t);
    if j: nat :| LostTo(acts, i, j, t, g) {
      TakesNotFrees(acts, j, t);
      forall k: nat ensures !HeldSince(acts, k, t) {
      }
    }
    if !HoldsSlot(After(acts), t) {
      var k := LastTake(acts, i, |acts|, t);
      assert !HeldSince(acts, k, t);
      var j: nat :| k < j < |acts| && Frees(acts, j, t);
      NotOwnWorker(acts, j, t, g);
      assert LostTo(acts, i, j, t, g);
    }
  }

  lemma TakesNotFrees(acts: seq<Action>, j: nat, t: Task)
    requires Frees(acts, j, t)
    ensures !Takes(acts, j, t)
  {
  }

  // ---- A run ----

  lemma WorkerEnds(s: State, g: SessionId, t: Task)
    requires g in s.workers && g in s.taskOf && s.taskOf[g] == t && s.workers[g].pc == Running
    ensures var e := Step(s, WorkerStep(g));
      && !HoldsSlot(e, t) && e.sessions == s.sessions && e.closed == s.closed
      && e.workers == s.workers[g := s.workers[g].(pc := Ended)]
  {
    WorkerFrame(s, g);
    EndTaskExact(s, t, t);
  }

  // Two sessions of one task run (`LifecycleReplaced`); the older worker ends, and the newer
  // session, registered, open and running, is without a slot.
  lemma OlderWorkerFreesNewerSlot() returns (acts: seq<Action>)
    ensures var s, t := After(acts), LifecycleReplaced.A;
      && t in s.sessions && s.sessions[t] == 2 && 2 !in s.closed
      && 2 in s.workers && s.workers[2].pc == Running && !HoldsSlot(s, t)
  {
    var s := LifecycleReplaced.TWICE;
    LifecycleReplaced.AWorksTwice();
    LifecycleReplaced.Ended();
    WorkerEnds(s, 0, LifecycleReplaced.A);
    LifecycleReplaced.Onwards(s, WorkerStep(0));
    acts :| After(acts) == Step(s, WorkerStep(0));
  }
}
