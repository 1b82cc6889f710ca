/**
 How sessions end: a worker takes its session out of the map and leaves after three sections;
 an abort call returns after at most eight, and has then ended the session it found open,
 or done nothing to one it found closed; only these two cancel a context.
 */
module LifecycleEnds {
  import opened SignSlots
  import opened Lifecycle
  import opened LifecycleStructure
  import opened LifecycleStarts
  import opened LifecycleBegins
  import LifecycleSlotLoss

  // ---- A worker and its session ----

  // The session's worker has been spawned; while the session is registered it has not
  // unregistered it.
  ghost predicate Past(s: State, g: SessionId) {
    && g in s.taskOf && (forall t :: t in s.starters && s.starters[t].sid == g ==> s.starters[t].pc == Leave)
    && forall t :: t in s.sessions && s.sessions[t] == g ==> g in s.workers && s.workers[g].pc != Unregistered
  }

  lemma HandlerKeepsPast(s: State, u: Task, fails: bool, g: SessionId)
    requires Structure(s) && Past(s, g) && u in s.starters
    ensures Past(DoStarter(s, u, fails), g)
  {
    HandlerAdds(s, u, fails);
    HandlerChange(s, u, fails);
    var s' := DoStarter(s, u, fails);
    forall t | t in s'.starters && s'.starters[t].sid == g ensures s'.starters[t].pc == Leave {
      if t != u { HandlerAlone(s, u, fails, t); } else { OwnMoves(s, u, fails); }
    }
  }

  lemma WorkerKeepsPast(s: State, h: SessionId, g: SessionId)
    requires Structure(s) && Past(s, g) && h in s.workers && h in s.taskOf
    ensures Past(DoWorker(s, h), g)
  {
    WorkerFrame(s, h);
    forall t | t in s.sessions && s.sessions[t] == g ensures s.taskOf[g] == t {
      assert OwnedBy(s, s.sessions[t], t);
    }
  }

  lemma AborterKeepsPast(s: State, c: AbortId, g: SessionId)
    requires Past(s, g) && c in s.aborters
    ensures Past(DoAborter(s, c), g)
  {
    OtherStepsAddNothing(s, AborterStep(c));
    AbortEffectFrame(s, s.aborters[c]);
  }

  lemma StepKeepsPast(s: State, a: Action, g: SessionId)
    requires Structure(s) && Past(s, g)
    ensures Past(Step(s, a), g)
  {
    match a
    case StarterStep(u, fails) => if u in s.starters { HandlerKeepsPast(s, u, fails, g); }
    case AborterStep(c) => if c in s.aborters { AborterKeepsPast(s, c, g); }
    case WorkerStep(h) => if h in s.workers && h in s.taskOf { WorkerKeepsPast(s, h, g); }
    case ScanStep(c, pick) => if c in s.scans { ScanFrame(s, c, pick); }
    case _ =>
  }

  // A worker appears by its handler's spawn section, and running.
  lemma NewWorkerIsPast(s: State, a: Action, g: SessionId)
    requires Structure(s) && g !in s.workers && g in Step(s, a).workers
    ensures Past(Step(s, a), g)
  {
    if !a.StarterStep? {
      OtherStepsAddNothing(s, a);
    } else if a.task in s.starters {
      var t, s' := a.task, Step(s, a);
      HandlerAdds(s, t, a.fails);
      HandlerChange(s, t, a.fails);
      OwnMoves(s, t, a.fails);
      assert OwnedBy(s, g, t);
      forall u | u in s'.starters && s'.starters[u].sid == g ensures s'.starters[u].pc == Leave {
        assert OwnedBy(s, s.starters[u].sid, u);
      }
    }
  }

  ghost predicate HadWorker(acts: seq<Action>, m: nat, g: SessionId) { m <= |acts| && g in After(acts[..m]).workers }

  lemma {:induction false} SpawnedIsPast(acts: seq<Action>, m: nat, n: nat, g: SessionId)
    requires m <= n <= |acts| && HadWorker(acts, m, g)
    ensures Past(After(acts[..n]), g)
    decreases n
  {
    if n > 0 {
      UpTo(acts, n - 1);
      assert Structure(After(acts[..n - 1])) by { StructureHolds(acts[..n - 1]); }
      if m < n {
        SpawnedIsPast(acts, m, n - 1, g);
        StepKeepsPast(After(acts[..n - 1]), acts[n - 1], g);
      } else if HadWorker(acts, n - 1, g) {
        SpawnedIsPast(acts, n - 1, n - 1, g);
        StepKeepsPast(After(acts[..n - 1]), acts[n - 1], g);
      } else {
        NewWorkerIsPast(After(acts[..n - 1]), acts[n - 1], g);
      }
    }
  }

  // A registered session whose worker was ever spawned still has it, and the worker has not
  // unregistered it: so a task without workers has no such session in the map.
  lemma RegisteredSessionHasWorker(acts: seq<Action>, m: nat, t: Task)
    requires t in After(acts).sessions && HadWorker(acts, m, After(acts).sessions[t])
    ensures var s := After(acts); var g := s.sessions[t];
      g in s.workers && s.workers[g].pc in {Running, Ended} && OwnedBy(s, g, t)
  {
    assert acts[..|acts|] == acts;
    SpawnedIsPast(acts, m, |acts|, After(acts).sessions[t]);
    StructureHolds(acts);
  }

  ghost predicate NoWorkerLeft(s: State, t: Task) { forall g :: g in s.workers ==> !OwnedBy(s, g, t) }

  lemma NoWorkerNoSession(acts: seq<Action>, t: Task)
    requires NoWorkerLeft(After(acts), t) && t in After(acts).sessions
    ensures forall m: nat :: !HadWorker(acts, m, After(acts).sessions[t])
  {
    forall m: nat ensures !HadWorker(acts, m, After(acts).sessions[t]) {
      if HadWorker(acts, m, After(acts).sessions[t]) { RegisteredSessionHasWorker(acts, m, t); }
    }
  }

  function WorkerSections(acts: seq<Action>, k: nat, n: nat, g: SessionId): nat
    requires k <= n <= |acts|
    decreases n
  {
    if k == n then 0 else WorkerSections(acts, k, n - 1, g) + (if acts[n - 1] == WorkerStep(g) then 1 else 0)
  }

  // Past its spawn, and gone or with so many sections left.
  ghost predicate WorkerLeft(s: State, g: SessionId, sections: nat) {
    && Past(s, g)
    && (g in s.workers ==>
          match s.workers[g].pc
          case Running => sections == 0
          case Ended => sections <= 1
          case Unregistered => sections <= 2)
  }

  lemma WorkerLeaves(s: State, a: Action, g: SessionId, sections: nat)
    requires Structure(s) && WorkerLeft(s, g, sections)
    ensures WorkerLeft(Step(s, a), g, sections + (if a == WorkerStep(g) then 1 else 0))
  {
    StepKeepsPast(s, a, g);
    if a.StarterStep? {
      if a.task in s.starters { HandlerAdds(s, a.task, a.fails); }
    } else if a.WorkerStep? {
      if a.sid in s.workers && a.sid in s.taskOf { WorkersChange(s, a.sid); }
    } else {
      OthersKeepWorkers(s, a);
    }
  }

  lemma OthersKeepWorkers(s: State, a: Action)
    requires !a.StarterStep? && !a.WorkerStep?
    ensures Step(s, a).workers == s.workers
  {
    match a
    case AborterStep(c) => if c in s.aborters { AbortEffectFrame(s, s.aborters[c]); }
    case ScanStep(c, pick) => if c in s.scans { ScanFrame(s, c, pick); }
    case _ =>
  }

  lemma WorkersChange(s: State, h: SessionId)
    requires h in s.workers && h in s.taskOf
    ensures DoWorker(s, h).workers ==
      match s.workers[h].pc
      case Running => s.workers[h := s.workers[h].(pc := Ended)]
      case Ended => s.workers[h := s.workers[h].(pc := Unregistered)]
      case Unregistered => s.workers - {h}
  {
    EndTaskFrame(s, s.taskOf[h]);
  }

  lemma WorkerLeftFirst(acts: seq<Action>, k: nat, g: SessionId)
    requires k <= |acts| && g in After(acts[..k]).workers && After(acts[..k]).workers[g].pc == Running
    ensures WorkerLeft(After(acts[..k]), g, 0)
  {
    assert HadWorker(acts, k, g);
    SpawnedIsPast(acts, k, k, g);
  }

  lemma WorkerLeftNext(acts: seq<Action>, k: nat, n: nat, g: SessionId)
    requires k <= n < |acts| && WorkerLeft(After(acts[..n]), g, WorkerSections(acts, k, n, g))
    ensures WorkerLeft(After(acts[..n + 1]), g, WorkerSections(acts, k, n + 1, g))
  {
    UpTo(acts, n);
    assert Structure(After(acts[..n])) by { StructureHolds(acts[..n]); }
    WorkerLeaves(After(acts[..n]), acts[n], g, WorkerSections(acts, k, n, g));
  }

  lemma {:induction false} WorkerLeftFrom(acts: seq<Action>, k: nat, n: nat, g: SessionId)
    requires k <= n <= |acts| && WorkerLeft(After(acts[..k]), g, 0)
    ensures WorkerLeft(After(acts[..n]), g, WorkerSections(acts, k, n, g))
    decreases n
  {
    if k < n {
      WorkerLeftFrom(acts, k, n - 1, g);
      WorkerLeftNext(acts, k, n - 1, g);
    }
  }

  // A worker that runs is gone, for good, after three sections of its own, and its session is
  // then not in the map.
  lemma WorkerGone(acts: seq<Action>, k: nat, n: nat, g: SessionId)
    requires k <= n <= |acts| && g in After(acts[..k]).workers && After(acts[..k]).workers[g].pc == Running
    requires WorkerSections(acts, k, n, g) >= 3
    ensures g !in After(acts[..n]).workers
    ensures forall t :: t in After(acts[..n]).sessions ==> After(acts[..n]).sessions[t] != g
  {
    WorkerLeftFirst(acts, k, g);
    WorkerLeftFrom(acts, k, n, g);
  }

  // ---- Who cancels a context ----

  // The j-th action cancels the session's context.
  predicate Cancels(acts: seq<Action>, j: nat, g: SessionId) {
    j < |acts| && g !in After(acts[..j]).cancelled && g in After(acts[..j + 1]).cancelled
  }

  // Only an abort call of the session's task, past its closed check on it, or the last
  // section of its own single-key worker.
  lemma OnlyAbortsAndSingleWorkersCancel(acts: seq<Action>, j: nat, g: SessionId)
    requires Cancels(acts, j, g)
    ensures var s := After(acts[..j]);
      match acts[j]
      case AborterStep(c) => c in s.aborters && s.aborters[c].sid == g && OwnedBy(s, g, s.aborters[c].task)
      case WorkerStep(h) => h == g && g in s.workers && s.workers[g] == Worker(true, Unregistered)
      case _ => false
  {
    UpTo(acts, j);
    StructureHolds(acts[..j]);
    CancelStep(After(acts[..j]), acts[j], g);
  }

  lemma CancelStep(s: State, a: Action, g: SessionId)
    requires AbortersOk(s) && g !in s.cancelled && g in Step(s, a).cancelled
    ensures match a
            case AborterStep(c) => c in s.aborters && s.aborters[c].sid == g && OwnedBy(s, g, s.aborters[c].task)
            case WorkerStep(h) => h == g && g in s.workers && s.workers[g] == Worker(true, Unregistered)
            case _ => false
  {
    match a
    case StarterStep(u, fails) => if u in s.starters { HandlerCancelsNothing(s, u, fails); }
    case AborterStep(c) => if c in s.aborters { AbortCancelsOnly(s, s.aborters[c], g); }
    case WorkerStep(h) => if h in s.workers && h in s.taskOf { WorkerCancelsOnly(s, h); }
    case ScanStep(c, pick) => if c in s.scans { ScanFrame(s, c, pick); }
    case _ =>
  }

  lemma HandlerCancelsNothing(s: State, u: Task, fails: bool)
    requires u in s.starters
    ensures DoStarter(s, u, fails).cancelled == s.cancelled
  {
    if s.starters[u].pc != Register { StartEffectFrame(s, u, fails); }
  }

  lemma AbortCancelsOnly(s: State, a: Aborter, g: SessionId)
    requires g !in s.cancelled && g in AbortEffect(s, a).cancelled
    ensures a.pc == Cancel && a.sid == g
  {
    if a.pc == EndSlot { EndTaskFrame(s, a.task); }
  }

  lemma WorkerCancelsOnly(s: State, h: SessionId)
    requires h in s.workers && h in s.taskOf
    ensures DoWorker(s, h).cancelled ==
      if s.workers[h] == Worker(true, Unregistered) then s.cancelled + {h} else s.cancelled
  {
    EndTaskFrame(s, s.taskOf[h]);
  }

  // ---- An abort call runs to its end ----

  function CallSections(acts: seq<Action>, k: nat, n: nat, c: AbortId): nat
    requires k <= n <= |acts|
    decreases n
  {
    if k == n then 0 else CallSections(acts, k, n - 1, c) + (if acts[n - 1] == AborterStep(c) then 1 else 0)
  }

  function CallRest(pc: AbortPc): nat {
    match pc
    case Mark => 8
    case LookKeygen => 7
    case LookSign => 6
    case IsClosed => 5
    case Cancel => 4
    case Close => 3
    case Unregister => 2
    case EndSlot => 1
    case Returned => 0
  }

  ghost predicate CallLeft(s: State, c: AbortId, sections: nat, rest: nat) {
    c in s.aborters && (s.aborters[c].pc == Returned || CallRest(s.aborters[c].pc) + sections <= rest)
  }

  lemma CallAdvances(s: State, a: Action, c: AbortId, sections: nat, rest: nat)
    requires AbortersOk(s) && CallLeft(s, c, sections, rest)
    ensures CallLeft(Step(s, a), c, sections + (if a == AborterStep(c) then 1 else 0), rest)
  {
    if a == AborterStep(c) {
      AbortEffectFrame(s, s.aborters[c]);
    } else {
      OthersKeepCall(s, a, c);
    }
  }

  lemma OthersKeepCall(s: State, a: Action, c: AbortId)
    requires AbortersOk(s) && c in s.aborters && a != AborterStep(c)
    ensures c in Step(s, a).aborters && Step(s, a).aborters[c] == s.aborters[c]
  {
    match a
    case StarterStep(u, fails) => if u in s.starters && s.starters[u].pc != Register { StartEffectFrame(s, u, fails); }
    case AborterStep(d) => if d in s.aborters { AbortEffectFrame(s, s.aborters[d]); }
    case WorkerStep(g) => if g in s.workers && g in s.taskOf { WorkerFrame(s, g); }
    case ScanStep(d, pick) => if d in s.scans { ScanFrame(s, d, pick); }
    case _ =>
  }

  lemma {:induction false} CallLeftFrom(acts: seq<Action>, k: nat, n: nat, c: AbortId, rest: nat)
    requires k <= n <= |acts| && CallLeft(After(acts[..k]), c, 0, rest)
    ensures CallLeft(After(acts[..n]), c, CallSections(acts, k, n, c), rest)
    decreases n
  {
    if k < n {
      CallLeftFrom(acts, k, n - 1, c, rest);
      CallLeftNext(acts, k, n - 1, c, rest);
    }
  }

  lemma CallLeftNext(acts: seq<Action>, k: nat, n: nat, c: AbortId, rest: nat)
    requires k <= n < |acts| && CallLeft(After(acts[..n]), c, CallSections(acts, k, n, c), rest)
    ensures CallLeft(After(acts[..n + 1]), c, CallSections(acts, k, n + 1, c), rest)
  {
    UpTo(acts, n);
    assert AbortersOk(After(acts[..n])) by { StructureHolds(acts[..n]); }
    CallAdvances(After(acts[..n]), acts[n], c, CallSections(acts, k, n, c), rest);
  }

  // An abort call has returned after eight sections of its own.
  lemma AbortReturns(acts: seq<Action>, k: nat, n: nat, c: AbortId)
    requires k <= n <= |acts| && c in After(acts[..k]).aborters && CallSections(acts, k, n, c) >= 8
    ensures c in After(acts[..n]).aborters && After(acts[..n]).aborters[c].pc == Returned
  {
    CallLeftFrom(acts, k, n, c, 8);
  }

  // ---- What it has done to the session it found ----

  // The call found this session open, and has done so much to it; it is never registered again
  // once it has been unregistered.
  ghost predicate Ending(s: State, c: AbortId, t: Task, g: SessionId) {
    && c in s.aborters && OwnedBy(s, g, t)
    && (s.aborters[c].pc in {Cancel, Close, Unregister, EndSlot} ==> s.aborters[c].task == t && s.aborters[c].sid == g)
    && s.aborters[c].pc in {Cancel, Close, Unregister, EndSlot, Returned}
    && (s.aborters[c].pc != Cancel ==> g in s.cancelled)
    && (s.aborters[c].pc in {Unregister, EndSlot, Returned} ==> g in s.closed)
    && (s.aborters[c].pc in {EndSlot, Returned} ==> forall u :: u in s.sessions ==> s.sessions[u] != g)
    && (forall u :: u in s.starters && s.starters[u].sid == g ==> !NotRegisteredYet(s.starters[u].pc))
  }

  lemma CancelledGrows(s: State, a: Action)
    ensures s.cancelled <= Step(s, a).cancelled
  {
    match a
    case StarterStep(u, fails) => if u in s.starters { HandlerCancelsNothing(s, u, fails); }
    case AborterStep(c) => if c in s.aborters && s.aborters[c].pc == EndSlot { EndTaskFrame(s, s.aborters[c].task); }
    case WorkerStep(h) => if h in s.workers && h in s.taskOf { WorkerCancelsOnly(s, h); }
    case ScanStep(c, pick) => if c in s.scans { ScanFrame(s, c, pick); }
    case _ =>
  }

  ghost predicate PastRegister(s: State, g: SessionId) {
    g in s.taskOf && forall u :: u in s.starters && s.starters[u].sid == g ==> !NotRegisteredYet(s.starters[u].pc)
  }

  lemma PastRegisterStays(s: State, a: Action, g: SessionId)
    requires Structure(s) && PastRegister(s, g)
    ensures PastRegister(Step(s, a), g)
    ensures forall u :: u in Step(s, a).sessions && Step(s, a).sessions[u] == g ==>
      u in s.sessions && s.sessions[u] == g
  {
    StartersChange(s, a);
    forall u | u in Step(s, a).starters && Step(s, a).starters[u].sid == g
      ensures !NotRegisteredYet(Step(s, a).starters[u].pc)
    {
      if Own(a, u) { OwnMoves(s, u, a.fails); } else { OthersKeepHandler(s, a, u); }
    }
    if a.StarterStep? {
      if a.task in s.starters { HandlerAdds(s, a.task, a.fails); }
    } else {
      OtherStepsAddNothing(s, a);
    }
  }

  lemma UnregisterTakesOut(s: State, c: AbortId, t: Task, g: SessionId)
    requires Structure(s) && c in s.aborters && s.aborters[c] == Aborter(t, Unregister, g) && OwnedBy(s, g, t)
    ensures forall u :: u in DoAborter(s, c).sessions ==> DoAborter(s, c).sessions[u] != g
  {
    forall u | u in s.sessions && s.sessions[u] == g ensures u == t {
      assert OwnedBy(s, s.sessions[u], u);
    }
  }

  lemma EndingAdvances(s: State, c: AbortId, t: Task, g: SessionId)
    requires Structure(s) && Ending(s, c, t, g) && PastRegister(s, g)
    ensures Ending(DoAborter(s, c), c, t, g)
  {
    AbortEffectFrame(s, s.aborters[c]);
    PastRegisterStays(s, AborterStep(c), g);
    CancelledGrows(s, AborterStep(c));
    ClosedGrows(s, AborterStep(c));
    if s.aborters[c].pc == Unregister { UnregisterTakesOut(s, c, t, g); }
  }

  lemma EndingStays(s: State, a: Action, c: AbortId, t: Task, g: SessionId)
    requires Structure(s) && Ending(s, c, t, g)
    ensures Ending(Step(s, a), c, t, g)
  {
    if a == AborterStep(c) {
      EndingAdvances(s, c, t, g);
    } else {
      OthersKeepCall(s, a, c);
      PastRegisterStays(s, a, g);
      CancelledGrows(s, a);
      ClosedGrows(s, a);
      OwnerStays(s, a, g);
    }
  }

  lemma OwnerStays(s: State, a: Action, g: SessionId)
    requires SessionsOk(s) && g in s.taskOf
    ensures g in Step(s, a).taskOf && Step(s, a).taskOf[g] == s.taskOf[g]
  {
    match a
    case StarterStep(u, fails) => if u in s.starters { HandlerChange(s, u, fails); }
    case AborterStep(c) => if c in s.aborters { AbortEffectFrame(s, s.aborters[c]); }
    case WorkerStep(h) => if h in s.workers && h in s.taskOf { WorkerFrame(s, h); }
    case ScanStep(c, pick) => if c in s.scans { ScanFrame(s, c, pick); }
    case _ =>
  }

  lemma {:induction false} EndingFrom(acts: seq<Action>, k: nat, n: nat, c: AbortId, t: Task, g: SessionId)
    requires k <= n <= |acts| && Ending(After(acts[..k]), c, t, g)
    ensures Ending(After(acts[..n]), c, t, g)
    decreases n
  {
    if k < n {
      EndingFrom(acts, k, n - 1, c, t, g);
      UpTo(acts, n - 1);
      assert Structure(After(acts[..n - 1])) by { StructureHolds(acts[..n - 1]); }
      EndingStays(After(acts[..n - 1]), acts[n - 1], c, t, g);
    }
  }

  lemma FoundOpen(s: State, c: AbortId, t: Task, g: SessionId)
    requires Structure(s) && c in s.aborters && s.aborters[c] == Aborter(t, IsClosed, g) && g !in s.closed
    ensures Ending(DoAborter(s, c), c, t, g)
  {
    assert OwnedBy(s, g, t);
    forall u | u in s.starters && s.starters[u].sid == g ensures !NotRegisteredYet(s.starters[u].pc) {
      assert OwnedBy(s, s.starters[u].sid, u);
      assert Holding(s.aborters[c].pc);
    }
  }

  // An abort call that finds its session open has, once it has returned, cancelled it, closed
  // it and taken it out of the map for good.
  lemma AbortEndsOpenSession(acts: seq<Action>, k: nat, n: nat, c: AbortId, t: Task, g: SessionId)
    requires k < n <= |acts| && acts[k] == AborterStep(c)
    requires var s := After(acts[..k]); c in s.aborters && s.aborters[c] == Aborter(t, IsClosed, g) && g !in s.closed
    requires CallSections(acts, k + 1, n, c) >= 4
    ensures var s := After(acts[..n]);
      && c in s.aborters && s.aborters[c].pc == Returned && g in s.cancelled && g in s.closed
      && forall u :: u in s.sessions ==> s.sessions[u] != g
  {
    UpTo(acts, k);
    StructureHolds(acts[..k]);
    FoundOpen(After(acts[..k]), c, t, g);
    EndingFrom(acts, k + 1, n, c, t, g);
    CallLeftFrom(acts, k + 1, n, c, 4);
  }

  // One that finds it closed does nothing more.
  lemma AbortLeavesClosedSession(acts: seq<Action>, k: nat, n: nat, c: AbortId, t: Task, g: SessionId)
    requires k < n < |acts| && acts[k] == AborterStep(c) && acts[n] == AborterStep(c)
    requires var s := After(acts[..k]); c in s.aborters && s.aborters[c] == Aborter(t, IsClosed, g) && g in s.closed
    ensures After(acts[..n + 1]) == After(acts[..n])
  {
    UpTo(acts, k);
    assert CallLeft(After(acts[..k + 1]), c, 0, 0);
    CallLeftFrom(acts, k + 1, n, c, 0);
    UpTo(acts, n);
    var s := After(acts[..n]);
    assert s.aborters[c := s.aborters[c]] == s.aborters;
  }

  // An abort of a task is a call of its own, at its marking section; a handler's stop and a
  // scan make theirs in the same way (MarkedHandlerAborts, LifecycleScan.DisconnectAbortsAll).
  lemma AbortIsCalled(acts: seq<Action>, k: nat, t: Task)
    requires k < |acts| && acts[k] == NewAbort(t)
    ensures var s, s' := After(acts[..k]), After(acts[..k + 1]); var c := s.nextAbort;
      c !in s.aborters && c in s'.aborters && s'.aborters[c].task == t && s'.aborters[c].pc == Mark
  {
    UpTo(acts, k);
    StructureHolds(acts[..k]);
  }

  // Its first section puts the mark in force.
  lemma AbortMarks(acts: seq<Action>, k: nat, c: AbortId)
    requires k < |acts| && acts[k] == AborterStep(c) && c in After(acts[..k]).aborters
    requires After(acts[..k]).aborters[c].pc == Mark
    ensures After(acts[..k]).aborters[c].task in After(acts[..k + 1]).marked
  {
    UpTo(acts, k);
  }
}
