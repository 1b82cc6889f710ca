/**
 Safety of aborts over every run: no abort is lost, whatever the order in which handler,
 worker and abort sections interleave, and an abort reaches the running worker.
 */
module LifecycleAborts {
  import opened Lifecycle
  import opened LifecycleStructure

  // ---- No abort is lost ----

  // The abort call will still look the task up, or is about to unregister session g.
  ghost predicate Covers(a: Aborter, t: Task, g: SessionId) {
    a.task == t &&
    match a.pc
    case Mark | LookKeygen => true
    case LookSign => t.kind == Sign
    case IsClosed | Cancel | Close | Unregister => a.sid == g
    case EndSlot | Returned => false
  }

  ghost predicate Covered(s: State, t: Task, g: SessionId) {
    exists c :: c in s.aborters && Covers(s.aborters[c], t, g)
  }

  ghost predicate Unregistering(s: State, g: SessionId) {
    exists c :: c in s.aborters && s.aborters[c].pc == Unregister && s.aborters[c].sid == g
  }

  // The start handler has registered g and will check the mark next.
  ghost predicate WillRecheck(s: State, t: Task, g: SessionId) {
    t in s.starters && s.starters[t].sid == g && s.starters[t].pc == Stop3
  }

  ghost predicate AbortsReach(s: State) {
    && (forall t :: t in s.sessions && s.sessions[t] in s.closed ==> Unregistering(s, s.sessions[t]))
    && (forall t :: t in s.sessions && t in s.marked ==>
          WillRecheck(s, t, s.sessions[t]) || Covered(s, t, s.sessions[t]))
  }

  // Steps that change no existing abort call keep every claim about them.
  lemma CallsGrow(s: State, s': State)
    requires CallsOnlyStart(s, s')
    ensures forall t, g :: Covered(s, t, g) ==> Covered(s', t, g)
    ensures forall g :: Unregistering(s, g) ==> Unregistering(s', g)
  {
    forall t, g | Covered(s, t, g) ensures Covered(s', t, g) {
      var c :| c in s.aborters && Covers(s.aborters[c], t, g);
      assert Covers(s'.aborters[c], t, g);
    }
    forall g | Unregistering(s, g) ensures Unregistering(s', g) {
      var c :| c in s.aborters && s.aborters[c].pc == Unregister && s.aborters[c].sid == g;
      assert s'.aborters[c].pc == Unregister;
    }
  }

  // Steps that add no session, no mark and no closed session, and leave abort calls and
  // pending rechecks in place.
  lemma ShrinkingKeepsAbortsReach(s: State, s': State)
    requires AbortsReach(s) && CallsOnlyStart(s, s')
    requires s'.sessions.Keys <= s.sessions.Keys && s'.marked <= s.marked && s'.closed == s.closed
    requires forall t :: t in s'.sessions ==> s'.sessions[t] == s.sessions[t]
    requires forall t :: t in s.sessions && WillRecheck(s, t, s.sessions[t]) ==> WillRecheck(s', t, s.sessions[t])
    ensures AbortsReach(s')
  {
    CallsGrow(s, s');
  }

  lemma Stop3KeepsAbortsReach(s: State, t: Task, fails: bool)
    requires Structure(s) && AbortsReach(s) && t in s.starters && s.starters[t].pc == Stop3
    ensures AbortsReach(DoStarter(s, t, fails))
  {
    var s' := DoStarter(s, t, fails);
    StartEffectFrame(s, t, fails);
    CallsGrow(s, s');
    if t in s.marked {
      assert Covers(s'.aborters[s.nextAbort], t, s.starters[t].sid);
    }
  }

  lemma RegisterKeepsAbortsReach(s: State, t: Task, fails: bool)
    requires Structure(s) && AbortsReach(s) && t in s.starters && s.starters[t].pc == Register
    ensures AbortsReach(DoStarter(s, t, fails))
  {
    var g := s.starters[t].sid;
    var s' := DoStarter(s, t, fails);
    CallsGrow(s, s');
    assert Untouched(s, t, g) && WillRecheck(s', t, g);
    forall u | u in s'.sessions && s'.sessions[u] in s'.closed ensures Unregistering(s', s'.sessions[u]) {
      assert OwnedBy(s, s'.sessions[u], u);
      assert s'.sessions[u] in s.closed;
    }
  }

  lemma MoveKeepsAbortsReach(s: State, t: Task, fails: bool)
    requires Structure(s) && AbortsReach(s) && t in s.starters
    requires s.starters[t].pc != Stop3 && s.starters[t].pc != Register
    ensures AbortsReach(DoStarter(s, t, fails))
  {
    StartEffectFrame(s, t, fails);
    ShrinkingKeepsAbortsReach(s, DoStarter(s, t, fails));
  }

  lemma StarterKeepsAbortsReach(s: State, t: Task, fails: bool)
    requires Structure(s) && AbortsReach(s) && t in s.starters
    ensures AbortsReach(DoStarter(s, t, fails))
  {
    match s.starters[t].pc
    case Stop3 => Stop3KeepsAbortsReach(s, t, fails);
    case Register => RegisterKeepsAbortsReach(s, t, fails);
    case _ => MoveKeepsAbortsReach(s, t, fails);
  }

  // An abort call that moves on hands each duty it had to someone.
  lemma AbortNextKeepsAbortsReach(s: State, c: AbortId)
    requires Structure(s) && AbortsReach(s) && c in s.aborters
    requires var pc := s.aborters[c].pc; pc != Close && pc != Unregister && pc != Returned
    ensures AbortsReach(DoAborter(s, c))
  {
    var s' := DoAborter(s, c);
    var a := s.aborters[c];
    AbortEffectFrame(s, a);
    AbortEffectSessions(s, a);
    forall t | t in s'.sessions && s'.sessions[t] in s'.closed ensures Unregistering(s', s'.sessions[t]) {
      KeepUnregistering(s, s', c, s.sessions[t]);
    }
    forall t | t in s'.sessions && t in s'.marked && !WillRecheck(s', t, s'.sessions[t])
      ensures Covered(s', t, s'.sessions[t])
    {
      CoverPassesOn(s, c, t);
    }
  }

  lemma CoverPassesOn(s: State, c: AbortId, t: Task)
    requires Structure(s) && AbortsReach(s) && c in s.aborters && t in s.sessions && t in DoAborter(s, c).marked
    requires var pc := s.aborters[c].pc; pc != Close && pc != Unregister && pc != Returned
    requires !WillRecheck(s, t, s.sessions[t])
    ensures Covered(DoAborter(s, c), t, s.sessions[t])
  {
    var g, a, s' := s.sessions[t], s.aborters[c], DoAborter(s, c);
    if t !in s.marked {
      assert a.pc == Mark;
      assert Covers(s'.aborters[c], t, g);
    } else if g in s.closed {
      var e :| e in s.aborters && s.aborters[e].pc == Unregister && s.aborters[e].sid == g;
      assert OwnedBy(s, g, t) && OwnedBy(s, g, s.aborters[e].task);
      assert Covers(s'.aborters[e], t, g);
    } else {
      var d :| d in s.aborters && Covers(s.aborters[d], t, g);
      assert Covers(s'.aborters[d], t, g);
    }
  }

  lemma KeepUnregistering(s: State, s': State, c: AbortId, g: SessionId)
    requires Unregistering(s, g) && c in s.aborters && s.aborters[c].pc != Unregister && c in s'.aborters
    requires s'.aborters == s.aborters[c := s'.aborters[c]]
    ensures Unregistering(s', g)
  {
    var e :| e in s.aborters && s.aborters[e].pc == Unregister && s.aborters[e].sid == g;
    assert s'.aborters[e].pc == Unregister;
  }

  lemma CloseKeepsAbortsReach(s: State, c: AbortId)
    requires Structure(s) && AbortsReach(s) && c in s.aborters && s.aborters[c].pc == Close
    ensures AbortsReach(DoAborter(s, c))
  {
    var s' := DoAborter(s, c);
    forall t | t in s'.sessions && s'.sessions[t] in s'.closed ensures Unregistering(s', s'.sessions[t]) {
      if s.sessions[t] == s.aborters[c].sid {
        assert s'.aborters[c].pc == Unregister;
      } else {
        KeepUnregistering(s, s', c, s.sessions[t]);
      }
    }
    forall t | t in s'.sessions && t in s'.marked && !WillRecheck(s', t, s'.sessions[t])
      ensures Covered(s', t, s'.sessions[t])
    {
      var d :| d in s.aborters && Covers(s.aborters[d], t, s.sessions[t]);
      assert Covers(s'.aborters[d], t, s.sessions[t]);
    }
  }

  lemma UnregisterKeepsAbortsReach(s: State, c: AbortId)
    requires Structure(s) && AbortsReach(s) && c in s.aborters && s.aborters[c].pc == Unregister
    ensures AbortsReach(DoAborter(s, c))
  {
    var s' := DoAborter(s, c);
    var g := s.aborters[c].sid;
    forall t | t in s'.sessions ensures t in s.sessions && s'.sessions[t] == s.sessions[t] != g {
      assert OwnedBy(s, s.sessions[t], t) && OwnedBy(s, g, s.aborters[c].task);
    }
    forall t | t in s'.sessions && s'.sessions[t] in s'.closed ensures Unregistering(s', s'.sessions[t]) {
      var e :| e in s.aborters && s.aborters[e].pc == Unregister && s.aborters[e].sid == s.sessions[t];
      assert s'.aborters[e].pc == Unregister;
    }
    forall t | t in s'.sessions && t in s'.marked && !WillRecheck(s', t, s'.sessions[t])
      ensures Covered(s', t, s'.sessions[t])
    {
      var d :| d in s.aborters && Covers(s.aborters[d], t, s.sessions[t]);
      assert Covers(s'.aborters[d], t, s.sessions[t]);
    }
  }

  lemma AborterKeepsAbortsReach(s: State, c: AbortId)
    requires Structure(s) && AbortsReach(s) && c in s.aborters
    ensures AbortsReach(DoAborter(s, c))
  {
    var pc := s.aborters[c].pc;
    if pc == Close { CloseKeepsAbortsReach(s, c); }
    else if pc == Unregister { UnregisterKeepsAbortsReach(s, c); }
    else if pc != Returned { AbortNextKeepsAbortsReach(s, c); }
    else { assert s.aborters[c := s.aborters[c]] == s.aborters; }
  }

  lemma StepKeepsAbortsReach(s: State, a: Action)
    requires Structure(s) && AbortsReach(s)
    ensures AbortsReach(Step(s, a))
  {
    match a
    case StarterStep(t, fails) => if t in s.starters { StarterKeepsAbortsReach(s, t, fails); }
    case AborterStep(c) => if c in s.aborters { AborterKeepsAbortsReach(s, c); }
    case WorkerStep(g) =>
      if g in s.workers && g in s.taskOf { WorkerFrame(s, g); ShrinkingKeepsAbortsReach(s, Step(s, a)); }
    case ScanStep(c, pick) => if c in s.scans { ScanFrame(s, c, pick); ShrinkingKeepsAbortsReach(s, Step(s, a)); }
    case _ => ShrinkingKeepsAbortsReach(s, Step(s, a));
  }

  lemma {:induction false} AbortsReachHolds(acts: seq<Action>)
    ensures AbortsReach(After(acts))
  {
    if acts != [] {
      var before := acts[..|acts| - 1];
      AbortsReachHolds(before);
      StructureHolds(before);
      StepKeepsAbortsReach(After(before), acts[|acts| - 1]);
    }
  }

  ghost predicate AbortInFlight(s: State, t: Task) {
    exists c :: c in s.aborters && s.aborters[c].task == t && s.aborters[c].pc != Returned
  }

  // Once the start handler and every abort call of a marked task have returned, the task
  // has no session in the map, in whatever order their sections ran.
  lemma NoLostAbort(acts: seq<Action>, t: Task)
    requires var s := After(acts); t in s.marked && t !in s.starters && !AbortInFlight(s, t)
    ensures t !in After(acts).sessions
  {
    AbortsReachHolds(acts);
  }

  // ---- What an abort does to a running worker ----

  ghost predicate Runs(s: State, g: SessionId) {
    || (g in s.workers && s.workers[g].pc == Running)
    || (g in s.taskOf && s.taskOf[g] in s.starters && s.starters[s.taskOf[g]].sid == g
        && (s.starters[s.taskOf[g]].pc == Stop3 || s.starters[s.taskOf[g]].pc == Spawn))
  }

  ghost predicate CancelledFirst(s: State) {
    forall c :: c in s.aborters && s.aborters[c].pc in {Close, Unregister, EndSlot} ==>
      s.aborters[c].sid in s.cancelled
  }

  ghost predicate WorkersTold(s: State) {
    && (forall g {:trigger Runs(s, g)} :: Runs(s, g) ==> SessionLive(s, g) || g in s.cancelled || g in s.replaced)
    && CancelledFirst(s)
    && s.replaced <= s.closed
    && (forall t :: t in s.sessions ==> s.sessions[t] !in s.replaced)
  }

  // Steps that start nothing: a session leaves the map only for a cancelled or ended worker.
  lemma NothingStarts(s: State, s': State)
    requires WorkersTold(s) && s'.replaced == s.replaced && s.closed <= s'.closed && s.cancelled <= s'.cancelled
    requires forall t :: t in s'.sessions ==> t in s.sessions && s'.sessions[t] == s.sessions[t]
    requires forall g {:trigger Runs(s', g)} :: Runs(s', g)
               ==> Runs(s, g) && (SessionLive(s, g) ==> SessionLive(s', g) || g in s'.cancelled)
    requires CancelledFirst(s')
    ensures WorkersTold(s')
  {
  }

  lemma StarterKeepsWorkersTold(s: State, t: Task, fails: bool)
    requires Structure(s) && WorkersTold(s) && t in s.starters && s.starters[t].pc != Register
    ensures WorkersTold(DoStarter(s, t, fails))
  {
    var s' := DoStarter(s, t, fails);
    StartEffectFrame(s, t, fails);
    forall g | Runs(s', g) ensures Runs(s, g) {
      HandlerStartsNothing(s, t, fails, g);
    }
    NothingStarts(s, s');
  }

  lemma HandlerStartsNothing(s: State, t: Task, fails: bool, g: SessionId)
    requires t in s.starters && OwnedBy(s, s.starters[t].sid, t) && s.starters[t].pc != Register
    requires Runs(DoStarter(s, t, fails), g)
    ensures Runs(s, g)
  {
    StartEffectFrame(s, t, fails);
    var s' := DoStarter(s, t, fails);
    if s.starters[t].pc == Spawn {
    } else {
      assert StartEffect(s, t, fails).workers == s.workers;
    }
  }

  lemma RegisterKeepsWorkersTold(s: State, t: Task, fails: bool)
    requires Structure(s) && WorkersTold(s) && t in s.starters && s.starters[t].pc == Register
    ensures WorkersTold(DoStarter(s, t, fails))
  {
    var g := s.starters[t].sid;
    var s' := DoStarter(s, t, fails);
    assert Untouched(s, t, g);
    forall h | Runs(s', h) ensures SessionLive(s', h) || h in s'.cancelled || h in s'.replaced {
      if h != g {
        assert Runs(s, h);
      }
    }
    forall u | u in s'.sessions ensures s'.sessions[u] !in s'.replaced {
      assert OwnedBy(s, s'.sessions[u], u);
    }
  }

  lemma AborterKeepsWorkersTold(s: State, c: AbortId)
    requires Structure(s) && WorkersTold(s) && c in s.aborters
    ensures WorkersTold(DoAborter(s, c))
  {
    var s' := DoAborter(s, c);
    var a := s.aborters[c];
    AbortEffectFrame(s, a);
    if a.pc != Unregister { AbortEffectSessions(s, a); }
    forall g | Runs(s', g) ensures Runs(s, g) && (SessionLive(s, g) ==> SessionLive(s', g) || g in s'.cancelled) {
      if a.pc == Unregister && a.sid != g && SessionLive(s, g) {
        assert OwnedBy(s, a.sid, a.task);
      }
    }
    NothingStarts(s, s');
  }

  lemma WorkerKeepsWorkersTold(s: State, g: SessionId)
    requires Structure(s) && WorkersTold(s) && g in s.workers && g in s.taskOf
    ensures WorkersTold(DoWorker(s, g))
  {
    var s' := DoWorker(s, g);
    WorkerFrame(s, g);
    forall h | Runs(s', h) ensures Runs(s, h) && (SessionLive(s, h) ==> SessionLive(s', h)) {
      WorkerEndsItself(s, g, h);
    }
    NothingStarts(s, s');
  }

  lemma WorkerEndsItself(s: State, g: SessionId, h: SessionId)
    requires Structure(s) && g in s.workers && g in s.taskOf && Runs(DoWorker(s, g), h)
    ensures Runs(s, h) && (SessionLive(s, h) ==> SessionLive(DoWorker(s, g), h))
  {
    WorkerFrame(s, g);
    var t := s.taskOf[g];
    if h == g && t in s.starters && s.starters[t].sid == g {
      assert !RegisteredNoWorker(s.starters[t].pc);
    }
  }

  lemma ScanKeepsWorkersTold(s: State, c: ScanId, pick: Task)
    requires Structure(s) && WorkersTold(s) && c in s.scans
    ensures WorkersTold(DoScan(s, c, pick))
  {
    ScanFrame(s, c, pick);
    NothingStarts(s, DoScan(s, c, pick));
  }

  lemma BeginKeepsWorkersTold(s: State, t: Task, key: string, single: bool)
    requires Structure(s) && WorkersTold(s)
    ensures WorkersTold(DoStartTask(s, t, key, single))
  {
    NothingStarts(s, DoStartTask(s, t, key, single));
  }

  lemma QuietKeepsWorkersTold(s: State, a: Action)
    requires Structure(s) && WorkersTold(s) && (a.NewAbort? || a.NewScan? || a.Lapse?)
    ensures WorkersTold(Step(s, a))
  {
    NothingStarts(s, Step(s, a));
  }

  lemma HandlerKeepsWorkersTold(s: State, t: Task, fails: bool)
    requires Structure(s) && WorkersTold(s) && t in s.starters
    ensures WorkersTold(DoStarter(s, t, fails))
  {
    if s.starters[t].pc == Register {
      RegisterKeepsWorkersTold(s, t, fails);
    } else {
      StarterKeepsWorkersTold(s, t, fails);
    }
  }

  lemma StepKeepsWorkersTold(s: State, a: Action)
    requires Structure(s) && WorkersTold(s)
    ensures WorkersTold(Step(s, a))
  {
    match a
    case StarterStep(t, fails) => if t in s.starters { HandlerKeepsWorkersTold(s, t, fails); }
    case AborterStep(c) => if c in s.aborters { AborterKeepsWorkersTold(s, c); }
    case WorkerStep(g) => if g in s.workers { WorkerKeepsWorkersTold(s, g); }
    case ScanStep(c, pick) => if c in s.scans { ScanKeepsWorkersTold(s, c, pick); }
    case StartTask(t, key, single) => BeginKeepsWorkersTold(s, t, key, single);
    case _ => QuietKeepsWorkersTold(s, a);
  }

  lemma {:induction false} WorkersToldHolds(acts: seq<Action>)
    ensures WorkersTold(After(acts))
  {
    if acts != [] {
      var before := acts[..|acts| - 1];
      WorkersToldHolds(before);
      StructureHolds(before);
      StepKeepsWorkersTold(After(before), acts[|acts| - 1]);
    }
  }

  // A worker of a marked task that still runs when the handler and all aborts have
  // returned has had its abortCtx cancelled, unless a later register took its place in
  // the map, and then its receive channel is closed.
  lemma AbortReachesWorker(acts: seq<Action>, g: SessionId)
    requires var s := After(acts); g in s.workers && s.workers[g].pc == Running
    requires var s := After(acts); g in s.taskOf && s.taskOf[g] in s.marked
    requires var s := After(acts); s.taskOf[g] !in s.starters && !AbortInFlight(s, s.taskOf[g])
    ensures var s := After(acts); g in s.cancelled || (g in s.replaced && g in s.closed)
  {
    WorkersToldHolds(acts);
    NoLostAbort(acts, After(acts).taskOf[g]);
    assert Runs(After(acts), g);
  }
}
