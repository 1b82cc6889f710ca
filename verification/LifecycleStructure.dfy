/**
 The structural invariant of the task lifecycle: session ids belong to one task each, a
 session is untouched until its handler registers it, and abort calls act only on
 sessions of their own task.
 */
module LifecycleStructure {
  import opened SignSlots
  import opened Lifecycle

  // The starter's session has not been put into the map.
  ghost predicate NotRegisteredYet(pc: StartPc) {
    pc.Check? || pc.Stop1? || pc.Busy? || pc.LookOld? || pc.OldClosed? || pc.ClearStale? || pc.Stop2?
    || pc.BeginSlot? || pc.Register? || (pc.Aborting? && !pc.registered)
  }

  // The starter's session has been put into the map and its worker is not spawned.
  ghost predicate RegisteredNoWorker(pc: StartPc) {
    pc.Stop3? || pc.Spawn? || (pc.Aborting? && pc.registered)
  }

  // The abort call has looked its session up and may still act on it.
  ghost predicate Holding(pc: AbortPc) {
    pc.IsClosed? || pc.Cancel? || pc.Close? || pc.Unregister? || pc.EndSlot?
  }

  ghost predicate OwnedBy(s: State, g: SessionId, t: Task) {
    g in s.taskOf && s.taskOf[g] == t
  }

  ghost predicate Untouched(s: State, t: Task, g: SessionId) {
    && g !in s.closed && g !in s.cancelled && g !in s.replaced && g !in s.workers
    && (t in s.sessions ==> s.sessions[t] != g)
    && (forall c :: c in s.aborters && Holding(s.aborters[c].pc) ==> s.aborters[c].sid != g)
  }

  ghost predicate StartersOk(s: State) {
    && s.starting == s.starters.Keys
    && (forall t :: t in s.starters ==>
          && OwnedBy(s, s.starters[t].sid, t)
          && (NotRegisteredYet(s.starters[t].pc) ==> Untouched(s, t, s.starters[t].sid))
          && (RegisteredNoWorker(s.starters[t].pc) ==> s.starters[t].sid !in s.workers)
          && (s.starters[t].pc.Aborting? ==>
                s.starters[t].pc.call in s.aborters && s.aborters[s.starters[t].pc.call].task == t))
  }

  ghost predicate AbortersOk(s: State) {
    forall c :: c in s.aborters ==>
      && c < s.nextAbort
      && (Holding(s.aborters[c].pc) ==> OwnedBy(s, s.aborters[c].sid, s.aborters[c].task))
  }

  ghost predicate SessionsOk(s: State) {
    && (forall g :: g in s.taskOf ==> g < s.nextSid)
    && (forall t :: t in s.sessions ==> OwnedBy(s, s.sessions[t], t))
    && (forall g :: g in s.workers || g in s.closed || g in s.cancelled || g in s.replaced ==> g in s.taskOf)
  }

  ghost predicate Structure(s: State) {
    StartersOk(s) && AbortersOk(s) && SessionsOk(s) && Inverse(s.signSlots)
  }

  // ---- Frames: what each kind of step leaves alone ----

  // Existing abort calls stay as they are; a new one starts at its first section.
  ghost predicate CallsOnlyStart(s: State, s': State) {
    && (forall c :: c in s.aborters ==> c in s'.aborters && s'.aborters[c] == s.aborters[c])
    && (forall c :: c in s'.aborters ==> c in s.aborters || s'.aborters[c].pc == Mark)
  }

  lemma StartEffectFrame(s: State, t: Task, fails: bool)
    requires t in s.starters && s.starters[t].pc != Register
    ensures var e := StartEffect(s, t, fails);
      e == s.(keygenActive := e.keygenActive, signSlots := e.signSlots, workers := e.workers,
              aborters := e.aborters, nextAbort := e.nextAbort)
    ensures AbortersOk(s) ==> CallsOnlyStart(s, StartEffect(s, t, fails))
  {
  }

  lemma EndTaskFrame(s: State, t: Task)
    ensures var e := EndTask(s, t); e == s.(keygenActive := e.keygenActive, signSlots := e.signSlots)
  {
  }

  lemma AbortEffectFrame(s: State, a: Aborter)
    ensures var e := AbortEffect(s, a);
      e == s.(marked := e.marked, cancelled := e.cancelled, closed := e.closed,
              sessions := e.sessions, keygenActive := e.keygenActive, signSlots := e.signSlots)
  {
    if a.pc == EndSlot { EndTaskFrame(s, a.task); }
  }

  lemma AbortEffectSessions(s: State, a: Aborter)
    requires a.pc != Unregister
    ensures AbortEffect(s, a).sessions == s.sessions
  {
  }

  lemma WorkerFrame(s: State, g: SessionId)
    requires g in s.workers && g in s.taskOf
    ensures var s' := DoWorker(s, g);
      s' == s.(keygenActive := s'.keygenActive, signSlots := s'.signSlots, sessions := s'.sessions,
               workers := s'.workers, cancelled := s'.cancelled)
    ensures DoWorker(s, g).sessions == s.sessions
            || (DoWorker(s, g).sessions == s.sessions - {s.taskOf[g]} && SessionLive(s, g) && s.workers[g].pc == Ended)
  {
  }

  lemma ScanFrame(s: State, c: ScanId, pick: Task)
    requires c in s.scans
    ensures var s' := DoScan(s, c, pick);
      s' == s.(scans := s'.scans, aborters := s'.aborters, nextAbort := s'.nextAbort)
    ensures AbortersOk(s) ==> CallsOnlyStart(s, DoScan(s, c, pick))
  {
  }

  // ---- Each elementary update keeps the structure; a step is one or two of them ----

  // Updates after which no session that was untouched has been touched.
  lemma UntouchedKept(s: State, s': State)
    requires StartersOk(s) && s'.starters == s.starters && s'.taskOf == s.taskOf && s'.starting == s.starting
    requires forall t, g :: OwnedBy(s, g, t) && Untouched(s, t, g) ==> Untouched(s', t, g)
    requires forall g :: g in s'.workers ==> g in s.workers
    requires forall c :: c in s.aborters ==> c in s'.aborters && s'.aborters[c].task == s.aborters[c].task
    ensures StartersOk(s')
  {
    forall t | t in s'.starters && NotRegisteredYet(s'.starters[t].pc) ensures Untouched(s', t, s'.starters[t].sid) {
      assert OwnedBy(s, s.starters[t].sid, t);
    }
  }

  lemma GotoKeepsStructure(s: State, t: Task, pc: StartPc)
    requires Structure(s) && t in s.starters
    requires NotRegisteredYet(pc) ==> NotRegisteredYet(s.starters[t].pc)
    requires RegisteredNoWorker(pc) ==> NotRegisteredYet(s.starters[t].pc) || RegisteredNoWorker(s.starters[t].pc)
    requires pc.Aborting? ==> pc.call in s.aborters && s.aborters[pc.call].task == t
    ensures Structure(s.(starters := s.starters[t := s.starters[t].(pc := pc)]))
  {
    var s' := s.(starters := s.starters[t := s.starters[t].(pc := pc)]);
    forall u | u in s'.starters && NotRegisteredYet(s'.starters[u].pc) ensures Untouched(s', u, s'.starters[u].sid) {
      assert Untouched(s, u, s.starters[u].sid);
    }
  }

  lemma CallAbortKeepsStructure(s: State, t: Task)
    requires Structure(s)
    ensures Structure(CallAbort(s, t))
  {
    UntouchedKept(s, CallAbort(s, t));
  }

  // Steps that write only slots, marks or scans.
  lemma OtherFieldsKeepStructure(s: State, s': State)
    requires Structure(s) && Inverse(s'.signSlots)
    requires s' == s.(keygenActive := s'.keygenActive, signSlots := s'.signSlots, marked := s'.marked,
                      scans := s'.scans)
    ensures Structure(s')
  {
    UntouchedKept(s, s');
  }

  lemma EndTaskKeepsStructure(s: State, t: Task)
    requires Structure(s)
    ensures Structure(EndTask(s, t))
  {
    BeginEndKeepInverse(s.signSlots, t, "");
    OtherFieldsKeepStructure(s, EndTask(s, t));
  }

  lemma RegisterKeepsStructure(s: State, t: Task, fails: bool)
    requires Structure(s) && t in s.starters && s.starters[t].pc == Register
    ensures Structure(DoStarter(s, t, fails))
  {
    var g := s.starters[t].sid;
    assert Untouched(s, t, g);
    GotoKeepsStructure(s, t, Stop3);
    var m := s.(starters := s.starters[t := s.starters[t].(pc := Stop3)]);
    var s' := RegisterSession(m, t, g);
    forall u | u in s'.starters && NotRegisteredYet(s'.starters[u].pc) ensures Untouched(s', u, s'.starters[u].sid) {
      assert u != t && Untouched(s, u, s.starters[u].sid);
      assert OwnedBy(s, s.starters[u].sid, u);
    }
    assert s' == DoStarter(s, t, fails);
  }

  lemma SpawnKeepsStructure(s: State, t: Task, fails: bool)
    requires Structure(s) && t in s.starters && s.starters[t].pc == Spawn
    ensures Structure(DoStarter(s, t, fails))
  {
    GotoKeepsStructure(s, t, Leave);
    var m := s.(starters := s.starters[t := s.starters[t].(pc := Leave)]);
    var s' := m.(workers := s.workers[s.starters[t].sid := Worker(s.starters[t].single, Running)]);
    forall u | u in s'.starters && NotRegisteredYet(s'.starters[u].pc) ensures Untouched(s', u, s'.starters[u].sid) {
      assert Untouched(m, u, m.starters[u].sid);
      assert OwnedBy(s, s.starters[u].sid, u);
    }
    assert s' == DoStarter(s, t, fails);
  }

  lemma LeaveKeepsStructure(s: State, t: Task, fails: bool)
    requires Structure(s) && t in s.starters && s.starters[t].pc == Leave
    ensures Structure(DoStarter(s, t, fails))
  {
    var s' := s.(starting := s.starting - {t}, starters := s.starters - {t});
    forall u | u in s'.starters && NotRegisteredYet(s'.starters[u].pc) ensures Untouched(s', u, s'.starters[u].sid) {
      assert Untouched(s, u, s.starters[u].sid);
    }
  }

  lemma StartKeepsStructure(s: State, t: Task, key: string, single: bool)
    requires Structure(s)
    ensures Structure(DoStartTask(s, t, key, single))
  {
    var s' := DoStartTask(s, t, key, single);
    forall u | u in s'.starters && NotRegisteredYet(s'.starters[u].pc) ensures Untouched(s', u, s'.starters[u].sid) {
      if u in s.starters {
        assert Untouched(s, u, s.starters[u].sid);
      }
    }
  }

  lemma EffectKeepsStructure(s: State, t: Task, fails: bool)
    requires Structure(s) && t in s.starters && s.starters[t].pc != Register && s.starters[t].pc != Spawn
    ensures Structure(StartEffect(s, t, fails))
  {
    CallAbortKeepsStructure(s, t);
    var e := StartEffect(s, t, fails);
    if e != CallAbort(s, t) {
      BeginEndKeepInverse(s.signSlots, t, s.starters[t].key);
      if s.starters[t].pc.ClearStale? { BeginEndKeepInverse(s.signSlots, s.starters[t].pc.busy, ""); }
      assert e == s.(keygenActive := e.keygenActive, signSlots := e.signSlots);
      OtherFieldsKeepStructure(s, e);
    }
  }

  lemma MoveKeepsStructure(s: State, t: Task, fails: bool)
    requires Structure(s) && t in s.starters
    requires var pc := s.starters[t].pc; pc != Register && pc != Spawn && pc != Leave
    ensures Structure(DoStarter(s, t, fails))
  {
    EffectKeepsStructure(s, t, fails);
    StartEffectFrame(s, t, fails);
    GotoKeepsStructure(StartEffect(s, t, fails), t, StartNext(s, t, fails));
  }

  lemma StarterKeepsStructure(s: State, t: Task, fails: bool)
    requires Structure(s) && t in s.starters
    ensures Structure(DoStarter(s, t, fails))
  {
    match s.starters[t].pc
    case Register => RegisterKeepsStructure(s, t, fails);
    case Spawn => SpawnKeepsStructure(s, t, fails);
    case Leave => LeaveKeepsStructure(s, t, fails);
    case _ => MoveKeepsStructure(s, t, fails);
  }

  // Moving an abort call on; it may take up the session that is in the map for its task.
  lemma AbortNextKeepsStructure(s: State, c: AbortId, a: Aborter)
    requires Structure(s) && c in s.aborters && a.task == s.aborters[c].task
    requires Holding(a.pc) ==>
               || (Holding(s.aborters[c].pc) && a.sid == s.aborters[c].sid)
               || (a.task in s.sessions && a.sid == s.sessions[a.task])
    ensures Structure(s.(aborters := s.aborters[c := a]))
  {
    UntouchedKept(s, s.(aborters := s.aborters[c := a]));
  }

  lemma AbortEffectKeepsStructure(s: State, c: AbortId)
    requires Structure(s) && c in s.aborters
    ensures Structure(AbortEffect(s, s.aborters[c]))
  {
    var a := s.aborters[c];
    match a.pc
    case EndSlot => EndTaskKeepsStructure(s, a.task);
    case Mark => OtherFieldsKeepStructure(s, AbortEffect(s, a));
    case Cancel => UntouchedKept(s, AbortEffect(s, a));
    case Close => UntouchedKept(s, AbortEffect(s, a));
    case Unregister => UnregisterKeepsStructure(s, a.task, a.sid);
    case _ =>
  }

  lemma UnregisterKeepsStructure(s: State, t: Task, g: SessionId)
    requires Structure(s)
    ensures Structure(UnregisterSession(s, t, g))
  {
    UntouchedKept(s, UnregisterSession(s, t, g));
  }

  lemma AborterKeepsStructure(s: State, c: AbortId)
    requires Structure(s) && c in s.aborters
    ensures Structure(DoAborter(s, c))
  {
    var a := s.aborters[c];
    AbortNextKeepsStructure(s, c, AbortNext(s, a));
    var m := s.(aborters := s.aborters[c := AbortNext(s, a)]);
    AbortEffectKeepsStructure(s, c);
    AbortEffectFrame(s, a);
    AbortNextKeepsStructure(AbortEffect(s, a), c, AbortNext(s, a));
  }

  lemma WorkerFieldsKeepStructure(s: State, s': State, g: SessionId)
    requires Structure(s) && g in s.workers
    requires s' == s.(workers := s'.workers, cancelled := s'.cancelled)
    requires s'.workers.Keys <= s.workers.Keys && s'.cancelled <= s.cancelled + {g}
    ensures Structure(s')
  {
    UntouchedKept(s, s');
  }

  lemma WorkerKeepsStructure(s: State, g: SessionId)
    requires Structure(s) && g in s.workers && g in s.taskOf
    ensures Structure(DoWorker(s, g))
  {
    var w, t := s.workers[g], s.taskOf[g];
    match w.pc
    case Running =>
      EndTaskKeepsStructure(s, t);
      WorkerFieldsKeepStructure(EndTask(s, t), DoWorker(s, g), g);
    case Ended =>
      UnregisterKeepsStructure(s, t, g);
      WorkerFieldsKeepStructure(UnregisterSession(s, t, g), DoWorker(s, g), g);
    case Unregistered => WorkerFieldsKeepStructure(s, DoWorker(s, g), g);
  }

  lemma ScanKeepsStructure(s: State, c: ScanId, pick: Task)
    requires Structure(s) && c in s.scans
    ensures Structure(DoScan(s, c, pick))
  {
    var s' := DoScan(s, c, pick);
    CallAbortKeepsStructure(s, pick);
    if s'.nextAbort == s.nextAbort {
      OtherFieldsKeepStructure(s, s');
    } else {
      OtherFieldsKeepStructure(CallAbort(s, pick), s');
    }
  }

  lemma StepKeepsStructure(s: State, a: Action)
    requires Structure(s)
    ensures Structure(Step(s, a))
  {
    match a
    case StartTask(t, key, single) => StartKeepsStructure(s, t, key, single);
    case StarterStep(t, fails) => if t in s.starters { StarterKeepsStructure(s, t, fails); }
    case NewAbort(t) => CallAbortKeepsStructure(s, t);
    case AborterStep(c) => if c in s.aborters { AborterKeepsStructure(s, c); }
    case WorkerStep(g) => if g in s.workers { WorkerKeepsStructure(s, g); }
    case NewScan(c) => OtherFieldsKeepStructure(s, Step(s, a));
    case ScanStep(c, pick) => if c in s.scans { ScanKeepsStructure(s, c, pick); }
    case Lapse(t) => OtherFieldsKeepStructure(s, Step(s, a));
  }

  lemma {:induction false} StructureHolds(acts: seq<Action>)
    ensures Structure(After(acts))
  {
    if acts != [] {
      StructureHolds(acts[..|acts| - 1]);
      StepKeepsStructure(After(acts[..|acts| - 1]), acts[|acts| - 1]);
    }
  }
}
