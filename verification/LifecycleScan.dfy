/**
 The disconnect scan misses nothing: every session that was starting or registered when
 the scan began, and still is when its three lists have been read, belongs to a task the
 scan has seen; and when the scan returns, an abort call it made has marked and returned for
 every such task.
 */
module LifecycleScan {
  import opened Lifecycle
  import opened LifecycleStructure
  import opened LifecycleAborts

  ghost predicate Live(s: State, g: SessionId) {
    StarterLive(s, g) || SessionLive(s, g)
  }

  ghost predicate ListsRead(pc: ScanPc) {
    pc.NextTask? || pc.Waiting? || pc.Finished?
  }

  // What the scan has read so far accounts for the sessions it watches.
  ghost predicate Accounted(s: State, sc: Scan) {
    && sc.watch <= s.taskOf.Keys
    && (!sc.pc.ListStarting? ==>
          forall g :: g in sc.watch && StarterLive(s, g) ==> s.taskOf[g] in sc.seen)
    && (sc.pc.ListSign? || ListsRead(sc.pc) ==>
          forall g :: g in sc.watch && SessionLive(s, g) && s.taskOf[g].kind == Keygen ==> s.taskOf[g] in sc.seen)
    && (ListsRead(sc.pc) ==>
          forall g :: g in sc.watch && SessionLive(s, g) ==> s.taskOf[g] in sc.seen)
  }

  ghost predicate HasReturned(s: State, c: AbortId) {
    c in s.aborters && s.aborters[c].pc == Returned
  }

  // An abort call for the task, made after the scan began.
  ghost predicate Made(s: State, sc: Scan, c: AbortId, t: Task) {
    sc.since <= c && c in s.aborters && s.aborters[c].task == t
  }

  // Every seen task is still to be aborted or has a call of this scan, and all calls but the
  // one it waits for have returned.
  ghost predicate Progress(s: State, sc: Scan) {
    && sc.since <= s.nextAbort
    && (ListsRead(sc.pc) ==> forall t :: t in sc.seen ==> t in sc.todo || t in sc.calls)
    && (!ListsRead(sc.pc) ==> sc.calls == map[])
    && (forall t :: t in sc.calls ==>
          && Made(s, sc, sc.calls[t], t)
          && (HasReturned(s, sc.calls[t]) || (sc.pc.Waiting? && sc.pc.call == sc.calls[t])))
    && (sc.pc.Finished? ==> sc.todo == {})
  }

  ghost predicate ScansOk(s: State) {
    forall c :: c in s.scans ==> Accounted(s, s.scans[c]) && Progress(s, s.scans[c])
  }

  // ---- A session that is gone stays gone, and a clear comes after the register ----

  // Session ids keep their task, and none becomes live again; a handler's session may
  // move from starting to registered.
  ghost predicate NothingRevives(s: State, s': State) {
    forall g :: g in s.taskOf ==>
      && g in s'.taskOf && s'.taskOf[g] == s.taskOf[g]
      && (StarterLive(s', g) ==> StarterLive(s, g))
      && (SessionLive(s', g) ==> SessionLive(s, g) || StarterLive(s, g))
  }

  // Abort calls keep their task and, once returned, stay so.
  ghost predicate CallsStay(s: State, s': State) {
    && s.nextAbort <= s'.nextAbort
    && (forall c :: c in s.aborters ==>
          && c in s'.aborters && s'.aborters[c].task == s.aborters[c].task
          && (s.aborters[c].pc == Returned ==> s'.aborters[c].pc == Returned))
  }

  lemma RegisterRevivesNothing(s: State, t: Task, fails: bool)
    requires Structure(s) && t in s.starters && s.starters[t].pc == Register
    ensures NothingRevives(s, DoStarter(s, t, fails))
  {
  }

  lemma StarterRevivesNothing(s: State, t: Task, fails: bool)
    requires Structure(s) && t in s.starters
    ensures NothingRevives(s, DoStarter(s, t, fails))
  {
    if s.starters[t].pc == Register { RegisterRevivesNothing(s, t, fails); } else { StartEffectFrame(s, t, fails); }
  }

  lemma AborterRevivesNothing(s: State, c: AbortId)
    requires Structure(s) && c in s.aborters
    ensures NothingRevives(s, DoAborter(s, c))
  {
    AbortEffectFrame(s, s.aborters[c]);
    if s.aborters[c].pc != Unregister { AbortEffectSessions(s, s.aborters[c]); }
  }

  lemma ScanRevivesNothing(s: State, c: ScanId, pick: Task)
    requires c in s.scans
    ensures NothingRevives(s, DoScan(s, c, pick))
  {
    ScanFrame(s, c, pick);
  }

  lemma WorkerRevivesNothing(s: State, g: SessionId)
    requires Structure(s) && g in s.workers && g in s.taskOf
    ensures NothingRevives(s, DoWorker(s, g))
  {
    WorkerFrame(s, g);
  }

  lemma BeginRevivesNothing(s: State, t: Task, key: string, single: bool)
    requires Structure(s)
    ensures NothingRevives(s, DoStartTask(s, t, key, single))
  {
  }

  lemma StepRevivesNothing(s: State, a: Action)
    requires Structure(s)
    ensures NothingRevives(s, Step(s, a))
  {
    match a
    case StarterStep(t, fails) => if t in s.starters { StarterRevivesNothing(s, t, fails); }
    case AborterStep(c) => if c in s.aborters { AborterRevivesNothing(s, c); }
    case WorkerStep(g) => if g in s.workers && g in s.taskOf { WorkerRevivesNothing(s, g); }
    case ScanStep(c, pick) => if c in s.scans { ScanRevivesNothing(s, c, pick); }
    case StartTask(t, key, single) => BeginRevivesNothing(s, t, key, single);
    case _ =>
  }

  lemma RegisterKeepsCalls(s: State, t: Task, fails: bool)
    requires t in s.starters && s.starters[t].pc == Register
    ensures DoStarter(s, t, fails).aborters == s.aborters && DoStarter(s, t, fails).nextAbort == s.nextAbort
  {
  }

  lemma StarterKeepsCalls(s: State, t: Task, fails: bool)
    requires Structure(s) && t in s.starters
    ensures CallsStay(s, DoStarter(s, t, fails)) && CallsOnlyStart(s, DoStarter(s, t, fails))
  {
    if s.starters[t].pc == Register { RegisterKeepsCalls(s, t, fails); } else { StartEffectFrame(s, t, fails); }
  }

  lemma AborterKeepsCalls(s: State, c: AbortId)
    requires Structure(s) && c in s.aborters
    ensures CallsStay(s, DoAborter(s, c))
  {
    AbortEffectFrame(s, s.aborters[c]);
  }

  lemma ScanKeepsCalls(s: State, c: ScanId, pick: Task)
    requires Structure(s) && c in s.scans
    ensures CallsStay(s, DoScan(s, c, pick)) && CallsOnlyStart(s, DoScan(s, c, pick))
  {
    ScanFrame(s, c, pick);
  }

  lemma StepKeepsCalls(s: State, a: Action)
    requires Structure(s)
    ensures CallsStay(s, Step(s, a))
    ensures !a.AborterStep? ==> CallsOnlyStart(s, Step(s, a))
  {
    match a
    case StarterStep(t, fails) => if t in s.starters { StarterKeepsCalls(s, t, fails); }
    case AborterStep(c) => if c in s.aborters { AborterKeepsCalls(s, c); }
    case WorkerStep(g) => if g in s.workers && g in s.taskOf { WorkerFrame(s, g); }
    case ScanStep(c, pick) => if c in s.scans { ScanKeepsCalls(s, c, pick); }
    case _ =>
  }

  // Another thread's step keeps what a scan has accounted for.
  lemma OthersKeepScan(s: State, s': State, sc: Scan)
    requires Accounted(s, sc) && Progress(s, sc) && NothingRevives(s, s') && CallsStay(s, s')
    ensures Accounted(s', sc) && Progress(s', sc)
  {
  }

  // ---- The scan's own steps ----

  lemma OwnStepKeepsAccounted(s: State, sc: Scan, pick: Task)
    requires Structure(s) && Accounted(s, sc)
    ensures Accounted(s, ScanNext(s, sc, pick))
  {
  }

  lemma OwnCallKeepsProgress(s: State, c: ScanId, pick: Task)
    requires Structure(s) && c in s.scans && Progress(s, s.scans[c])
    requires s.scans[c].pc.NextTask? && pick in s.scans[c].todo
    ensures var s' := DoScan(s, c, pick); Progress(s', s'.scans[c])
  {
    var sc, s' := s.scans[c], DoScan(s, c, pick);
    ScanKeepsCalls(s, c, pick);
    assert Made(s', s'.scans[c], s.nextAbort, pick);
    forall t | t in sc.calls && t != pick
      ensures Made(s', s'.scans[c], sc.calls[t], t) && HasReturned(s', sc.calls[t])
    {
      assert Made(s, sc, sc.calls[t], t);
    }
  }

  lemma OwnReadKeepsProgress(s: State, sc: Scan, pick: Task)
    requires Progress(s, sc) && !(sc.pc.NextTask? && pick in sc.todo)
    ensures Progress(s, ScanNext(s, sc, pick))
  {
  }

  lemma OwnStepKeepsProgress(s: State, c: ScanId, pick: Task)
    requires Structure(s) && c in s.scans && Progress(s, s.scans[c])
    ensures var s' := DoScan(s, c, pick); Progress(s', s'.scans[c])
  {
    if s.scans[c].pc.NextTask? && pick in s.scans[c].todo {
      OwnCallKeepsProgress(s, c, pick);
    } else {
      OwnReadKeepsProgress(s, s.scans[c], pick);
    }
  }

  lemma ScanStepKeepsScans(s: State, c: ScanId, pick: Task)
    requires Structure(s) && ScansOk(s) && c in s.scans
    ensures ScansOk(DoScan(s, c, pick))
  {
    var s' := DoScan(s, c, pick);
    ScanKeepsCalls(s, c, pick);
    OwnStepKeepsScan(s, c, pick);
    forall d | d in s'.scans && d != c ensures Accounted(s', s'.scans[d]) && Progress(s', s'.scans[d]) {
      ScanRevivesNothing(s, c, pick);
      OthersKeepScan(s, s', s.scans[d]);
    }
  }

  lemma OwnStepKeepsScan(s: State, c: ScanId, pick: Task)
    requires Structure(s) && ScansOk(s) && c in s.scans
    ensures var s' := DoScan(s, c, pick); Accounted(s', s'.scans[c]) && Progress(s', s'.scans[c])
  {
    OwnStepKeepsProgress(s, c, pick);
    OwnStepKeepsAccounted(s, s.scans[c], pick);
    ScanFrame(s, c, pick);
  }

  lemma BegunScanOk(s: State, s': State)
    requires s'.taskOf == s.taskOf && s.nextAbort <= s'.nextAbort
    ensures var sc := Scan(ListStarting, LiveSessions(s), s.nextAbort, {}, {}, map[]);
      Accounted(s', sc) && Progress(s', sc)
  {
  }

  lemma OtherStepKeepsScans(s: State, s': State)
    requires ScansOk(s) && NothingRevives(s, s') && CallsStay(s, s')
    requires forall d :: d in s.scans ==> d in s'.scans && s'.scans[d] == s.scans[d]
    requires forall d :: d in s'.scans && d !in s.scans ==>
      s'.scans[d] == Scan(ListStarting, LiveSessions(s), s.nextAbort, {}, {}, map[]) && s'.taskOf == s.taskOf
    ensures ScansOk(s')
  {
    forall d | d in s'.scans ensures Accounted(s', s'.scans[d]) && Progress(s', s'.scans[d]) {
      if d in s.scans { OthersKeepScan(s, s', s.scans[d]); } else { BegunScanOk(s, s'); }
    }
  }

  lemma StepKeepsScans(s: State, a: Action)
    requires Structure(s) && ScansOk(s)
    ensures ScansOk(Step(s, a))
  {
    if a.ScanStep? && a.scan in s.scans {
      ScanStepKeepsScans(s, a.scan, a.pick);
    } else {
      StepKeepsCalls(s, a);
      StepRevivesNothing(s, a);
      ScansOnlyBegin(s, a);
      OtherStepKeepsScans(s, Step(s, a));
    }
  }

  lemma HandlerLeavesScans(s: State, t: Task, fails: bool)
    requires t in s.starters
    ensures DoStarter(s, t, fails).scans == s.scans
  {
    if s.starters[t].pc != Register { StartEffectFrame(s, t, fails); }
  }

  lemma AborterLeavesScans(s: State, c: AbortId)
    requires c in s.aborters
    ensures DoAborter(s, c).scans == s.scans
  {
    AbortEffectFrame(s, s.aborters[c]);
  }

  lemma ScansOnlyBegin(s: State, a: Action)
    requires Structure(s) && (a.ScanStep? ==> a.scan !in s.scans)
    ensures forall d :: d in s.scans ==> d in Step(s, a).scans && Step(s, a).scans[d] == s.scans[d]
    ensures forall d :: d in Step(s, a).scans && d !in s.scans ==>
              Step(s, a).scans[d] == Scan(ListStarting, LiveSessions(s), s.nextAbort, {}, {}, map[])
              && Step(s, a).taskOf == s.taskOf
  {
    match a
    case StarterStep(t, fails) => if t in s.starters { HandlerLeavesScans(s, t, fails); }
    case AborterStep(c) => if c in s.aborters { AborterLeavesScans(s, c); }
    case WorkerStep(g) => if g in s.workers && g in s.taskOf { WorkerFrame(s, g); }
    case _ =>
  }

  lemma {:induction false} ScansOkHolds(acts: seq<Action>)
    ensures ScansOk(After(acts))
  {
    if acts != [] {
      var before := acts[..|acts| - 1];
      ScansOkHolds(before);
      StructureHolds(before);
      StepKeepsScans(After(before), acts[|acts| - 1]);
    }
  }

  // ---- The two main results ----

  lemma WatchStays(s: State, a: Action, c: ScanId)
    requires Structure(s) && c in s.scans
    ensures c in Step(s, a).scans
    ensures Step(s, a).scans[c].watch == s.scans[c].watch && Step(s, a).scans[c].since == s.scans[c].since
  {
    if a.ScanStep? && a.scan in s.scans {
    } else {
      ScansOnlyBegin(s, a);
    }
  }

  lemma {:induction false} WatchIsLiveAtBegin(before: seq<Action>, c: ScanId, rest: seq<Action>)
    requires c !in After(before).scans
    ensures var s := After(before + [NewScan(c)] + rest);
      c in s.scans && s.scans[c].watch == LiveSessions(After(before)) && s.scans[c].since == After(before).nextAbort
  {
    var acts := before + [NewScan(c)] + rest;
    if rest == [] {
      assert acts[..|acts| - 1] == before;
    } else {
      var earlier := rest[..|rest| - 1];
      WatchIsLiveAtBegin(before, c, earlier);
      assert acts[..|acts| - 1] == before + [NewScan(c)] + earlier;
      StructureHolds(before + [NewScan(c)] + earlier);
      WatchStays(After(before + [NewScan(c)] + earlier), acts[|acts| - 1], c);
    }
  }

  // A session that is starting or registered when the scan begins, and still is once the
  // lists are read, has its task in `seen`.
  lemma DisconnectMissesNothing(before: seq<Action>, c: ScanId, rest: seq<Action>, g: SessionId)
    requires c !in After(before).scans && Live(After(before), g)
    requires var s := After(before + [NewScan(c)] + rest);
      c in s.scans && ListsRead(s.scans[c].pc) && Live(s, g)
    ensures var s := After(before + [NewScan(c)] + rest); s.taskOf[g] in s.scans[c].seen
  {
    WatchIsLiveAtBegin(before, c, rest);
    ScansOkHolds(before + [NewScan(c)] + rest);
  }

  // When OnBrokerWsDisconnected has returned, it has made an abort call for the task of every
  // such session, and the call has returned.  If the session is still registered and the
  // mark in force, its handler is about to recheck the mark or another abort call has the
  // session in hand.
  lemma DisconnectAbortsAll(before: seq<Action>, c: ScanId, rest: seq<Action>, g: SessionId)
    requires c !in After(before).scans && Live(After(before), g)
    requires var s := After(before + [NewScan(c)] + rest);
      c in s.scans && s.scans[c].pc == Finished && Live(s, g)
    ensures var s := After(before + [NewScan(c)] + rest);
      var t := s.taskOf[g];
      && t in s.scans[c].calls
      && var call := s.scans[c].calls[t];
      && call !in After(before).aborters && HasReturned(s, call) && s.aborters[call].task == t
      && (SessionLive(s, g) && t in s.marked ==> WillRecheck(s, t, g) || Covered(s, t, g))
  {
    var acts := before + [NewScan(c)] + rest;
    DisconnectMissesNothing(before, c, rest, g);
    WatchIsLiveAtBegin(before, c, rest);
    ScansOkHolds(acts);
    StructureHolds(before);
    AbortsReachHolds(acts);
    var s := After(acts);
    assert Progress(s, s.scans[c]);
    assert Made(s, s.scans[c], s.scans[c].calls[s.taskOf[g]], s.taskOf[g]);
  }

  // What a step does to an abort call that has passed, or now passes, its marking section.
  lemma OnlyOwnStepMarks(s: State, a: Action, c: AbortId)
    requires Structure(s) && c in Step(s, a).aborters && Step(s, a).aborters[c].pc != Mark
    ensures c in s.aborters && s.aborters[c].task == Step(s, a).aborters[c].task
    ensures s.aborters[c].pc == Mark ==> s.aborters[c].task in Step(s, a).marked
  {
    StepKeepsCalls(s, a);
    if a.AborterStep? && a.call in s.aborters {
      AbortEffectFrame(s, s.aborters[a.call]);
      assert c in s.aborters;
    }
  }

  // An abort call made after some point of a run, and past its marking section, has put the
  // task's mark in force after that point.
  lemma {:induction false} CallMarks(acts: seq<Action>, n: nat, c: AbortId)
    requires n <= |acts| && c !in After(acts[..n]).aborters
    requires c in After(acts).aborters && After(acts).aborters[c].pc != Mark
    ensures exists k :: n < k <= |acts| && After(acts).aborters[c].task in After(acts[..k]).marked
  {
    assert acts[..|acts|] == acts;
    if n < |acts| {
      var before := acts[..|acts| - 1];
      StructureHolds(before);
      OnlyOwnStepMarks(After(before), acts[|acts| - 1], c);
      if After(before).aborters[c].pc != Mark {
        assert before[..n] == acts[..n];
        CallMarks(before, n, c);
        var k :| n < k <= |before| && After(before).aborters[c].task in After(before[..k]).marked;
        assert before[..k] == acts[..k];
      }
    }
  }

  // So every such task's mark was in force at some point after the scan began.
  lemma DisconnectMarksAll(before: seq<Action>, c: ScanId, rest: seq<Action>, g: SessionId)
    requires c !in After(before).scans && Live(After(before), g)
    requires var s := After(before + [NewScan(c)] + rest);
      c in s.scans && s.scans[c].pc == Finished && Live(s, g)
    ensures var acts := before + [NewScan(c)] + rest;
      exists k :: |before| < k <= |acts| && After(acts).taskOf[g] in After(acts[..k]).marked
  {
    var acts := before + [NewScan(c)] + rest;
    DisconnectAbortsAll(before, c, rest, g);
    assert acts[..|before|] == before;
    CallMarks(acts, |before|, After(acts).scans[c].calls[After(acts).taskOf[g]]);
  }
}
