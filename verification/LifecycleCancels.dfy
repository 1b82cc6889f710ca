/**
 Exactly which running workers an abort leaves uncancelled: none as long as no task is
 started twice; otherwise those whose session a second start pushed out of the map, unless
 an abort call had then passed its closed check on that session.
 */
module LifecycleCancels {
  import opened Lifecycle
  import opened LifecycleStructure
  import opened LifecycleAborts

  // ---- Tasks started once ----

  ghost predicate StartedOnce(acts: seq<Action>) {
    forall i, j :: 0 <= i < j < |acts| && acts[i].StartTask? && acts[j].StartTask? ==> acts[i].task != acts[j].task
  }

  ghost predicate WasStarted(acts: seq<Action>, t: Task) {
    exists i :: 0 <= i < |acts| && acts[i].StartTask? && acts[i].task == t
  }

  // Every session id is the only one of its task.
  ghost predicate OneSessionEach(s: State) {
    && (forall g, h :: g in s.taskOf && h in s.taskOf && s.taskOf[g] == s.taskOf[h] ==> g == h)
    && s.replaced == {}
  }

  lemma HandlerKeepsOneSession(s: State, t: Task, fails: bool)
    requires Structure(s) && OneSessionEach(s) && t in s.starters
    ensures OneSessionEach(DoStarter(s, t, fails)) && DoStarter(s, t, fails).taskOf == s.taskOf
  {
    if s.starters[t].pc == Register {
      assert OwnedBy(s, s.starters[t].sid, t);
      assert t in s.sessions ==> OwnedBy(s, s.sessions[t], t);
    } else {
      StartEffectFrame(s, t, fails);
    }
  }

  lemma StepKeepsOneSession(s: State, a: Action)
    requires Structure(s) && OneSessionEach(s)
    requires a.StartTask? ==> forall g :: g in s.taskOf ==> s.taskOf[g] != a.task
    ensures OneSessionEach(Step(s, a))
    ensures forall g :: g in Step(s, a).taskOf ==>
              (g in s.taskOf && Step(s, a).taskOf[g] == s.taskOf[g]) || (a.StartTask? && Step(s, a).taskOf[g] == a.task)
  {
    match a
    case StarterStep(t, fails) => if t in s.starters { HandlerKeepsOneSession(s, t, fails); }
    case AborterStep(c) => if c in s.aborters { AbortEffectFrame(s, s.aborters[c]); }
    case WorkerStep(g) => if g in s.workers && g in s.taskOf { WorkerFrame(s, g); }
    case ScanStep(c, pick) => if c in s.scans { ScanFrame(s, c, pick); }
    case _ =>
  }

  lemma {:induction false} StartedOnceHolds(acts: seq<Action>)
    requires StartedOnce(acts)
    ensures OneSessionEach(After(acts))
    ensures forall g :: g in After(acts).taskOf ==> WasStarted(acts, After(acts).taskOf[g])
  {
    if acts != [] {
      var before, last := acts[..|acts| - 1], acts[|acts| - 1];
      StartedOnceHolds(before);
      StructureHolds(before);
      forall t | WasStarted(before, t) ensures WasStarted(acts, t) && !(last.StartTask? && last.task == t) {
        var i :| 0 <= i < |before| && before[i].StartTask? && before[i].task == t;
        assert acts[i] == before[i];
      }
      StepKeepsOneSession(After(before), last);
      if last.StartTask? { assert WasStarted(acts, last.task); }
    }
  }

  // If no task is started twice, an abort cancels every worker: when the handler and all
  // aborts of a marked task have returned, the task's running workers are cancelled.
  lemma AbortCancelsWorker(acts: seq<Action>, g: SessionId)
    requires StartedOnce(acts)
    requires var s := After(acts); g in s.workers && s.workers[g].pc == Running
    requires var s := After(acts); g in s.taskOf && s.taskOf[g] in s.marked
    requires var s := After(acts); s.taskOf[g] !in s.starters && !AbortInFlight(s, s.taskOf[g])
    ensures g in After(acts).cancelled
  {
    StartedOnceHolds(acts);
    AbortReachesWorker(acts, g);
  }

  // ---- Sessions pushed out of the map ----

  // An abort call has passed its closed check on the session and cancels it next.
  ghost predicate CancelDue(s: State, g: SessionId) {
    exists c :: c in s.aborters && s.aborters[c].pc == Cancel && s.aborters[c].sid == g
  }

  ghost predicate NoStarterReplaced(s: State) {
    forall t :: t in s.starters ==> s.starters[t].sid !in s.replaced
  }

  lemma HandlerKeepsNoStarterReplaced(s: State, t: Task, fails: bool)
    requires Structure(s) && NoStarterReplaced(s) && t in s.starters
    ensures NoStarterReplaced(DoStarter(s, t, fails))
  {
    if s.starters[t].pc == Register {
      forall u | u in s.starters ensures s.starters[u].sid !in DoStarter(s, t, fails).replaced {
        assert OwnedBy(s, s.starters[u].sid, u);
        assert t in s.sessions ==> OwnedBy(s, s.sessions[t], t);
      }
    } else {
      StartEffectFrame(s, t, fails);
    }
  }

  lemma BeginKeepsNoStarterReplaced(s: State, t: Task, key: string, single: bool)
    requires Structure(s) && NoStarterReplaced(s)
    ensures NoStarterReplaced(DoStartTask(s, t, key, single))
  {
  }

  lemma StepKeepsNoStarterReplaced(s: State, a: Action)
    requires Structure(s) && NoStarterReplaced(s)
    ensures NoStarterReplaced(Step(s, a))
  {
    match a
    case StartTask(t, key, single) => BeginKeepsNoStarterReplaced(s, t, key, single);
    case StarterStep(t, fails) => if t in s.starters { HandlerKeepsNoStarterReplaced(s, t, fails); }
    case AborterStep(c) => if c in s.aborters { AbortEffectFrame(s, s.aborters[c]); }
    case WorkerStep(g) => if g in s.workers && g in s.taskOf { WorkerFrame(s, g); }
    case ScanStep(c, pick) => if c in s.scans { ScanFrame(s, c, pick); }
    case _ =>
  }

  lemma {:induction false} NoStarterReplacedHolds(acts: seq<Action>)
    ensures NoStarterReplaced(After(acts))
  {
    if acts != [] {
      NoStarterReplacedHolds(acts[..|acts| - 1]);
      StructureHolds(acts[..|acts| - 1]);
      StepKeepsNoStarterReplaced(After(acts[..|acts| - 1]), acts[|acts| - 1]);
    }
  }

  // No abort is about to cancel the replaced session, and it is not cancelled while it has
  // a worker.
  ghost predicate Escaped(s: State, g: SessionId) {
    g in s.replaced && g in s.closed && !CancelDue(s, g) && (g in s.cancelled ==> g !in s.workers)
  }

  ghost predicate CancelComes(s: State, g: SessionId) {
    g in s.cancelled || CancelDue(s, g)
  }

  lemma HandlerKeepsEscaped(s: State, t: Task, fails: bool, g: SessionId)
    requires Structure(s) && NoStarterReplaced(s) && t in s.starters
    ensures Escaped(s, g) ==> Escaped(DoStarter(s, t, fails), g)
    ensures CancelComes(s, g) ==> CancelComes(DoStarter(s, t, fails), g)
  {
    var s' := DoStarter(s, t, fails);
    if s.starters[t].pc != Register { StartEffectFrame(s, t, fails); }
    if s.starters[t].pc != Spawn && s.starters[t].pc != Register { HandlerSpawnsNothing(s, t, fails); }
    CallsKeepDue(s, s', g);
  }

  lemma HandlerSpawnsNothing(s: State, t: Task, fails: bool)
    requires t in s.starters && s.starters[t].pc != Spawn && s.starters[t].pc != Register
    ensures DoStarter(s, t, fails).workers == s.workers
  {
  }

  // Steps that only add abort calls at their first section.
  lemma CallsKeepDue(s: State, s': State, g: SessionId)
    requires CallsOnlyStart(s, s')
    ensures CancelDue(s, g) <==> CancelDue(s', g)
  {
    if CancelDue(s, g) {
      var c :| c in s.aborters && s.aborters[c].pc == Cancel && s.aborters[c].sid == g;
      assert s'.aborters[c] == s.aborters[c];
    }
  }

  lemma AborterKeepsEscaped(s: State, c: AbortId, g: SessionId)
    requires Structure(s) && c in s.aborters
    ensures Escaped(s, g) ==> Escaped(DoAborter(s, c), g)
    ensures CancelComes(s, g) ==> CancelComes(DoAborter(s, c), g)
  {
    var s', a := DoAborter(s, c), s.aborters[c];
    AbortEffectFrame(s, a);
    if CancelDue(s, g) {
      var d :| d in s.aborters && s.aborters[d].pc == Cancel && s.aborters[d].sid == g;
      if d != c { assert s'.aborters[d] == s.aborters[d]; }
    }
    if Escaped(s, g) {
      assert !(a.pc == Cancel && a.sid == g);
    }
  }

  lemma WorkerKeepsEscaped(s: State, h: SessionId, g: SessionId)
    requires h in s.workers && h in s.taskOf
    ensures Escaped(s, g) ==> Escaped(DoWorker(s, h), g)
    ensures CancelComes(s, g) ==> CancelComes(DoWorker(s, h), g)
  {
    WorkerFrame(s, h);
    CallsKeepDue(s, DoWorker(s, h), g);
  }

  lemma ScanKeepsEscaped(s: State, c: ScanId, pick: Task, g: SessionId)
    requires Structure(s) && c in s.scans
    ensures Escaped(s, g) ==> Escaped(DoScan(s, c, pick), g)
    ensures CancelComes(s, g) ==> CancelComes(DoScan(s, c, pick), g)
  {
    ScanFrame(s, c, pick);
    CallsKeepDue(s, DoScan(s, c, pick), g);
  }

  lemma QuietKeepsEscaped(s: State, a: Action, g: SessionId)
    requires Structure(s) && (a.StartTask? || a.NewAbort? || a.NewScan? || a.Lapse?)
    ensures Escaped(s, g) ==> Escaped(Step(s, a), g)
    ensures CancelComes(s, g) ==> CancelComes(Step(s, a), g)
  {
    CallsKeepDue(s, Step(s, a), g);
  }

  lemma StepKeepsEscaped(s: State, a: Action, g: SessionId)
    requires Structure(s) && NoStarterReplaced(s)
    ensures Escaped(s, g) ==> Escaped(Step(s, a), g)
    ensures CancelComes(s, g) ==> CancelComes(Step(s, a), g)
  {
    match a
    case StarterStep(t, fails) => if t in s.starters { HandlerKeepsEscaped(s, t, fails, g); }
    case AborterStep(c) => if c in s.aborters { AborterKeepsEscaped(s, c, g); }
    case WorkerStep(h) => if h in s.workers && h in s.taskOf { WorkerKeepsEscaped(s, h, g); }
    case ScanStep(c, pick) => if c in s.scans { ScanKeepsEscaped(s, c, pick, g); }
    case _ => QuietKeepsEscaped(s, a, g);
  }

  lemma {:induction false} EscapedStays(before: seq<Action>, rest: seq<Action>, g: SessionId)
    ensures Escaped(After(before), g) ==> Escaped(After(before + rest), g)
    ensures CancelComes(After(before), g) ==> CancelComes(After(before + rest), g)
  {
    var acts := before + rest;
    if rest == [] {
      assert acts == before;
    } else {
      var r := rest[..|rest| - 1];
      assert acts[..|acts| - 1] == before + r;
      EscapedStays(before, r, g);
      StructureHolds(before + r);
      NoStarterReplacedHolds(before + r);
      StepKeepsEscaped(After(before + r), acts[|acts| - 1], g);
    }
  }

  // A session pushed out of the map while it has a worker: once all aborts of its task have
  // returned, the worker is cancelled exactly if, when the session was out of the map, it
  // was cancelled already or an abort call had passed its closed check on it.
  lemma ReplacedCancelledIff(before: seq<Action>, rest: seq<Action>, g: SessionId)
    requires g in After(before).replaced && g in After(before + rest).workers
    requires var e := After(before + rest); g in e.taskOf && !AbortInFlight(e, e.taskOf[g])
    ensures g in After(before + rest).cancelled <==> CancelComes(After(before), g)
  {
    WorkersToldHolds(before);
    EscapedStays(before, rest, g);
    StructureHolds(before + rest);
  }
}
