/**
 A run in which an abort does not reach a worker.  Task B clears the slot of task A as stale
 while A has begun but not registered, and begins itself; A registers and its worker runs; a
 second start of A clears B's slot for the same reason, and its session pushes the first
 one out of the map.
 */
module LifecycleReplaced {
  import opened SignSlots
  import opened Lifecycle
  import opened LifecycleAborts
  import opened LifecycleStructure

  // ---- One step further along a run ----

  ghost predicate Reached(s: State) {
    exists acts :: After(acts) == s
  }

  lemma Onwards(s: State, a: Action)
    requires Reached(s)
    ensures Reached(Step(s, a))
  {
    var acts :| After(acts) == s;
    assert (acts + [a])[..|acts|] == acts;
    assert After(acts + [a]) == Step(s, a);
  }

  // Threshold sign handlers that use the key "k", taken several sections at a time.

  function HeldBy(t: Task): Slots<Task, string> { Slots(map[t := "k"], map["k" := t]) }

  function At(s: State, t: Task, pc: StartPc): State
    requires t in s.starters
  {
    s.(starters := s.starters[t := s.starters[t].(pc := pc)])
  }

  // A section that only moves the handler on.
  lemma Moves(s: State, t: Task, pc: StartPc)
    requires Reached(s) && t in s.starters && t !in s.marked && pc == StartNext(s, t, false)
    requires var at := s.starters[t].pc;
      at.Check? || at.Stop1? || at.Busy? || at.LookOld? || at.Stop2? || at.Stop3?
    ensures Reached(At(s, t, pc))
  {
    assert StartEffect(s, t, false) == s;
    Onwards(s, StarterStep(t, false));
  }

  // From the start to the busy check.
  function Opened(s: State, t: Task): State {
    s.(starting := s.starting + {t}, starters := s.starters[t := Starter(s.nextSid, "k", false, Busy)],
       taskOf := s.taskOf[s.nextSid := t], nextSid := s.nextSid + 1)
  }

  lemma Opens(s: State, t: Task)
    requires Reached(s) && t.id != "" && t.kind == Sign && t !in s.starters && t !in s.marked
    ensures Reached(Opened(s, t))
  {
    var s1 := DoStartTask(s, t, "k", false);
    Onwards(s, StartTask(t, "k", false));
    Moves(s1, t, Stop1);
    Moves(At(s1, t, Stop1), t, Busy);
    assert At(At(s1, t, Stop1), t, Busy) == Opened(s, t);
  }

  // From the second abort check to the register section.
  function Begun(s: State, t: Task): State
    requires t in s.starters
  {
    At(s, t, Register).(signSlots := HeldBy(t))
  }

  lemma BeginStep(s: State, t: Task)
    requires t in s.starters && s.starters[t].pc == BeginSlot && s.starters[t].key == "k"
    requires t.kind == Sign && s.signSlots == NoSlots()
    ensures Step(s, StarterStep(t, false)) == Begun(s, t)
  {
    assert BeginTask(s, t, "k") == s.(signSlots := HeldBy(t));
  }

  lemma Begins(s: State, t: Task)
    requires Reached(s) && t in s.starters && s.starters[t].pc == Stop2 && s.starters[t].key == "k"
    requires t.kind == Sign && t !in s.marked && s.signSlots == NoSlots()
    ensures Reached(Begun(s, t))
  {
    var s1 := At(s, t, BeginSlot);
    Moves(s, t, BeginSlot);
    BeginStep(s1, t);
    Onwards(s1, StarterStep(t, false));
    assert Begun(s1, t) == Begun(s, t);
  }

  lemma FindsKeyFree(s: State, t: Task)
    requires Reached(s) && t in s.starters && s.starters[t] == Starter(s.starters[t].sid, "k", false, Busy)
    requires t.kind == Sign && t !in s.marked && s.signSlots == NoSlots()
    ensures Reached(Begun(s, t))
  {
    Moves(s, t, Stop2);
    Begins(At(s, t, Stop2), t);
    assert Begun(At(s, t, Stop2), t) == Begun(s, t);
  }

  // The key is in use by a task without a session: its slot is cleared as stale.
  lemma ClearStep(s: State, t: Task, busy: Task)
    requires t in s.starters && s.starters[t].pc == ClearStale(busy) && !s.starters[t].single
    requires s.signSlots == HeldBy(busy)
    ensures Step(s, StarterStep(t, false)) == At(s, t, Stop2).(signSlots := NoSlots())
  {
    assert HeldBy(busy).active - {busy} == map[] && HeldBy(busy).byKey - {"k"} == map[];
    assert StartEffect(s, t, false) == s.(signSlots := NoSlots());
  }

  lemma FindsNoSession(s: State, t: Task, busy: Task)
    requires Reached(s) && t in s.starters && s.starters[t] == Starter(s.starters[t].sid, "k", false, Busy)
    requires t !in s.marked && busy != t && s.signSlots == HeldBy(busy) && busy !in s.sessions
    ensures Reached(At(s, t, ClearStale(busy)))
  {
    var s1 := At(s, t, LookOld(busy));
    Moves(s, t, LookOld(busy));
    Moves(s1, t, ClearStale(busy));
    assert At(s1, t, ClearStale(busy)) == At(s, t, ClearStale(busy));
  }

  lemma ClearsStale(s: State, t: Task, busy: Task)
    requires Reached(s) && t in s.starters && s.starters[t] == Starter(s.starters[t].sid, "k", false, Busy)
    requires t !in s.marked && busy != t && s.signSlots == HeldBy(busy) && busy !in s.sessions
    ensures Reached(At(s, t, Stop2).(signSlots := NoSlots()))
  {
    var s2 := At(s, t, ClearStale(busy));
    FindsNoSession(s, t, busy);
    ClearStep(s2, t, busy);
    Onwards(s2, StarterStep(t, false));
    assert At(s2, t, Stop2) == At(s, t, Stop2);
  }

  lemma TakesOver(s: State, t: Task, busy: Task)
    requires Reached(s) && t in s.starters && s.starters[t] == Starter(s.starters[t].sid, "k", false, Busy)
    requires t.kind == Sign && t !in s.marked && busy != t && s.signSlots == HeldBy(busy) && busy !in s.sessions
    ensures Reached(Begun(s, t))
  {
    var s1 := At(s, t, Stop2).(signSlots := NoSlots());
    ClearsStale(s, t, busy);
    Begins(s1, t);
    assert Begun(s1, t) == Begun(s, t);
  }

  // From the register section to the handler's return.
  function Working(s: State, t: Task): State
    requires t in s.starters
  {
    var g := s.starters[t].sid;
    RegisterSession(s, t, g).(workers := s.workers[g := Worker(false, Running)],
                              starting := s.starting - {t}, starters := s.starters - {t})
  }

  lemma Registers(s: State, t: Task)
    requires Reached(s) && t in s.starters && s.starters[t].pc == Register && t !in s.marked
    ensures Reached(At(RegisterSession(s, t, s.starters[t].sid), t, Spawn))
  {
    var r := RegisterSession(s, t, s.starters[t].sid);
    Onwards(s, StarterStep(t, false));
    assert Step(s, StarterStep(t, false)) == At(r, t, Stop3);
    Moves(At(r, t, Stop3), t, Spawn);
    assert At(At(r, t, Stop3), t, Spawn) == At(r, t, Spawn);
  }

  lemma Works(s: State, t: Task)
    requires Reached(s) && t in s.starters && s.starters[t].pc == Register && t !in s.marked && !s.starters[t].single
    ensures Reached(Working(s, t))
  {
    var r := At(RegisterSession(s, t, s.starters[t].sid), t, Spawn);
    Registers(s, t);
    var w := At(r, t, Leave).(workers := s.workers[s.starters[t].sid := Worker(false, Running)]);
    Onwards(r, StarterStep(t, false));
    assert Step(r, StarterStep(t, false)) == w;
    Onwards(w, StarterStep(t, false));
    assert w.starters - {t} == s.starters - {t};
    assert Step(w, StarterStep(t, false)) == Working(s, t);
  }

  // ---- An abort call that finds its session open ----

  function Calling(s: State, a: Aborter): State {
    s.(aborters := s.aborters[s.nextAbort := a], nextAbort := s.nextAbort + 1)
  }

  lemma AbortMoves(s: State, c: AbortId)
    requires Reached(s) && c in s.aborters
    ensures Reached(AbortEffect(s, s.aborters[c]).(aborters := s.aborters[c := AbortNext(s, s.aborters[c])]))
  {
    Onwards(s, AborterStep(c));
  }

  lemma AbortLooks(s: State, t: Task)
    requires Reached(s) && t.kind == Sign && t in s.sessions
    ensures Reached(Calling(s, Aborter(t, IsClosed, s.sessions[t])).(marked := s.marked + {t}))
  {
    var c, m := s.nextAbort, s.(marked := s.marked + {t});
    Onwards(s, NewAbort(t));
    AbortMoves(Calling(s, Aborter(t, Mark, 0)), c);
    assert Calling(s, Aborter(t, Mark, 0)).aborters[c := Aborter(t, LookKeygen, 0)]
        == Calling(m, Aborter(t, LookKeygen, 0)).aborters;
    AbortMoves(Calling(m, Aborter(t, LookKeygen, 0)), c);
    assert Calling(m, Aborter(t, LookKeygen, 0)).aborters[c := Aborter(t, LookSign, 0)]
        == Calling(m, Aborter(t, LookSign, 0)).aborters;
    AbortMoves(Calling(m, Aborter(t, LookSign, 0)), c);
    assert Calling(m, Aborter(t, LookSign, 0)).aborters[c := Aborter(t, IsClosed, s.sessions[t])]
        == Calling(m, Aborter(t, IsClosed, s.sessions[t])).aborters;
  }

  lemma AbortCancels(s: State, c: AbortId, t: Task, g: SessionId)
    requires Reached(s) && c in s.aborters && s.aborters[c] == Aborter(t, IsClosed, g) && g !in s.closed
    ensures Reached(s.(cancelled := s.cancelled + {g}, closed := s.closed + {g},
                       aborters := s.aborters[c := Aborter(t, Unregister, g)]))
  {
    var s1 := s.(aborters := s.aborters[c := Aborter(t, Cancel, g)]);
    var s2 := s.(cancelled := s.cancelled + {g}, aborters := s.aborters[c := Aborter(t, Close, g)]);
    AbortMoves(s, c);
    AbortMoves(s1, c);
    assert s1.aborters[c := Aborter(t, Close, g)] == s2.aborters;
    AbortMoves(s2, c);
    assert s2.aborters[c := Aborter(t, Unregister, g)] == s.aborters[c := Aborter(t, Unregister, g)];
  }

  lemma AbortUnregisters(s: State, c: AbortId, t: Task, g: SessionId) returns (e: State)
    requires Reached(s) && c in s.aborters && s.aborters[c] == Aborter(t, Unregister, g)
    ensures Reached(e) && e == s.(sessions := e.sessions, aborters := s.aborters[c := Aborter(t, EndSlot, g)])
  {
    e := UnregisterSession(s, t, g).(aborters := s.aborters[c := Aborter(t, EndSlot, g)]);
    AbortMoves(s, c);
  }

  lemma AbortReturns(s: State, c: AbortId, t: Task, g: SessionId) returns (e: State)
    requires Reached(s) && c in s.aborters && s.aborters[c] == Aborter(t, EndSlot, g)
    ensures Reached(e)
    ensures e == s.(keygenActive := e.keygenActive, signSlots := e.signSlots,
                    aborters := s.aborters[c := Aborter(t, Returned, g)])
  {
    e := EndTask(s, t).(aborters := s.aborters[c := Aborter(t, Returned, g)]);
    AbortMoves(s, c);
    EndTaskFrame(s, t);
  }

  // Whatever it finds, the call unregisters, ends the slot and returns.
  lemma AbortEnds(s: State, c: AbortId, t: Task, g: SessionId) returns (e: State)
    requires Reached(s) && c in s.aborters && s.aborters[c] == Aborter(t, Unregister, g)
    ensures Reached(e)
    ensures e == s.(sessions := e.sessions, keygenActive := e.keygenActive, signSlots := e.signSlots,
                    aborters := s.aborters[c := Aborter(t, Returned, g)])
  {
    var u := AbortUnregisters(s, c, t, g);
    e := AbortReturns(u, c, t, g);
    assert u.aborters[c := Aborter(t, Returned, g)] == s.aborters[c := Aborter(t, Returned, g)];
  }

  // ---- The run ----

  const A := Task(Sign, "a")
  const B := Task(Sign, "b")

  // A has begun and waits to register when B takes over its slot.
  const WAITING: State := Begun(Opened(INIT, A), A)
  const TAKEN: State := Begun(Opened(WAITING, B), B)

  // A's worker runs; a second start of A takes over B's slot, and registers.
  const WORKING: State := Working(TAKEN, A)
  const TWICE: State := Working(Begun(Opened(WORKING, A), A), A)

  lemma BTakesOver()
    ensures Reached(TAKEN)
  {
    assert After([]) == INIT;
    Opens(INIT, A);
    FindsKeyFree(Opened(INIT, A), A);
    Opens(WAITING, B);
    TakesOver(Opened(WAITING, B), B, A);
  }

  lemma AWorksTwice()
    ensures Reached(TWICE)
  {
    BTakesOver();
    Works(TAKEN, A);
    Opens(WORKING, A);
    TakesOver(Opened(WORKING, A), A, B);
    Works(Begun(Opened(WORKING, A), A), A);
  }

  lemma Ended()
    ensures TWICE.sessions == map[A := 2] && TWICE.closed == {0} && TWICE.replaced == {0} && TWICE.cancelled == {}
    ensures TWICE.workers == map[0 := Worker(false, Running), 2 := Worker(false, Running)]
    ensures A !in TWICE.starters && TWICE.aborters == map[] && 0 in TWICE.taskOf && TWICE.taskOf[0] == A
  {
  }

  // A's handlers and aborts have all returned and A is marked, yet the first session's
  // worker runs with its context not cancelled.
  lemma AbortMissesReplacedWorker() returns (acts: seq<Action>)
    ensures var s := After(acts);
      && A in s.marked && A !in s.starters && !AbortInFlight(s, A)
      && 0 in s.workers && s.workers[0].pc == Running && 0 in s.taskOf && s.taskOf[0] == A
      && 0 !in s.cancelled && 0 in s.replaced && 0 in s.closed
  {
    AWorksTwice();
    Ended();
    AbortLooks(TWICE, A);
    var s := Calling(TWICE, Aborter(A, IsClosed, 2)).(marked := TWICE.marked + {A});
    AbortCancels(s, TWICE.nextAbort, A, 2);
    var u := s.(cancelled := {} + {2}, closed := {0} + {2},
                aborters := s.aborters[TWICE.nextAbort := Aborter(A, Unregister, 2)]);
    var e := AbortEnds(u, TWICE.nextAbort, A, 2);
    acts :| After(acts) == e;
  }
}
