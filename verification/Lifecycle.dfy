/**
 The life of keygen and sign tasks on one node: start handlers, worker goroutines, abort
 calls and disconnect scans, interleaved at every mutex section.  `Step` runs one section
 of one thread; an action whose thread cannot move leaves the state alone, so a run is
 any sequence of actions.

 A task carries its kind: keygen and sign task ids are disjoint.  One handler at a time
 runs for a task, so handlers are keyed by their task.  Marks may lapse at any moment
 (`Lapse`), which is the 15-minute window closing.
 */
module Lifecycle {
  import opened SignSlots

  datatype Kind = Keygen | Sign
  datatype Task = Task(kind: Kind, id: string)

  type SessionId = nat  // the session pointer
  type AbortId = nat    // one call of abortTaskSession
  type ScanId = nat     // one call of OnBrokerWsDisconnected

  // Where a start handler stands: the section it runs next.
  datatype StartPc =
    | Check                                          // isTaskAborted on entry
    | Stop1                                          // stopIfTaskAborted after the peer keys
    | Busy                                           // activeSignTaskForKey
    | LookOld(busy: Task)                            // getSignSession of the busy task
    | OldClosed(busy: Task, prior: SessionId)        // isClosed of that session
    | ClearStale(busy: Task)                         // endSignTask of the busy task
    | Stop2                                          // stopIfTaskAborted before begin
    | BeginSlot
    | Register
    | Stop3                                          // stopIfTaskAborted after register
    | Spawn
    | Aborting(call: AbortId, registered: bool)      // waits for abortTaskSession to return
    | Leave                                          // deferred clearStartingTask

  datatype Starter = Starter(sid: SessionId, key: string, single: bool, pc: StartPc)

  datatype AbortPc = Mark | LookKeygen | LookSign | IsClosed | Cancel | Close | Unregister | EndSlot | Returned
  datatype Aborter = Aborter(task: Task, pc: AbortPc, sid: SessionId)  // sid is set by the lookup

  datatype WorkerPc = Running | Ended | Unregistered
  datatype Worker = Worker(single: bool, pc: WorkerPc)

  datatype ScanPc = ListStarting | ListKeygen | ListSign | NextTask | Waiting(call: AbortId) | Finished
  // History: `watch` are the sessions that were starting or registered when the scan began,
  // `since` the number of abort calls made before it, `calls` the abort calls it made.
  datatype Scan = Scan(
    pc: ScanPc, watch: set<SessionId>, since: AbortId, seen: set<Task>, todo: set<Task>, calls: map<Task, AbortId>)

  datatype State = State(
    marked: set<Task>,                 // abortedTasks, unexpired
    starting: set<Task>,
    sessions: map<Task, SessionId>,    // keygenSessions and signSessions, told apart by the kind
    keygenActive: set<Task>,
    signSlots: Slots<Task, string>,
    closed: set<SessionId>,
    cancelled: set<SessionId>,         // abortCtx cancelled
    starters: map<Task, Starter>,
    workers: map<SessionId, Worker>,
    aborters: map<AbortId, Aborter>,
    scans: map<ScanId, Scan>,
    nextSid: SessionId,
    nextAbort: AbortId,
    // ghost history
    taskOf: map<SessionId, Task>,      // the task each session id was made for
    replaced: set<SessionId>           // pushed out of the map by a later register
  )

  datatype Action =
    | StartTask(task: Task, key: string, single: bool)
    | StarterStep(task: Task, fails: bool)
    | NewAbort(task: Task)
    | AborterStep(call: AbortId)
    | WorkerStep(sid: SessionId)
    | NewScan(scan: ScanId)
    | ScanStep(scan: ScanId, pick: Task)
    | Lapse(task: Task)

  const INIT: State := State({}, {}, map[], {}, NoSlots(), {}, {}, map[], map[], map[], map[], 0, 0, map[], {})

  function Step(s: State, a: Action): State {
    match a
    case StartTask(t, key, single) => DoStartTask(s, t, key, single)
    case StarterStep(t, fails) => if t in s.starters then DoStarter(s, t, fails) else s
    case NewAbort(t) => CallAbort(s, t)
    case AborterStep(c) => if c in s.aborters then DoAborter(s, c) else s
    case WorkerStep(g) => if g in s.workers && g in s.taskOf then DoWorker(s, g) else s
    case NewScan(c) => if c in s.scans then s else DoNewScan(s, c)
    case ScanStep(c, pick) => if c in s.scans then DoScan(s, c, pick) else s
    case Lapse(t) => s.(marked := s.marked - {t})
  }

  function After(acts: seq<Action>): State {
    if acts == [] then INIT else Step(After(acts[..|acts| - 1]), acts[|acts| - 1])
  }

  // ---- Start handlers ----

  // noteStartingTask, the handler's first section.
  function DoStartTask(s: State, t: Task, key: string, single: bool): State {
    if t.id == "" || t in s.starters then s
    else s.(starting := s.starting + {t},
            starters := s.starters[t := Starter(s.nextSid, key, single, Check)],
            taskOf := s.taskOf[s.nextSid := t],
            nextSid := s.nextSid + 1)
  }

  // One section of the handler: what it does to the shared tables, and where it goes next.
  function DoStarter(s: State, t: Task, fails: bool): State
    requires t in s.starters
  {
    var st := s.starters[t];
    if st.pc == Leave then s.(starting := s.starting - {t}, starters := s.starters - {t})
    else StartEffect(s, t, fails).(starters := s.starters[t := st.(pc := StartNext(s, t, fails))])
  }

  function StartEffect(s: State, t: Task, fails: bool): State
    requires t in s.starters
  {
    var st := s.starters[t];
    match st.pc
    case Stop1 => if !fails && t in s.marked then CallAbort(s, t) else s
    case Stop2 | Stop3 => if t in s.marked then CallAbort(s, t) else s
    case ClearStale(busy) => s.(signSlots := End(s.signSlots, busy))
    case BeginSlot => if Begins(s, t, fails) then BeginTask(s, t, st.key) else s
    case Register => RegisterSession(s, t, st.sid)
    case Spawn => s.(workers := s.workers[st.sid := Worker(st.single, Running)])
    case _ => s
  }

  function StartNext(s: State, t: Task, fails: bool): StartPc
    requires t in s.starters
  {
    var st := s.starters[t];
    match st.pc
    case Check => if fails || t in s.marked then Leave else Stop1
    case Stop1 =>
      if fails then Leave else StopIf(s, t, false, if t.kind == Keygen then BeginSlot else Busy)
    case Busy =>
      if fails || st.key == "" then Leave
      else if st.key in s.signSlots.byKey && s.signSlots.byKey[st.key] != t then LookOld(s.signSlots.byKey[st.key])
      else AfterBusy(st)
    case LookOld(busy) => if busy in s.sessions then OldClosed(busy, s.sessions[busy]) else ClearStale(busy)
    case OldClosed(busy, prior) => if prior in s.closed then ClearStale(busy) else Leave
    case ClearStale(_) => AfterBusy(st)
    case Stop2 => StopIf(s, t, false, BeginSlot)
    case BeginSlot => if Begins(s, t, fails) then Register else Leave
    case Register => Stop3
    case Stop3 => StopIf(s, t, true, Spawn)
    case Aborting(c, _) => if c in s.aborters && s.aborters[c].pc != Returned then st.pc else Leave
    case Spawn | Leave => Leave
  }

  // stopIfTaskAborted: a marked task calls abortTaskSession and returns when that returns.
  function StopIf(s: State, t: Task, registered: bool, next: StartPc): StartPc {
    if t in s.marked then Aborting(s.nextAbort, registered) else next
  }

  // The single-key sign handler has no stopIfTaskAborted between the busy check and begin.
  function AfterBusy(st: Starter): StartPc { if st.single then BeginSlot else Stop2 }

  // Only the threshold keygen handler can fail between the check before and the begin itself
  // (it looks up its index among the participants).
  predicate Begins(s: State, t: Task, fails: bool)
    requires t in s.starters
  {
    MayBeginTask(s, t, s.starters[t].key) && !(fails && t.kind == Keygen && !s.starters[t].single)
  }

  // beginKeygenTask / beginSignTask and endKeygenTask / endSignTask
  predicate MayBeginTask(s: State, t: Task, key: string) {
    if t.kind == Keygen then t !in s.keygenActive else key != "" && MayBegin(s.signSlots, t, key)
  }

  function BeginTask(s: State, t: Task, key: string): State {
    s.(keygenActive := if t.kind == Keygen then s.keygenActive + {t} else s.keygenActive,
       signSlots := if t.kind == Keygen then s.signSlots else Begin(s.signSlots, t, key))
  }

  function EndTask(s: State, t: Task): State {
    s.(keygenActive := if t.kind == Keygen then s.keygenActive - {t} else s.keygenActive,
       signSlots := if t.kind == Keygen then s.signSlots else End(s.signSlots, t))
  }

  ghost predicate HoldsSlot(s: State, t: Task) {
    if t.kind == Keygen then t in s.keygenActive else t in s.signSlots.active
  }

  // registerKeygenSession / registerSignSession, the section that swaps the map entry: an
  // older session of the task is closed.
  function RegisterSession(s: State, t: Task, sid: SessionId): State {
    var stale := if t in s.sessions && s.sessions[t] != sid then {s.sessions[t]} else {};
    s.(sessions := s.sessions[t := sid], closed := s.closed + stale, replaced := s.replaced + stale)
  }

  // unregisterKeygenSession / unregisterSignSession: only the own pointer is removed.
  function UnregisterSession(s: State, t: Task, sid: SessionId): State {
    if t in s.sessions && s.sessions[t] == sid then s.(sessions := s.sessions - {t}) else s
  }

  // ---- abortTaskSession ----

  function CallAbort(s: State, t: Task): State {
    s.(aborters := s.aborters[s.nextAbort := Aborter(t, Mark, 0)], nextAbort := s.nextAbort + 1)
  }

  function DoAborter(s: State, c: AbortId): State
    requires c in s.aborters
  {
    var a := s.aborters[c];
    AbortEffect(s, a).(aborters := s.aborters[c := AbortNext(s, a)])
  }

  function AbortEffect(s: State, a: Aborter): State {
    match a.pc
    case Mark => s.(marked := s.marked + {a.task})
    case Cancel => s.(cancelled := s.cancelled + {a.sid})
    case Close => s.(closed := s.closed + {a.sid})
    case Unregister => UnregisterSession(s, a.task, a.sid)
    case EndSlot => EndTask(s, a.task)
    case _ => s
  }

  function AbortNext(s: State, a: Aborter): Aborter {
    match a.pc
    case Mark => a.(pc := LookKeygen)
    case LookKeygen => Lookup(s, a, Keygen, LookSign)
    case LookSign => Lookup(s, a, Sign, Returned)
    case IsClosed => a.(pc := if a.sid in s.closed then Returned else Cancel)
    case Cancel => a.(pc := Close)
    case Close => a.(pc := Unregister)
    case Unregister => a.(pc := EndSlot)
    case EndSlot | Returned => a.(pc := Returned)
  }

  // getKeygenSession / getSignSession
  function Lookup(s: State, a: Aborter, kind: Kind, missing: AbortPc): Aborter {
    if a.task.kind == kind && a.task in s.sessions then Aborter(a.task, IsClosed, s.sessions[a.task])
    else a.(pc := missing)
  }

  // ---- The worker's deferred cleanup: end the slot, unregister, and (single key) cancel ----

  function DoWorker(s: State, g: SessionId): State
    requires g in s.workers && g in s.taskOf
  {
    var w, t := s.workers[g], s.taskOf[g];
    match w.pc
    case Running => EndTask(s, t).(workers := s.workers[g := w.(pc := Ended)])
    case Ended => UnregisterSession(s, t, g).(workers := s.workers[g := w.(pc := Unregistered)])
    case Unregistered =>
      s.(workers := s.workers - {g}, cancelled := if w.single then s.cancelled + {g} else s.cancelled)
  }

  // ---- OnBrokerWsDisconnected ----

  predicate StarterLive(s: State, g: SessionId) {
    g in s.taskOf && s.taskOf[g] in s.starters && s.starters[s.taskOf[g]].sid == g
  }

  predicate SessionLive(s: State, g: SessionId) {
    g in s.taskOf && s.taskOf[g] in s.sessions && s.sessions[s.taskOf[g]] == g
  }

  function LiveSessions(s: State): set<SessionId> {
    set g | g in s.taskOf && (StarterLive(s, g) || SessionLive(s, g))
  }

  function DoNewScan(s: State, c: ScanId): State {
    s.(scans := s.scans[c := Scan(ListStarting, LiveSessions(s), s.nextAbort, {}, {}, map[])])
  }

  function DoScan(s: State, c: ScanId, pick: Task): State
    requires c in s.scans
  {
    var sc := s.scans[c];
    var calls := sc.pc == NextTask && pick in sc.todo;
    (if calls then CallAbort(s, pick) else s).(scans := s.scans[c := ScanNext(s, sc, pick)])
  }

  function ScanNext(s: State, sc: Scan, pick: Task): Scan {
    match sc.pc
    case ListStarting => sc.(pc := ListKeygen, seen := s.starting)
    case ListKeygen => sc.(pc := ListSign, seen := sc.seen + Listed(s, Keygen))
    case ListSign => var seen := sc.seen + Listed(s, Sign); sc.(pc := NextTask, seen := seen, todo := seen)
    case NextTask =>
      if sc.todo == {} then sc.(pc := Finished)
      else if pick in sc.todo then
        sc.(pc := Waiting(s.nextAbort), todo := sc.todo - {pick}, calls := sc.calls[pick := s.nextAbort])
      else sc
    case Waiting(call) =>
      if call in s.aborters && s.aborters[call].pc != Returned then sc else sc.(pc := NextTask)
    case Finished => sc
  }

  // listActiveKeygenTaskIDs / listActiveSignTaskIDs
  function Listed(s: State, kind: Kind): set<Task> {
    set t | t in s.sessions && t.kind == kind
  }
}
