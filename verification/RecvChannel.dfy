/**
 The receive channel of a session and the goroutines that put messages into it, at the
 grain of enqueueRecvItem: the closed check is one locked section, the select is another
 step, and a sender that finds the channel full is parked in the select until the loop
 takes an item and the runtime gives it the room, the session closes, or its timer fires.
 Sending on a closed channel panics, which ends the process; a run that goes on behind it
 says what the other calls would have met.
 */
module RecvChannel {
  const CAP := 1024  // mpcTssRecvChBuf

  datatype Item = Item(wire: string, fromIndex: int, isBroadcast: bool)

  type Id = nat  // one call of enqueueRecvItem

  datatype Pc =
    | Absent      // not called yet
    | Checking    // before the closed check
    | Passed      // found the session open, before the select
    | Parked      // in the select, the channel being full
    | Sent | Refused | Panicked

  datatype Sender = Sender(item: Item, pc: Pc)

  datatype State = State(
    queue: seq<Item>, closed: bool,
    senders: map<Id, Sender>,
    // history: everything put into the channel, in order, and by which call
    sent: seq<Item>, putBy: seq<Id>)

  datatype Action =
    | Call(id: Id, item: Item)
    | Check(id: Id)
    | Select(id: Id)
    | Timer(id: Id)       // the parked sender logs and starts over
    | Take(next: Id)      // the loop receives; if senders are parked, the room goes to `next`
    | Close

  const INIT := State([], false, map[], [], [])

  function PcOf(s: State, id: Id): Pc { if id in s.senders then s.senders[id].pc else Absent }

  function Goto(s: State, id: Id, pc: Pc): State
    requires id in s.senders
  {
    s.(senders := s.senders[id := s.senders[id].(pc := pc)])
  }

  function Put(s: State, id: Id): State
    requires id in s.senders
  {
    var item := s.senders[id].item;
    Goto(s, id, Sent).(queue := s.queue + [item], sent := s.sent + [item], putBy := s.putBy + [id])
  }

  predicate SomeParked(s: State) { exists id :: id in s.senders && s.senders[id].pc == Parked }

  // close(recvCh) makes every parked send panic.
  function PanicParked(senders: map<Id, Sender>): map<Id, Sender> {
    map id | id in senders :: if senders[id].pc == Parked then senders[id].(pc := Panicked) else senders[id]
  }

  // An action that is not possible leaves the state alone.
  function Step(s: State, a: Action): State {
    match a
    case Call(id, item) => if id in s.senders then s else s.(senders := s.senders[id := Sender(item, Checking)])
    case Check(id) => if PcOf(s, id) == Checking then Goto(s, id, if s.closed then Refused else Passed) else s
    case Select(id) =>
      if PcOf(s, id) != Passed then s
      else if s.closed then Goto(s, id, Panicked)
      else if |s.queue| < CAP then Put(s, id)
      else Goto(s, id, Parked)
    case Timer(id) => if PcOf(s, id) == Parked then Goto(s, id, Checking) else s
    case Take(next) =>
      if s.queue == [] then s
      else if PcOf(s, next) == Parked then Put(s.(queue := s.queue[1..]), next)
      else if SomeParked(s) then s
      else s.(queue := s.queue[1..])
    case Close => if s.closed then s else s.(closed := true, senders := PanicParked(s.senders))
  }

  function Run(s: State, acts: seq<Action>): State {
    if acts == [] then s else Step(Run(s, acts[..|acts| - 1]), acts[|acts| - 1])
  }

  function After(acts: seq<Action>): State { Run(INIT, acts) }

  lemma Then(s: State, acts: seq<Action>, a: Action)
    ensures Run(s, acts + [a]) == Step(Run(s, acts), a)
  {
    assert (acts + [a])[..|acts|] == acts;
  }

  lemma UpTo(acts: seq<Action>, n: nat)
    requires n < |acts|
    ensures After(acts[..n + 1]) == Step(After(acts[..n]), acts[n])
  {
    assert acts[..n + 1] == acts[..n] + [acts[n]];
    Then(INIT, acts[..n], acts[n]);
  }

  lemma {:induction false} RunOn(s: State, acts: seq<Action>, more: seq<Action>)
    ensures Run(s, acts + more) == Run(Run(s, acts), more)
    decreases |more|
  {
    if more == [] {
      assert acts + more == acts;
    } else {
      var n := |more| - 1;
      assert (acts + more)[..|acts + more| - 1] == acts + more[..n];
      RunOn(s, acts, more[..n]);
    }
  }

  // ---- What every step keeps ----

  // The queue is the tail of what was put into the channel.
  ghost predicate Fifo(s: State) {
    |s.queue| <= CAP && |s.queue| <= |s.sent| && s.queue == s.sent[|s.sent| - |s.queue|..]
  }

  // A sender is parked only while the session is open and the channel full; it has given up
  // or panicked only if the session was closed.
  ghost predicate Waiting(s: State) {
    && (forall id :: id in s.senders && s.senders[id].pc == Parked ==> !s.closed && |s.queue| == CAP)
    && (forall id :: id in s.senders && s.senders[id].pc in {Refused, Panicked} ==> s.closed)
    && (forall id :: id in s.senders ==> s.senders[id].pc != Absent)
  }

  // Each message put into the channel was put by one call that has returned true, and each
  // such call has put its own message once.
  ghost predicate PutOnce(s: State) {
    && |s.putBy| == |s.sent|
    && (forall i :: 0 <= i < |s.putBy| ==>
          s.putBy[i] in s.senders && s.senders[s.putBy[i]] == Sender(s.sent[i], Sent))
    && (forall i, j :: 0 <= i < j < |s.putBy| ==> s.putBy[i] != s.putBy[j])
    && (forall id :: id in s.senders && s.senders[id].pc == Sent ==> id in s.putBy)
  }

  ghost predicate Inv(s: State) { Fifo(s) && Waiting(s) && PutOnce(s) }

  lemma PutKeepsInv(s: State, id: Id)
    requires Fifo(s) && PutOnce(s) && id in s.senders && s.senders[id].pc in {Passed, Parked} && |s.queue| < CAP
    ensures Fifo(Put(s, id)) && PutOnce(Put(s, id))
  {
    var item, s' := s.senders[id].item, Put(s, id);
    assert s'.sent[|s'.sent| - |s'.queue|..] == s.sent[|s.sent| - |s.queue|..] + [item];
    forall other | other in s'.senders && s'.senders[other].pc == Sent ensures other in s'.putBy {
      if other == id { assert s'.putBy[|s.putBy|] == id; } else { assert other in s.putBy; }
    }
  }

  lemma DropKeepsFifo(s: State)
    requires Fifo(s) && PutOnce(s) && s.queue != []
    ensures var t := s.(queue := s.queue[1..]); Fifo(t) && PutOnce(t) && |t.queue| < CAP
  {
    var t := s.(queue := s.queue[1..]);
    assert t.queue == s.sent[|s.sent| - |t.queue|..];
  }

  lemma TakeKeepsInv(s: State, next: Id)
    requires Inv(s)
    ensures Inv(Step(s, Take(next)))
  {
    if s.queue != [] {
      var t := s.(queue := s.queue[1..]);
      DropKeepsFifo(s);
      if PcOf(s, next) == Parked {
        PutKeepsInv(t, next);
        assert |Put(t, next).queue| == |s.queue|;
      }
    }
  }

  lemma SelectKeepsInv(s: State, id: Id)
    requires Inv(s)
    ensures Inv(Step(s, Select(id)))
  {
    if PcOf(s, id) == Passed && !s.closed && |s.queue| < CAP { PutKeepsInv(s, id); }
  }

  lemma CallKeepsInv(s: State, id: Id, item: Item)
    requires Inv(s)
    ensures Inv(Step(s, Call(id, item)))
  {
  }

  lemma CloseKeepsInv(s: State)
    requires Inv(s)
    ensures Inv(Step(s, Close))
  {
  }

  lemma StepKeepsInv(s: State, a: Action)
    requires Inv(s)
    ensures Inv(Step(s, a))
  {
    match a
    case Call(id, item) => CallKeepsInv(s, id, item);
    case Close => CloseKeepsInv(s);
    case Take(next) => TakeKeepsInv(s, next);
    case Select(id) => SelectKeepsInv(s, id);
    case _ =>
  }

  // All of it holds in every reachable state.
  lemma {:induction false} PutOnceInOrder(acts: seq<Action>)
    ensures Fifo(After(acts))
    ensures Waiting(After(acts))
    ensures PutOnce(After(acts))
  {
    if acts != [] {
      PutOnceInOrder(acts[..|acts| - 1]);
      StepKeepsInv(After(acts[..|acts| - 1]), acts[|acts| - 1]);
    }
  }

  // ---- What closing does to a sender ----

  predicate Settled(pc: Pc) { pc in {Sent, Refused, Panicked} }

  // The k-th action closes the session.
  predicate Closes(acts: seq<Action>, k: nat) { k < |acts| && acts[k] == Close && !After(acts[..k]).closed }

  function PcAt(acts: seq<Action>, k: nat, id: Id): Pc
    requires k <= |acts|
  {
    PcOf(After(acts[..k]), id)
  }

  // Where a sender can be once the session has closed, by where it was at the close.
  predicate AfterClose(at: Pc, now: Pc) {
    match at
    case Absent | Checking => now in {Absent, Checking, Refused}
    case Passed => now in {Passed, Panicked}
    case Parked => now == Panicked
    case Sent | Refused | Panicked => now == at
  }

  lemma ClosedStep(s: State, a: Action, at: Pc, id: Id)
    requires s.closed && Waiting(s) && AfterClose(at, PcOf(s, id))
    ensures Step(s, a).closed && AfterClose(at, PcOf(Step(s, a), id))
  {
  }

  lemma CloseStep(s: State, id: Id)
    requires !s.closed && Waiting(s)
    ensures Step(s, Close).closed && AfterClose(PcOf(s, id), PcOf(Step(s, Close), id))
  {
  }

  lemma {:induction false} CloseDecides(acts: seq<Action>, k: nat, n: nat, id: Id)
    requires Closes(acts, k) && k < n <= |acts|
    ensures After(acts[..n]).closed && AfterClose(PcAt(acts, k, id), PcAt(acts, n, id))
    decreases n
  {
    var before := After(acts[..n - 1]);
    assert Waiting(before) by { PutOnceInOrder(acts[..n - 1]); }
    if k < n - 1 {
      CloseDecides(acts, k, n - 1, id);
      ClosedStep(before, acts[n - 1], PcAt(acts, k, id), id);
    } else {
      CloseStep(before, id);
    }
    UpTo(acts, n - 1);
  }

  lemma {:induction false} ClosedOnce(acts: seq<Action>, n: nat) returns (k: nat)
    requires n <= |acts| && After(acts[..n]).closed
    ensures k < n && Closes(acts, k)
    decreases n
  {
    if n > 0 {
      UpTo(acts, n - 1);
      if After(acts[..n - 1]).closed { k := ClosedOnce(acts, n - 1); } else { k := n - 1; }
    }
  }

  // A call of enqueueRecvItem that has ended panicked exactly if the session closed while it
  // stood between its closed check and its send, gave up exactly if the session closed before
  // that check, and sent its message exactly if it had done so before any close.
  lemma PanicsIffClosedInSelect(acts: seq<Action>, id: Id)
    requires Settled(PcAt(acts, |acts|, id))
    ensures PcAt(acts, |acts|, id) == Panicked <==>
      exists k: nat :: Closes(acts, k) && PcAt(acts, k, id) in {Passed, Parked}
    ensures PcAt(acts, |acts|, id) == Refused <==>
      exists k: nat :: Closes(acts, k) && PcAt(acts, k, id) in {Absent, Checking}
    ensures PcAt(acts, |acts|, id) == Sent <==>
      forall k: nat :: Closes(acts, k) ==> PcAt(acts, k, id) == Sent
  {
    PutOnceInOrder(acts[..|acts|]);
    forall k: nat | Closes(acts, k) ensures AfterClose(PcAt(acts, k, id), PcAt(acts, |acts|, id)) {
      CloseDecides(acts, k, |acts|, id);
    }
    forall k: nat | Closes(acts, k) ensures PcAt(acts, k, id) !in {Refused, Panicked} {
      PutOnceInOrder(acts[..k]);
    }
    if After(acts[..|acts|]).closed {
      var k := ClosedOnce(acts, |acts|);
    }
  }

  // ---- A parked sender ----

  lemma ParkedStep(s: State, a: Action, id: Id)
    requires Inv(s) && PcOf(s, id) == Parked && a != Timer(id)
    ensures PcOf(Step(s, a), id) == if a == Close then Panicked else if a == Take(id) then Sent else Parked
    ensures a == Take(id) ==> Step(s, a).sent == s.sent + [s.senders[id].item]
  {
  }

  lemma SettledStays(s: State, a: Action, id: Id)
    requires Settled(PcOf(s, id))
    ensures PcOf(Step(s, a), id) == PcOf(s, id)
  {
  }

  lemma WaitStep(acts: seq<Action>, n: nat, id: Id)
    requires n < |acts| && acts[n] != Timer(id) && PcAt(acts, n, id) in {Panicked, Sent, Parked}
    ensures PcAt(acts, n + 1, id) ==
      if PcAt(acts, n, id) != Parked then PcAt(acts, n, id)
      else if acts[n] == Close then Panicked else if acts[n] == Take(id) then Sent else Parked
  {
    var s := After(acts[..n]);
    if PcOf(s, id) == Parked {
      assert Inv(s) by { PutOnceInOrder(acts[..n]); }
      ParkedStep(s, acts[n], id);
    } else {
      SettledStays(s, acts[n], id);
    }
    UpTo(acts, n);
  }

  predicate NoRoom(acts: seq<Action>, i: nat, j: nat, id: Id)
    requires j <= |acts|
  {
    forall m :: i <= m < j ==> acts[m] != Take(id)
  }

  predicate NoClose(acts: seq<Action>, i: nat, j: nat)
    requires j <= |acts|
  {
    forall m :: i <= m < j ==> acts[m] != Close
  }

  predicate ClosesFirst(acts: seq<Action>, i: nat, n: nat, id: Id)
    requires n <= |acts|
  {
    exists j: nat :: i <= j < n && acts[j] == Close && NoRoom(acts, i, j, id)
  }

  predicate RoomFirst(acts: seq<Action>, i: nat, n: nat, id: Id)
    requires n <= |acts|
  {
    exists j: nat :: i <= j < n && acts[j] == Take(id) && NoClose(acts, i, j)
  }

  lemma FirstExtends(acts: seq<Action>, i: nat, n: nat, id: Id)
    requires i <= n < |acts|
    ensures NoRoom(acts, i, n + 1, id) <==> NoRoom(acts, i, n, id) && acts[n] != Take(id)
    ensures NoClose(acts, i, n + 1) <==> NoClose(acts, i, n) && acts[n] != Close
    ensures ClosesFirst(acts, i, n + 1, id) <==>
      ClosesFirst(acts, i, n, id) || (acts[n] == Close && NoRoom(acts, i, n, id))
    ensures RoomFirst(acts, i, n + 1, id) <==>
      RoomFirst(acts, i, n, id) || (acts[n] == Take(id) && NoClose(acts, i, n))
  {
  }

  // One wait of a sender at a full channel, until its timer fires: it panics exactly if the
  // session closes before room comes to it, sends exactly if room comes first, and is still
  // parked otherwise, whatever other senders and the loop do meanwhile.
  lemma {:induction false} WaitEnds(acts: seq<Action>, i: nat, n: nat, id: Id)
    requires i <= n <= |acts| && PcAt(acts, i, id) == Parked
    requires forall m :: i <= m < n ==> acts[m] != Timer(id)
    ensures PcAt(acts, n, id) == Panicked <==> ClosesFirst(acts, i, n, id)
    ensures PcAt(acts, n, id) == Sent <==> RoomFirst(acts, i, n, id)
    ensures PcAt(acts, n, id) == Parked <==> NoRoom(acts, i, n, id) && NoClose(acts, i, n)
    ensures PcAt(acts, n, id) in {Panicked, Sent, Parked}
    decreases n
  {
    if i < n {
      WaitEnds(acts, i, n - 1, id);
      WaitStep(acts, n - 1, id);
      FirstExtends(acts, i, n - 1, id);
    }
  }

  // ---- The receiver, and a timer ----

  // The loop takes the message that has waited longest; the room goes to a parked sender, whose
  // message comes last, if one is parked.
  lemma ReceiverTakesFirst(acts: seq<Action>, k: nat, next: Id)
    requires k < |acts| && acts[k] == Take(next) && After(acts[..k]).queue != []
    requires PcAt(acts, k, next) == Parked || forall id :: PcAt(acts, k, id) != Parked
    ensures var s, s' := After(acts[..k]), After(acts[..k + 1]);
      s'.queue == if PcAt(acts, k, next) == Parked then s.queue[1..] + [s.senders[next].item] else s.queue[1..]
  {
    UpTo(acts, k);
    if SomeParked(After(acts[..k])) {
      var id :| id in After(acts[..k]).senders && After(acts[..k]).senders[id].pc == Parked;
      assert PcAt(acts, k, id) == Parked;
    }
  }

  // A sender whose timer fires looks again: with the session closed by then it gives up.
  lemma TimerStartsOver(acts: seq<Action>, k: nat, id: Id)
    requires k < |acts| && acts[k] == Timer(id) && PcAt(acts, k, id) == Parked
    ensures PcAt(acts, k + 1, id) == Checking && After(acts[..k + 1]).queue == After(acts[..k]).queue
    ensures var s := After(acts[..k + 1]);
      PcOf(Step(s, Check(id)), id) == Passed && PcOf(Step(Step(s, Close), Check(id)), id) == Refused
  {
    UpTo(acts, k);
    PutOnceInOrder(acts[..k]);
  }

  // ---- Two runs that panic ----

  lemma {:induction false} Filled(item: Item, n: nat) returns (acts: seq<Action>)
    requires n <= CAP
    ensures var s := After(acts); |s.queue| == n && !s.closed && forall id :: id in s.senders ==> id < n
  {
    if n == 0 {
      acts := [];
    } else {
      var before := Filled(item, n - 1);
      acts := before + [Call(n - 1, item)] + [Check(n - 1)] + [Select(n - 1)];
      Then(INIT, before, Call(n - 1, item));
      Then(INIT, before + [Call(n - 1, item)], Check(n - 1));
      Then(INIT, before + [Call(n - 1, item)] + [Check(n - 1)], Select(n - 1));
    }
  }

  // With 1024 messages queued, one more sender is parked; the session closes, and it panics.
  lemma ParkedSenderPanics(item: Item) returns (acts: seq<Action>, id: Id)
    ensures acts != [] && acts[|acts| - 1] == Close
    ensures PcAt(acts, |acts| - 1, id) == Parked && |After(acts[..|acts| - 1]).queue| == CAP
    ensures PcOf(After(acts), id) == Panicked
  {
    var full := Filled(item, CAP);
    id := CAP;
    var parked := full + [Call(id, item)] + [Check(id)] + [Select(id)];
    Then(INIT, full, Call(id, item));
    Then(INIT, full + [Call(id, item)], Check(id));
    Then(INIT, full + [Call(id, item)] + [Check(id)], Select(id));
    acts := parked + [Close];
    Then(INIT, parked, Close);
    assert acts[..|acts| - 1] == parked;
  }

  // Room is no protection: the session may close between the closed check and the select.
  lemma SenderPanicsWithRoom(item: Item) returns (acts: seq<Action>)
    ensures PcOf(After(acts), 0) == Panicked && After(acts).queue == []
  {
    var called := [] + [Call(0, item)];
    var open := called + [Check(0)];
    Then(INIT, [], Call(0, item));
    Then(INIT, called, Check(0));
    Then(INIT, open, Close);
    Then(INIT, open + [Close], Select(0));
    ChecksThenCloses(INIT, 0, item);
    acts := open + [Close] + [Select(0)];
  }

  lemma ChecksThenCloses(s: State, id: Id, item: Item)
    requires !s.closed && id !in s.senders
    ensures var p := Step(Step(s, Call(id, item)), Check(id)); var e := Step(Step(p, Close), Select(id));
      PcOf(e, id) == Panicked && e.queue == s.queue
  {
    var p := Step(Step(s, Call(id, item)), Check(id));
    assert PcOf(p, id) == Passed && !p.closed && p.queue == s.queue;
    var c := Step(p, Close);
    assert PcOf(c, id) == Passed && c.closed && c.queue == s.queue;
  }

  // ---- One call among what others do ----

  // Not a move of this call's own goroutine.
  predicate Foreign(a: Action, id: Id) {
    match a
    case Call(other, _) => other != id
    case Check(other) => other != id
    case Select(other) => other != id
    case Timer(other) => other != id
    case Take(_) => true
    case Close => true
  }

  predicate AllForeign(others: seq<seq<Action>>, id: Id) {
    forall k, m :: 0 <= k < |others| && 0 <= m < |others[k]| ==> Foreign(others[k][m], id)
  }

  // The call's next move; one that is still parked when it moves was woken by its timer.
  function Own(s: State, id: Id): Action {
    match PcOf(s, id)
    case Checking => Check(id)
    case Passed => Select(id)
    case _ => Timer(id)
  }

  // The rest of the program does `acts`, and then this call moves.
  function Move(s: State, id: Id, acts: seq<Action>): State {
    var t := Run(s, acts);
    Step(t, Own(t, id))
  }

  // `others[k]` is what the rest of the program does before the call's k-th move.
  function Drive(s: State, id: Id, others: seq<seq<Action>>): State
    decreases |others|
  {
    if others == [] || Settled(PcOf(s, id)) then s else Drive(Move(s, id, others[0]), id, others[1..])
  }

  lemma {:induction false} SettledStaysRun(s: State, id: Id, acts: seq<Action>)
    requires Settled(PcOf(s, id))
    ensures PcOf(Run(s, acts), id) == PcOf(s, id)
  {
    if acts != [] {
      SettledStaysRun(s, id, acts[..|acts| - 1]);
      SettledStays(Run(s, acts[..|acts| - 1]), acts[|acts| - 1], id);
    }
  }

  lemma DriveMoves(s: State, id: Id, others: seq<seq<Action>>, k: nat)
    requires k < |others| && !Settled(PcOf(s, id))
    ensures Drive(s, id, others[k..]) == Drive(Move(s, id, others[k]), id, others[k + 1..])
  {
    assert others[k..][1..] == others[k + 1..];
  }

  // Such a call is a run of the machine, so everything above holds of it.
  lemma {:induction false} DriveIsRun(s: State, id: Id, others: seq<seq<Action>>) returns (acts: seq<Action>)
    ensures Run(s, acts) == Drive(s, id, others)
    decreases |others|
  {
    if others == [] || Settled(PcOf(s, id)) {
      acts := [];
    } else {
      var t := Run(s, others[0]);
      var own := others[0] + [Own(t, id)];
      Then(s, others[0], Own(t, id));
      var rest := DriveIsRun(Step(t, Own(t, id)), id, others[1..]);
      acts := own + rest;
      RunOn(s, own, rest);
    }
  }

  lemma {:induction false} DriveKeepsInv(s: State, id: Id, others: seq<seq<Action>>)
    requires Inv(s)
    ensures Inv(Drive(s, id, others))
  {
    var acts := DriveIsRun(s, id, others);
    RunKeepsInv(s, acts);
  }

  lemma {:induction false} RunKeepsInv(s: State, acts: seq<Action>)
    requires Inv(s)
    ensures Inv(Run(s, acts))
  {
    if acts != [] {
      RunKeepsInv(s, acts[..|acts| - 1]);
      StepKeepsInv(Run(s, acts[..|acts| - 1]), acts[|acts| - 1]);
    }
  }

  lemma ForeignStep(s: State, a: Action, id: Id)
    requires Foreign(a, id) && PcOf(s, id) in {Checking, Passed}
    ensures PcOf(Step(s, a), id) == PcOf(s, id)
  {
  }

  lemma {:induction false} ForeignRun(s: State, acts: seq<Action>, id: Id)
    requires (forall m :: 0 <= m < |acts| ==> Foreign(acts[m], id)) && PcOf(s, id) in {Checking, Passed}
    ensures PcOf(Run(s, acts), id) == PcOf(s, id)
  {
    if acts != [] {
      ForeignRun(s, acts[..|acts| - 1], id);
      ForeignStep(Run(s, acts[..|acts| - 1]), acts[|acts| - 1], id);
    }
  }

  lemma {:induction false} ParkedRun(s: State, acts: seq<Action>, id: Id)
    requires (forall m :: 0 <= m < |acts| ==> Foreign(acts[m], id)) && PcOf(s, id) in {Parked, Sent, Panicked}
    ensures PcOf(Run(s, acts), id) in {Parked, Sent, Panicked}
  {
    if acts != [] { ParkedRun(s, acts[..|acts| - 1], id); }
  }

  // The channel's contents alone.
  function Contents(s: State): (seq<Item>, bool, seq<Item>) { (s.queue, s.closed, s.sent) }

  // A call that nobody interferes with: it changes nothing unless the session is open and
  // there is room, and else puts its message at the end.
  lemma {:induction false} QuietDrive(s: State, id: Id, others: seq<seq<Action>>)
    requires (forall k :: 0 <= k < |others| ==> others[k] == []) && id in s.senders
    requires match PcOf(s, id) case Checking => |others| >= 2 case Passed => |others| >= 1 case _ => false
    requires PcOf(s, id) == Passed ==> !s.closed
    ensures Contents(Drive(s, id, others)) ==
      if s.closed || |s.queue| >= CAP then Contents(s)
      else var item := s.senders[id].item; (s.queue + [item], false, s.sent + [item])
    decreases |others|
  {
    var t := Step(s, Own(s, id));
    assert Run(s, others[0]) == s;
    if PcOf(s, id) == Checking {
      if !s.closed { QuietDrive(t, id, others[1..]); }
    } else if |s.queue| >= CAP {
      QuietWait(t, id, others[1..]);
    }
  }

  // Nor does it change anything while it waits at a full channel.
  lemma {:induction false} QuietWait(s: State, id: Id, others: seq<seq<Action>>)
    requires forall k :: 0 <= k < |others| ==> others[k] == []
    requires PcOf(s, id) in {Checking, Passed, Parked} && !s.closed && |s.queue| >= CAP
    ensures Contents(Drive(s, id, others)) == Contents(s)
    decreases |others|
  {
    if others != [] {
      assert Run(s, others[0]) == s;
      QuietWait(Step(s, Own(s, id)), id, others[1..]);
    }
  }

  // ---- The session ----

  class Session {
    const myIndex: int
    ghost const name: nat          // stands for the session's pointer
    var recvCh: seq<Item>
    var closed: bool
    var senders: map<Id, Sender>   // where the goroutines in enqueue stand
    ghost var sent: seq<Item>
    ghost var putBy: seq<Id>

    constructor (myIndex: int, ghost name: nat)
      ensures this.myIndex == myIndex && this.name == name && View() == INIT
    {
      this.myIndex, this.name := myIndex, name;
      recvCh, closed, senders, sent, putBy := [], false, map[], [], [];
    }

    ghost function View(): State
      reads this
    {
      State(recvCh, closed, senders, sent, putBy)
    }

    // close()
    method Close()
      modifies this
      ensures View() == Step(old(View()), Action.Close)
    {
      if closed { return; }
      closed := true;
      senders := PanicParked(senders);
    }

    // The locked section of enqueueRecvItem; true if it gives up.
    method GivesUp(id: Id) returns (refused: bool)
      requires PcOf(View(), id) == Checking
      modifies this
      ensures View() == Step(old(View()), Check(id)) && refused == old(closed)
      ensures PcOf(View(), id) == if refused then Refused else Passed
    {
      refused := closed;
      senders := senders[id := senders[id].(pc := if refused then Refused else Passed)];
    }

    // The start of its select.
    method TrySend(id: Id) returns (pc: Pc)
      requires PcOf(View(), id) == Passed
      modifies this
      ensures View() == Step(old(View()), Select(id)) && pc == PcOf(View(), id)
      ensures pc == if old(closed) then Panicked else if |old(recvCh)| < CAP then Sent else Parked
    {
      var item := senders[id].item;
      if closed {
        pc := Panicked;
      } else if |recvCh| < CAP {
        pc := Sent;
        recvCh, sent, putBy := recvCh + [item], sent + [item], putBy + [id];
      } else {
        pc := Parked;
      }
      senders := senders[id := Sender(item, pc)];
    }

    // The delivery loop's receive; a parked sender gets the room.
    method Receive(next: Id)
      modifies this
      ensures View() == Step(old(View()), Take(next))
    {
      if recvCh == [] { return; }
      if next in senders && senders[next].pc == Parked {
        var item := senders[next].item;
        recvCh, sent, putBy := recvCh[1..] + [item], sent + [item], putBy + [next];
        senders := senders[next := Sender(item, Sent)];
      } else if !(exists id :: id in senders && senders[id].pc == Parked) {
        recvCh := recvCh[1..];
      }
    }

    method Perform(a: Action)
      modifies this
      ensures View() == Step(old(View()), a)
    {
      match a
      case Call(id, item) => if id !in senders { senders := senders[id := Sender(item, Checking)]; }
      case Check(id) => if id in senders && senders[id].pc == Checking { var _ := GivesUp(id); }
      case Select(id) => if id in senders && senders[id].pc == Passed { var _ := TrySend(id); }
      case Timer(id) =>
        if id in senders && senders[id].pc == Parked { senders := senders[id := senders[id].(pc := Checking)]; }
      case Take(next) => Receive(next);
      case Close => Close();
    }

    method PerformAll(acts: seq<Action>)
      modifies this
      ensures View() == Run(old(View()), acts)
    {
      var i := 0;
      while i < |acts|
        invariant 0 <= i <= |acts| && View() == Run(old(View()), acts[..i])
      {
        assert acts[..i + 1] == acts[..i] + [acts[i]];
        Then(old(View()), acts[..i], acts[i]);
        Perform(acts[i]);
        i := i + 1;
      }
      assert acts[..i] == acts;
    }

    // The end of a wait: the send went through, or panicked, or the timer has fired.
    method Wake(id: Id) returns (pc: Pc)
      requires id in senders && (senders[id].pc == Parked || Settled(senders[id].pc))
      modifies this
      ensures View() == Step(old(View()), Own(old(View()), id)) && pc == PcOf(View(), id)
      ensures pc == if old(PcOf(View(), id)) == Parked then Checking else old(PcOf(View(), id))
    {
      pc := senders[id].pc;
      if pc == Parked {
        pc := Checking;
        senders := senders[id := senders[id].(pc := pc)];
      }
    }

    // Its moves, each after what others do.
    method CheckAfter(id: Id, acts: seq<Action>) returns (refused: bool)
      requires PcOf(View(), id) == Checking && forall m :: 0 <= m < |acts| ==> Foreign(acts[m], id)
      modifies this
      ensures View() == Move(old(View()), id, acts) && PcOf(View(), id) == if refused then Refused else Passed
    {
      ForeignRun(View(), acts, id);
      PerformAll(acts);
      refused := GivesUp(id);
    }

    method SelectAfter(id: Id, acts: seq<Action>) returns (pc: Pc)
      requires PcOf(View(), id) == Passed && forall m :: 0 <= m < |acts| ==> Foreign(acts[m], id)
      modifies this
      ensures View() == Move(old(View()), id, acts) && pc == PcOf(View(), id) && pc in {Sent, Panicked, Parked}
    {
      ForeignRun(View(), acts, id);
      PerformAll(acts);
      pc := TrySend(id);
    }

    method WaitDuring(id: Id, acts: seq<Action>) returns (pc: Pc)
      requires PcOf(View(), id) == Parked && forall m :: 0 <= m < |acts| ==> Foreign(acts[m], id)
      modifies this
      ensures View() == Move(old(View()), id, acts) && pc == PcOf(View(), id) && pc in {Sent, Panicked, Checking}
    {
      ParkedRun(View(), acts, id);
      PerformAll(acts);
      pc := Wake(id);
    }

    // enqueueRecvItem; `others[k]` is what the rest of the program does before its k-th move.
    method Enqueue(id: Id, item: Item, others: seq<seq<Action>>) returns (pc: Pc)
      requires id !in senders && AllForeign(others, id)
      modifies this
      ensures View() == Drive(Step(old(View()), Call(id, item)), id, others) && pc == PcOf(View(), id)
    {
      senders := senders[id := Sender(item, Checking)];
      ghost var goal := Drive(View(), id, others);
      var k := 0;
      while true
        invariant 0 <= k <= |others| && PcOf(View(), id) == Checking && Drive(View(), id, others[k..]) == goal
        decreases |others| - k
      {
        if k == |others| { return Checking; }
        DriveMoves(View(), id, others, k);
        var refused := CheckAfter(id, others[k]);
        k := k + 1;
        if refused { return Refused; }
        if k == |others| { return Passed; }
        DriveMoves(View(), id, others, k);
        pc := SelectAfter(id, others[k]);
        k := k + 1;
        if k == |others| || pc != Parked { return; }
        DriveMoves(View(), id, others, k);
        pc := WaitDuring(id, others[k]);
        k := k + 1;
        if pc != Checking { return; }
      }
    }
  }
}
