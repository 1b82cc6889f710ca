/**
 What a round of the delivery loop achieves, over its own machine: a wake-up flushes what
 waited, a message received is taken, kept or dropped in that round, and the loop ends
 exactly when its channel is closed and drained.
 */
module DeliveryProgress {
  import opened Wrappers
  import opened DeliveryLoop

  ghost predicate OnlyMoves(more: seq<Action>) { forall i :: 0 <= i < |more| ==> more[i] == LoopMoves }

  lemma Then(setup: Setup, acts: seq<Action>, a: Action)
    ensures After(setup, acts + [a]) == Step(After(setup, acts), a)
  {
    assert (acts + [a])[..|acts|] == acts;
  }

  lemma {:induction false} ProcessAllProcesses(s: State, items: seq<Item>)
    ensures var e := ProcessAll(s, items);
      e.processed == s.processed + items && e.cached == s.cached && e.recvCh == s.recvCh && e.token == s.token
    decreases |items|
  {
    if items != [] {
      ProcessAllProcesses(Process(s, items[0]), items[1..]);
      assert s.processed + [items[0]] + items[1..] == s.processed + items;
    }
  }

  lemma FlushSettles(s: State)
    requires s.pc.Flush? && s.pc.next == 0
    ensures var e := Settle(s);
      && e.pc == Select && e.cached == [] && e.recvCh == s.recvCh && e.token == s.token
      && e.processed == s.processed + s.cached + Items(s.pc.trigger)
  {
    SettleFlushes(s, 0);
    assert s.cached[0..] == s.cached;
    ProcessAllProcesses(s, s.cached);
  }

  // A wake-up, once the party has started, processes everything that waited, and consumes the
  // token; before, it only consumes the token.
  lemma WakeUpFlushes(setup: Setup, acts: seq<Action>) returns (more: seq<Action>)
    requires var s := After(setup, acts); s.pc == Select && s.token
    ensures OnlyMoves(more)
    ensures var s, e := After(setup, acts), After(setup, acts + [LoopTakesToken] + more);
      && e.pc == Select && !e.token && e.recvCh == s.recvCh
      && (if s.partyStarted then e.cached == [] && e.processed == s.processed + s.cached
          else e.cached == s.cached && e.processed == s.processed)
  {
    var s := After(setup, acts);
    Then(setup, acts, LoopTakesToken);
    more := SettleIsRun(setup, acts + [LoopTakesToken]);
    var t := Step(s, LoopTakesToken);
    assert Settle(t) == Settle(Move(t));
    if s.partyStarted { FlushSettles(Move(t)); }
  }

  // A round that receives takes the first message of the channel.  The node's own is dropped.
  // Once the party has started, what waited is processed and then the message; before, the
  // message waits behind the others, or is dropped if 1024 do.
  lemma ReceiveDecides(setup: Setup, acts: seq<Action>) returns (more: seq<Action>)
    requires var s := After(setup, acts); s.pc == Select && s.recvCh != []
    ensures OnlyMoves(more)
    ensures var s, e := After(setup, acts), After(setup, acts + [LoopReceives] + more); var item := s.recvCh[0];
      && e.pc == Select && e.recvCh == s.recvCh[1..] && e.received == s.received + [item] && e.token == s.token
      && (if item.fromIndex == s.setup.myIndex then e.cached == s.cached && e.processed == s.processed
          else if s.partyStarted then e.cached == [] && e.processed == s.processed + s.cached + [item]
          else e.cached == (if |s.cached| < CAP then s.cached + [item] else s.cached) && e.processed == s.processed)
  {
    var s := After(setup, acts);
    Then(setup, acts, LoopReceives);
    more := SettleIsRun(setup, acts + [LoopReceives]);
    var r := Receive(s);
    assert Step(s, LoopReceives) == r;
    if r.pc.Got? {
      SettleKeepsReceived(r);
      if s.partyStarted { FlushSettles(Move(r)); } else { KeepSettles(r); }
    } else {
      assert Settle(r) == r;
    }
  }

  lemma KeepSettles(s: State)
    requires s.pc.Got? && !s.partyStarted
    ensures Settle(s) == Move(Move(s))
  {
    var k := Move(s);
    assert k.pc == Keep(s.pc.item);
    var e := Move(k);
    assert e.pc == Select;
    assert Settle(e) == e;
    assert Settle(k) == Settle(e);
  }

  lemma {:induction false} SettleKeepsReceived(s: State)
    ensures Settle(s).received == s.received && Settle(s).token == s.token && Settle(s).recvCh == s.recvCh
    decreases Rank(s)
  {
    if !s.pc.Select? && !s.pc.Exited? {
      MoveKeepsReceived(s);
      SettleKeepsReceived(Move(s));
    }
  }

  lemma MoveKeepsReceived(s: State)
    ensures Move(s).received == s.received && Move(s).token == s.token && Move(s).recvCh == s.recvCh
  {
    match s.pc
    case Got(_) =>
    case Keep(_) =>
    case TokenTaken =>
    case Flush(_, _) =>
    case Select =>
    case Exited =>
  }

  // With its channel closed and drained the loop ends when it next receives.
  lemma ClosedChannelEnds(setup: Setup, acts: seq<Action>)
    requires var s := After(setup, acts); s.pc == Select && s.recvCh == []
    ensures var s, e := After(setup, acts), After(setup, acts + [LoopReceives]);
      if s.closed then e.pc == Exited else e == s
  {
    Then(setup, acts, LoopReceives);
  }

  // And only then: it never leaves a message behind.
  lemma ExitStep(s: State, a: Action)
    requires s.pc == Exited ==> s.closed && s.recvCh == []
    ensures Step(s, a).pc == Exited ==> Step(s, a).closed && Step(s, a).recvCh == []
  {
    if a == LoopMoves { MoveExits(s); }
  }

  lemma MoveExits(s: State)
    ensures Move(s).pc == Exited <==> s.pc == Exited
    ensures s.pc == Exited ==> Move(s) == s
  {
    match s.pc
    case Got(_) =>
    case Keep(_) =>
    case TokenTaken =>
    case Flush(_, _) =>
    case Select =>
    case Exited =>
  }

  lemma {:induction false} EndsDrained(setup: Setup, acts: seq<Action>)
    requires After(setup, acts).pc == Exited
    ensures var s := After(setup, acts); s.closed && s.recvCh == [] && s.received == s.sent
  {
    InvHolds(setup, acts);
    EndsClosed(setup, acts);
  }

  lemma {:induction false} EndsClosed(setup: Setup, acts: seq<Action>)
    ensures var s := After(setup, acts); s.pc == Exited ==> s.closed && s.recvCh == []
  {
    if acts != [] {
      EndsClosed(setup, acts[..|acts| - 1]);
      ExitStep(After(setup, acts[..|acts| - 1]), acts[|acts| - 1]);
    }
  }

  // The handler's two sections start the party and leave a token.
  lemma StarterNotifies(setup: Setup, acts: seq<Action>)
    requires After(setup, acts).starter == Starting
    ensures After(setup, acts + [StarterMoves]).partyStarted
    ensures var e := After(setup, acts + [StarterMoves] + [StarterMoves]);
      e.partyStarted && e.token && e.starter == Notified
  {
    Then(setup, acts, StarterMoves);
    Then(setup, acts + [StarterMoves], StarterMoves);
  }
}
