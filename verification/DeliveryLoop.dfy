/**
 The delivery goroutine of a session beside its start handler and the callers that fill
 the receive channel.  Loading partyStarted, caching an item and processing one item are
 steps of their own, so the handler's store and notify may fall between any two of them.
 */
module DeliveryLoop {
  import opened Wrappers
  import RecvChannel

  type Item = RecvChannel.Item

  const CAP := RecvChannel.CAP

  datatype LoopPc =
    | Select
    | Got(item: Item)                             // received, partyStarted not yet loaded
    | Keep(item: Item)                            // loaded false: about to cache or drop
    | TokenTaken                                  // partyReady received, partyStarted not yet loaded
    | Flush(next: nat, trigger: Option<Item>)     // loaded true: processing the cached items
    | Exited

  datatype StarterPc = Starting | Stored | Notified

  datatype Outcome = Own | OverCap | Taken

  // What is fixed for a session: the node's index, the items the duplicate detection already
  // knows when the loop starts (it outlives sessions), and whether the party accepts item k
  // of those processed, should it be handed over.
  datatype Setup = Setup(myIndex: int, seen: set<Item>, accepts: nat -> bool)

  datatype State = State(
    setup: Setup,
    recvCh: seq<Item>, closed: bool,
    partyStarted: bool, token: bool,
    starter: StarterPc,
    pc: LoopPc,
    cached: seq<Item>,
    seen: set<Item>,                // the duplicate detection's items of this task
    // history
    processed: seq<Item>,           // calls of processMessage
    handed: seq<Item>,              // calls of the party's Receive
    sent: seq<Item>,
    received: seq<Item>,
    outcomes: seq<Outcome>,         // of the received items, once decided
    receivedAtStore: Option<nat>)

  function Init(setup: Setup): State {
    State(setup, [], false, false, false, Starting, Select, [], setup.seen, [], [], [], [], [], None)
  }

  datatype Action =
    | Enqueue(item: Item) | CloseCh
    | StarterMoves                // partyStarted.Store(true), then notifyPartyReady
    | LoopReceives | LoopTakesToken | LoopMoves

  function Step(s: State, a: Action): State {
    match a
    case Enqueue(item) =>
      if s.closed || |s.recvCh| >= CAP then s else s.(recvCh := s.recvCh + [item], sent := s.sent + [item])
    case CloseCh => s.(closed := true)
    case StarterMoves =>
      (match s.starter
       case Starting => s.(partyStarted := true, starter := Stored, receivedAtStore := Some(|s.received|))
       case Stored => s.(token := true, starter := Notified)
       case Notified => s)
    case LoopReceives => if s.pc == Select then Receive(s) else s
    case LoopTakesToken => if s.pc == Select && s.token then s.(token := false, pc := TokenTaken) else s
    case LoopMoves => Move(s)
  }

  // A closed channel still hands out what it holds, and then ends the loop.
  function Receive(s: State): State {
    if s.recvCh == [] then (if s.closed then s.(pc := Exited) else s)
    else
      var item := s.recvCh[0];
      var r := s.(recvCh := s.recvCh[1..], received := s.received + [item]);
      if item.fromIndex == s.setup.myIndex then r.(outcomes := s.outcomes + [Own]) else r.(pc := Got(item))
  }

  function Move(s: State): State {
    match s.pc
    case Got(item) =>
      if s.partyStarted then s.(pc := Flush(0, Some(item)), outcomes := s.outcomes + [Taken]) else s.(pc := Keep(item))
    case Keep(item) =>
      if |s.cached| < CAP then s.(pc := Select, cached := s.cached + [item], outcomes := s.outcomes + [Taken])
      else s.(pc := Select, outcomes := s.outcomes + [OverCap])
    case TokenTaken => s.(pc := if s.partyStarted then Flush(0, None) else Select)
    case Flush(next, trigger) =>
      if next < |s.cached| then Process(s, s.cached[next]).(pc := Flush(next + 1, trigger))
      else
        (match trigger case Some(item) => Process(s, item) case None => s).(pc := Select, cached := [])
    case Select | Exited => s
  }

  // processMessage: an item known as a duplicate is skipped; any other is handed to the
  // party, and remembered if the party accepts it.
  function Process(s: State, item: Item): State {
    var known := item in s.seen;
    s.(processed := s.processed + [item],
       handed := if known then s.handed else s.handed + [item],
       seen := if !known && s.setup.accepts(|s.processed|) then s.seen + {item} else s.seen)
  }

  function Items(trigger: Option<Item>): seq<Item> {
    match trigger case Some(item) => [item] case None => []
  }

  function After(setup: Setup, acts: seq<Action>): State {
    if acts == [] then Init(setup) else Step(After(setup, acts[..|acts| - 1]), acts[|acts| - 1])
  }

  // The received items that are neither the node's own nor over the cap, in order.
  function TakenItems(items: seq<Item>, outcomes: seq<Outcome>): seq<Item>
    requires |outcomes| <= |items|
  {
    if outcomes == [] then []
    else
      var n := |outcomes| - 1;
      TakenItems(items, outcomes[..n]) + (if outcomes[n] == Taken then [items[n]] else [])
  }

  // What the loop holds and has still to process.
  function InLoop(s: State): seq<Item> {
    if s.pc.Flush? && s.pc.next <= |s.cached| then s.cached[s.pc.next..] + Items(s.pc.trigger) else s.cached
  }

  ghost predicate History(s: State) {
    && s.sent == s.received + s.recvCh
    && |s.received| == |s.outcomes| + (if s.pc.Got? || s.pc.Keep? then 1 else 0)
    && (s.pc.Got? ==> s.received[|s.received| - 1] == s.pc.item && s.pc.item.fromIndex != s.setup.myIndex)
    && (s.pc.Keep? ==> s.received[|s.received| - 1] == s.pc.item && s.pc.item.fromIndex != s.setup.myIndex)
    && (s.pc.Flush? ==> s.pc.next <= |s.cached|)
    && |s.cached| <= CAP
  }

  ghost predicate InOrder(s: State) {
    History(s) && TakenItems(s.received, s.outcomes) == s.processed + InLoop(s)
  }

  // Own items are dropped and no others; a drop over the cap happens only behind exactly
  // CAP taken items, and never to an item received after the party was started.
  ghost predicate DropsJustified(s: State) {
    && History(s)
    && (forall k :: 0 <= k < |s.outcomes| ==>
          && (s.outcomes[k] == Own <==> s.received[k].fromIndex == s.setup.myIndex)
          && (s.outcomes[k] == OverCap ==> |TakenItems(s.received, s.outcomes[..k])| == CAP)
          && (s.outcomes[k] == OverCap && s.receivedAtStore.Some? ==> k < s.receivedAtStore.value))
  }

  ghost predicate Flags(s: State) {
    && (s.partyStarted <==> s.starter != Starting) && (s.partyStarted <==> s.receivedAtStore.Some?)
    && (s.token ==> s.starter == Notified)
    && (s.pc.TokenTaken? ==> s.starter == Notified)
    && (s.pc.Flush? ==> s.partyStarted)
    && (!s.partyStarted ==> s.processed == [])
    && (s.receivedAtStore.Some? ==> s.receivedAtStore.value <= |s.received|)
    // An item cached or about to be was received before the store.
    && (s.pc.Keep? && s.partyStarted ==> |s.received| <= s.receivedAtStore.value)
    // Nothing has been processed while an item loaded false is still to be cached.
    && (s.pc.Keep? ==> s.processed == [])
  }

  // No lost wake-up: as long as an item is cached or about to be, the handler has still to
  // notify, or a token is pending, or the loop is already on its way to the flush.
  ghost predicate WakeUpPending(s: State) {
    s.cached != [] || s.pc.Keep? ==> s.starter != Notified || s.token || s.pc.TokenTaken? || s.pc.Flush?
  }

  ghost predicate Inv(s: State) {
    InOrder(s) && DropsJustified(s) && Flags(s) && WakeUpPending(s)
  }

  lemma TakenExtends(items: seq<Item>, more: seq<Item>, outcomes: seq<Outcome>)
    requires |outcomes| <= |items|
    ensures TakenItems(items + more, outcomes) == TakenItems(items, outcomes)
  {
    if outcomes != [] {
      TakenExtends(items, more, outcomes[..|outcomes| - 1]);
    }
  }

  lemma TakenPrefixes(items: seq<Item>, more: seq<Item>, outcomes: seq<Outcome>, next: Outcome)
    requires |outcomes| < |items + more| && |outcomes| <= |items|
    ensures forall k :: 0 <= k <= |outcomes| ==>
      (outcomes + [next])[..k] == outcomes[..k]
      && TakenItems(items + more, outcomes[..k]) == TakenItems(items, outcomes[..k])
    ensures TakenItems(items + more, outcomes + [next])
            == TakenItems(items, outcomes) + (if next == Taken then [(items + more)[|outcomes|]] else [])
  {
    forall k | 0 <= k <= |outcomes|
      ensures (outcomes + [next])[..k] == outcomes[..k]
      ensures TakenItems(items + more, outcomes[..k]) == TakenItems(items, outcomes[..k])
    {
      TakenExtends(items, more, outcomes[..k]);
    }
    assert outcomes[..|outcomes|] == outcomes;
  }

  lemma ReceiveKeepsHistory(s: State)
    requires History(s) && s.pc == Select && s.recvCh != []
    ensures History(Receive(s))
  {
    assert s.received + s.recvCh == s.received + [s.recvCh[0]] + s.recvCh[1..];
  }

  lemma ReceiveKeepsOrder(s: State)
    requires InOrder(s) && s.pc == Select && s.recvCh != []
    ensures InOrder(Receive(s))
  {
    var item := s.recvCh[0];
    ReceiveKeepsHistory(s);
    if item.fromIndex == s.setup.myIndex {
      TakenPrefixes(s.received, [item], s.outcomes, Own);
    } else {
      TakenExtends(s.received, [item], s.outcomes);
    }
  }

  // The decided items stay justified while more are received.
  lemma DecidedStays(s: State, s': State, item: Item, k: nat)
    requires History(s) && DropsJustified(s) && k < |s.outcomes|
    requires s'.received == s.received + [item] && s.outcomes <= s'.outcomes
    ensures s'.outcomes[k] == s.outcomes[k] && s'.received[k] == s.received[k]
    ensures TakenItems(s'.received, s'.outcomes[..k]) == TakenItems(s.received, s.outcomes[..k])
  {
    assert s'.outcomes[..k] == s.outcomes[..k];
    TakenExtends(s.received, [item], s.outcomes[..k]);
  }

  lemma ReceiveKeepsDrops(s: State)
    requires History(s) && DropsJustified(s) && s.pc == Select && s.recvCh != [] && History(Receive(s))
    ensures DropsJustified(Receive(s))
  {
    var item, s' := s.recvCh[0], Receive(s);
    forall k | 0 <= k < |s.outcomes|
      ensures s'.outcomes[k] == s.outcomes[k] && s'.received[k] == s.received[k]
      ensures TakenItems(s'.received, s'.outcomes[..k]) == TakenItems(s.received, s.outcomes[..k])
    {
      DecidedStays(s, s', item, k);
    }
  }

  lemma ReceiveKeepsInv(s: State)
    requires Inv(s) && s.pc == Select
    ensures Inv(Receive(s))
  {
    if s.recvCh != [] {
      ReceiveKeepsOrder(s);
      ReceiveKeepsDrops(s);
    }
  }

  // Deciding the fate of the item at hand.
  lemma DecideKeepsDrops(s: State, s': State, outcome: Outcome)
    requires History(s) && DropsJustified(s) && (s.pc.Got? || s.pc.Keep?)
    requires History(s') && s'.received == s.received && s'.outcomes == s.outcomes + [outcome]
    requires s'.receivedAtStore == s.receivedAtStore && s'.setup == s.setup && outcome != Own
    requires outcome == OverCap ==>
      && |TakenItems(s.received, s.outcomes)| == CAP
      && (s.receivedAtStore.Some? ==> |s.outcomes| < s.receivedAtStore.value)
    ensures DropsJustified(s')
  {
    TakenPrefixes(s.received, [], s.outcomes, outcome);
    assert s.received + [] == s.received;
    assert s.outcomes[..|s.outcomes|] == s.outcomes;
    forall k | 0 <= k < |s.outcomes|
      ensures s'.outcomes[k] == s.outcomes[k] && s'.outcomes[..k] == s.outcomes[..k]
    {
    }
  }

  lemma GotKeepsOrder(s: State)
    requires InOrder(s) && s.pc.Got?
    ensures InOrder(Move(s))
  {
    TakenPrefixes(s.received, [], s.outcomes, Taken);
    assert s.received + [] == s.received;
    assert s.cached[0..] == s.cached;
  }

  lemma GotKeepsInv(s: State)
    requires Inv(s) && s.pc.Got?
    ensures Inv(Move(s))
  {
    GotKeepsOrder(s);
    if s.partyStarted { DecideKeepsDrops(s, Move(s), Taken); }
  }

  lemma KeepKeepsOrder(s: State)
    requires InOrder(s) && s.pc.Keep?
    ensures InOrder(Move(s))
  {
    TakenPrefixes(s.received, [], s.outcomes, if |s.cached| < CAP then Taken else OverCap);
    assert s.received + [] == s.received;
  }

  lemma KeepKeepsInv(s: State)
    requires Inv(s) && s.pc.Keep?
    ensures Inv(Move(s))
  {
    KeepKeepsOrder(s);
    assert InLoop(s) == s.cached;
    DecideKeepsDrops(s, Move(s), if |s.cached| < CAP then Taken else OverCap);
  }

  lemma FlushKeepsOrder(s: State)
    requires InOrder(s) && s.pc.Flush?
    ensures InOrder(Move(s))
  {
    var next := s.pc.next;
    if next < |s.cached| {
      assert s.processed + InLoop(s) == s.processed + [s.cached[next]] + s.cached[next + 1..] + Items(s.pc.trigger);
      assert s.processed + [s.cached[next]] + InLoop(Move(s)) == s.processed + InLoop(s);
    } else {
      assert s.processed + InLoop(s) == s.processed + Items(s.pc.trigger);
      assert Move(s).processed + InLoop(Move(s)) == s.processed + InLoop(s);
    }
  }

  lemma FlushKeepsInv(s: State)
    requires Inv(s) && s.pc.Flush?
    ensures Inv(Move(s))
  {
    FlushKeepsOrder(s);
  }

  lemma MoveKeepsInv(s: State)
    requires Inv(s)
    ensures Inv(Move(s))
  {
    match s.pc
    case Got(_) => GotKeepsInv(s);
    case Keep(_) => KeepKeepsInv(s);
    case Flush(_, _) => FlushKeepsInv(s);
    case _ => assert s.cached[0..] == s.cached;
  }

  lemma StepKeepsInv(s: State, a: Action)
    requires Inv(s)
    ensures Inv(Step(s, a))
  {
    match a
    case LoopReceives => if s.pc == Select { ReceiveKeepsInv(s); }
    case LoopMoves => MoveKeepsInv(s);
    case _ =>
  }

  lemma {:induction false} InvHolds(setup: Setup, acts: seq<Action>)
    ensures Inv(After(setup, acts))
  {
    if acts != [] {
      InvHolds(setup, acts[..|acts| - 1]);
      StepKeepsInv(After(setup, acts[..|acts| - 1]), acts[|acts| - 1]);
    }
  }

  // Whenever the loop waits with items cached, the handler has not notified yet or a
  // token is pending.
  lemma NoLostWakeUp(setup: Setup, acts: seq<Action>)
    requires var s := After(setup, acts); s.pc == Select && s.cached != []
    ensures var s := After(setup, acts); s.starter != Notified || s.token
  {
    InvHolds(setup, acts);
  }

  // The items processed so far, followed by those the loop holds, are the received items
  // less the node's own and those over the cap, in order; and what was received, followed
  // by what is still in the channel, is what was sent.
  lemma ProcessedInOrder(setup: Setup, acts: seq<Action>)
    ensures var s := After(setup, acts);
      && |s.outcomes| <= |s.received|
      && s.processed <= TakenItems(s.received, s.outcomes)
      && TakenItems(s.received, s.outcomes) == s.processed + InLoop(s)
      && s.received + s.recvCh == s.sent
  {
    InvHolds(setup, acts);
  }

  // An item is left out only if it is the node's own, or came before the party was started
  // and behind 1024 taken items.
  lemma OnlyOwnAndOverCapDropped(setup: Setup, acts: seq<Action>, k: nat)
    requires k < |After(setup, acts).outcomes| <= |After(setup, acts).received|
    ensures var s := After(setup, acts);
      && (s.outcomes[k] == Own <==> s.received[k].fromIndex == setup.myIndex)
      && (s.outcomes[k] == OverCap ==> |TakenItems(s.received, s.outcomes[..k])| == CAP)
      && (s.outcomes[k] == OverCap && s.receivedAtStore.Some? ==> k < s.receivedAtStore.value)
  {
    InvHolds(setup, acts);
    SetupStays(setup, acts);
  }

  lemma StepKeepsSetup(s: State, a: Action)
    ensures Step(s, a).setup == s.setup
  {
  }

  lemma {:induction false} SetupStays(setup: Setup, acts: seq<Action>)
    ensures After(setup, acts).setup == setup
  {
    if acts != [] {
      SetupStays(setup, acts[..|acts| - 1]);
      StepKeepsSetup(After(setup, acts[..|acts| - 1]), acts[|acts| - 1]);
    }
  }

  // Once the handler has notified and the loop has nothing left to do, every taken item
  // has been processed.
  lemma QuietMeansProcessed(setup: Setup, acts: seq<Action>)
    requires var s := After(setup, acts); s.starter == Notified && s.pc == Select && !s.token && s.recvCh == []
    ensures var s := After(setup, acts);
      |s.outcomes| == |s.received| && s.processed == TakenItems(s.received, s.outcomes) && s.received == s.sent
  {
    InvHolds(setup, acts);
  }

  // ---- processMessage: an item the party accepted is not handed over again ----

  // What the duplicate detection knows after these calls of processMessage.
  function SeenAfter(setup: Setup, items: seq<Item>): set<Item> {
    if items == [] then setup.seen
    else
      var n := |items| - 1;
      var seen := SeenAfter(setup, items[..n]);
      if items[n] !in seen && setup.accepts(n) then seen + {items[n]} else seen
  }

  predicate HandedOver(setup: Setup, items: seq<Item>, i: nat) {
    i < |items| && items[i] !in SeenAfter(setup, items[..i])
  }

  // The items among these calls that reach the party, in order.
  function HandedItems(setup: Setup, items: seq<Item>): seq<Item> {
    if items == [] then []
    else
      var n := |items| - 1;
      HandedItems(setup, items[..n]) + (if HandedOver(setup, items, n) then [items[n]] else [])
  }

  ghost predicate Deduplicated(s: State) {
    s.seen == SeenAfter(s.setup, s.processed) && s.handed == HandedItems(s.setup, s.processed)
  }

  lemma ProcessDeduplicates(s: State, item: Item)
    requires Deduplicated(s)
    ensures Deduplicated(Process(s, item))
  {
    assert (s.processed + [item])[..|s.processed|] == s.processed;
  }

  lemma MoveDeduplicates(s: State)
    requires Deduplicated(s)
    ensures Deduplicated(Move(s))
  {
    match s.pc
    case Flush(next, trigger) => FlushDeduplicates(s, next, trigger);
    case Got(_) =>
    case Keep(_) =>
    case TokenTaken =>
    case Select =>
    case Exited =>
  }

  lemma FlushDeduplicates(s: State, next: nat, trigger: Option<Item>)
    requires Deduplicated(s) && s.pc == Flush(next, trigger)
    ensures Deduplicated(Move(s))
  {
    if next < |s.cached| {
      ProcessDeduplicates(s, s.cached[next]);
    } else if trigger.Some? {
      ProcessDeduplicates(s, trigger.value);
    }
  }

  lemma StepDeduplicates(s: State, a: Action)
    requires Deduplicated(s)
    ensures Deduplicated(Step(s, a))
  {
    if a == LoopMoves { MoveDeduplicates(s); }
  }

  lemma {:induction false} DeduplicatedHolds(setup: Setup, acts: seq<Action>)
    ensures Deduplicated(After(setup, acts))
  {
    if acts != [] {
      DeduplicatedHolds(setup, acts[..|acts| - 1]);
      StepDeduplicates(After(setup, acts[..|acts| - 1]), acts[|acts| - 1]);
    }
  }

  // Of several equal items the first accepted one ends the handing over, a refused one may
  // be tried again, and one known from an earlier session is not handed over at all.
  lemma {:induction false} HandedOverUntilAccepted(setup: Setup, items: seq<Item>, j: nat)
    requires j < |items|
    ensures HandedOver(setup, items, j) <==>
      items[j] !in setup.seen && forall i: nat :: i < j && items[i] == items[j] ==> !setup.accepts(i)
  {
    SeenMeansAccepted(setup, items[..j], items[j]);
    forall i: nat | i < j ensures items[..j][i] == items[i] {
    }
    if items[j] !in setup.seen && !HandedOver(setup, items, j) {
      var i: nat :| i < j && items[..j][i] == items[j] && setup.accepts(i);
      assert items[i] == items[j];
    }
  }

  lemma {:induction false} SeenMeansAccepted(setup: Setup, items: seq<Item>, item: Item)
    ensures item in SeenAfter(setup, items) <==>
      item in setup.seen || exists i: nat :: i < |items| && items[i] == item && setup.accepts(i)
  {
    if items != [] {
      var n := |items| - 1;
      SeenMeansAccepted(setup, items[..n], item);
      if exists i: nat :: i < n && items[..n][i] == item && setup.accepts(i) {
        var i: nat :| i < n && items[..n][i] == item && setup.accepts(i);
        assert items[i] == item;
      }
      if exists i: nat :: i < |items| && items[i] == item && setup.accepts(i) {
        var i: nat :| i < |items| && items[i] == item && setup.accepts(i);
        if i < n { assert items[..n][i] == item; }
      }
    }
  }

  // In every run of the loop the party receives exactly those processed items that were not
  // known beforehand and that it has not accepted before, in the order of processing.
  lemma LoopHandsOver(setup: Setup, acts: seq<Action>)
    ensures var s := After(setup, acts);
      && s.handed == HandedItems(setup, s.processed)
      && forall j: nat :: j < |s.processed| ==>
           (HandedOver(setup, s.processed, j) <==>
              && s.processed[j] !in setup.seen
              && forall i: nat :: i < j && s.processed[i] == s.processed[j] ==> !setup.accepts(i))
  {
    var s := After(setup, acts);
    DeduplicatedHolds(setup, acts);
    SetupStays(setup, acts);
    forall j: nat | j < |s.processed|
      ensures HandedOver(setup, s.processed, j) <==>
        && s.processed[j] !in setup.seen
        && forall i: nat :: i < j && s.processed[i] == s.processed[j] ==> !setup.accepts(i)
    {
      HandedOverUntilAccepted(setup, s.processed, j);
    }
  }

  // ---- The loop body as the goroutine runs it, with no other thread in between ----

  // The loop's sections up to its next select.
  function Settle(s: State): State
    decreases Rank(s)
  {
    if s.pc.Select? || s.pc.Exited? then s else Settle(Move(s))
  }

  function Rank(s: State): nat {
    match s.pc
    case Select | Exited => 0
    case Keep(_) => 1
    case Flush(next, _) => if next < |s.cached| then |s.cached| - next + 1 else 1
    case Got(_) | TokenTaken => |s.cached| + 2
  }

  // Settling is a run of the loop's own steps.
  lemma {:induction false} SettleIsRun(setup: Setup, acts: seq<Action>) returns (more: seq<Action>)
    ensures After(setup, acts + more) == Settle(After(setup, acts))
    ensures forall i :: 0 <= i < |more| ==> more[i] == LoopMoves
    decreases Rank(After(setup, acts))
  {
    var s := After(setup, acts);
    if s.pc.Select? || s.pc.Exited? {
      more := [];
      assert acts + more == acts;
    } else {
      assert (acts + [LoopMoves])[..|acts|] == acts;
      var rest := SettleIsRun(setup, acts + [LoopMoves]);
      more := [LoopMoves] + rest;
      assert acts + more == acts + [LoopMoves] + rest;
    }
  }

  function ProcessAll(s: State, items: seq<Item>): State
    decreases |items|
  {
    if items == [] then s else ProcessAll(Process(s, items[0]), items[1..])
  }

  lemma {:induction false} ProcessAllKeepsPc(s: State, pc: LoopPc, items: seq<Item>)
    ensures ProcessAll(s.(pc := pc), items) == ProcessAll(s, items).(pc := pc)
    ensures ProcessAll(s, items).cached == s.cached
    decreases |items|
  {
    if items != [] { ProcessAllKeepsPc(Process(s, items[0]), pc, items[1..]); }
  }

  function Conclude(s: State, trigger: Option<Item>): State {
    (match trigger case Some(item) => Process(s, item) case None => s).(pc := Select, cached := [])
  }

  // A flush processes what is cached, in order, and then the message at hand.
  lemma {:induction false} SettleFlushes(s: State, i: nat)
    requires s.pc.Flush? && s.pc.next == i <= |s.cached|
    ensures Settle(s) == Conclude(ProcessAll(s, s.cached[i..]), s.pc.trigger)
    decreases |s.cached| - i
  {
    if i < |s.cached| {
      var m := Move(s);
      SettleFlushes(m, i + 1);
      assert s.cached[i..][1..] == s.cached[i + 1..];
      ProcessAllKeepsPc(Process(s, s.cached[i]), m.pc, s.cached[i + 1..]);
    }
  }

  class Delivery {
    const setup: Setup
    var recvCh: seq<Item>
    var partyStarted: bool
    var partyReady: bool          // the one-place channel holds a token
    var earlyMsgs: seq<Item>
    var seen: set<Item>
    var calls: nat                // of processMessage; the party's answers are told by their number
    ghost var handedOver: seq<Item>   // every call of the party's Receive, in order
    ghost var history: State          // this state among the loop's

    ghost predicate Valid()
      reads this
    {
      Tied() && Deduplicated(history) && history.pc == Select
    }

    // The fields are those of the machine's state.
    ghost predicate Tied()
      reads this
    {
      && history.setup == setup && history.recvCh == recvCh && history.cached == earlyMsgs && history.seen == seen
      && history.partyStarted == partyStarted && history.token == partyReady
      && |history.processed| == calls && history.handed == handedOver
    }

    constructor (setup: Setup)
      ensures Valid() && history == Init(setup)
    {
      this.setup := setup;
      recvCh, partyStarted, partyReady, earlyMsgs, seen, calls := [], false, false, [], setup.seen, 0;
      handedOver, history := [], Init(setup);
    }

    // partyStarted.Store(true), then notifyPartyReady.
    method StartParty()
      requires Valid() && history.starter == Starting
      modifies this
      ensures Valid() && history == Step(Step(old(history), StarterMoves), StarterMoves)
    {
      partyStarted := true;
      NotifyPartyReady();
      history := Step(Step(history, StarterMoves), StarterMoves);
    }

    method NotifyPartyReady()
      modifies `partyReady
      ensures partyReady
    {
      if !partyReady { partyReady := true; }
    }

    // processMessage: tests for a duplicate, hands the item over, and remembers it if accepted.
    method ProcessMessage(item: Item)
      requires Tied() && Deduplicated(history)
      modifies `seen, `calls, `handedOver, `history
      ensures Tied() && Deduplicated(history) && history.processed == old(history.processed) + [item]
      ensures history == Process(old(history), item)
      ensures handedOver == old(handedOver) + (if item in old(seen) then [] else [item])
    {
      ProcessDeduplicates(history, item);
      history := Process(history, item);
      var call := calls;
      calls := calls + 1;
      if item in seen { return; }
      handedOver := handedOver + [item];
      if setup.accepts(call) { seen := seen + {item}; }
    }

    method FlushEarly(trigger: Option<Item>)
      requires Tied() && Deduplicated(history)
      requires history.pc == match trigger case Some(item) => Got(item) case None => TokenTaken
      modifies this
      ensures Valid() && history == Settle(old(history))
    {
      if !partyStarted {
        CacheEarly(trigger);
      } else {
        history := Move(history);
        FlushCached(trigger);
      }
    }

    // The party has not started: the message waits, if there is room.
    method CacheEarly(trigger: Option<Item>)
      requires Tied() && Deduplicated(history) && !partyStarted
      requires history.pc == match trigger case Some(item) => Got(item) case None => TokenTaken
      modifies `earlyMsgs, `history
      ensures Valid() && history == Settle(old(history))
    {
      history := Move(history);
      if trigger.Some? {
        if |earlyMsgs| < CAP { earlyMsgs := earlyMsgs + [trigger.value]; }
        assert Settle(history) == Settle(old(history));
        history := Move(history);
      }
      assert Settle(history) == Settle(old(history));
    }

    // The loop over the messages that waited.
    method ProcessEarly()
      requires Tied() && Deduplicated(history)
      modifies `seen, `calls, `handedOver, `history
      ensures Tied() && Deduplicated(history) && history == ProcessAll(old(history), earlyMsgs)
    {
      var i := 0;
      assert earlyMsgs[0..] == earlyMsgs;
      while i < |earlyMsgs|
        invariant 0 <= i <= |earlyMsgs| && Tied() && Deduplicated(history)
        invariant ProcessAll(history, earlyMsgs[i..]) == ProcessAll(old(history), earlyMsgs)
      {
        assert earlyMsgs[i..][1..] == earlyMsgs[i + 1..];
        ProcessMessage(earlyMsgs[i]);
        i := i + 1;
      }
    }

    // The party has started: first the messages that waited, then the one at hand.
    method FlushCached(trigger: Option<Item>)
      requires Tied() && Deduplicated(history) && history.pc == Flush(0, trigger)
      modifies this
      ensures Valid() && history == Settle(old(history))
    {
      SettleFlushes(history, 0);
      assert history.cached[0..] == earlyMsgs;
      ProcessEarly();
      ConcludeFlush(trigger);
    }

    method ConcludeFlush(trigger: Option<Item>)
      requires Tied() && Deduplicated(history)
      modifies this
      ensures Valid() && history == Conclude(old(history), trigger)
    {
      earlyMsgs := [];
      history := history.(cached := []);
      if trigger.Some? { ProcessMessage(trigger.value); }
      history := history.(pc := Select);
    }

    // The select's receive branch: one message from the channel.
    method OnReceive()
      requires Valid() && recvCh != []
      modifies this
      ensures Valid() && history == Settle(Receive(old(history)))
    {
      var item := recvCh[0];
      history := Receive(history);
      recvCh := recvCh[1..];
      if item.fromIndex == setup.myIndex { return; }
      FlushEarly(Some(item));
    }

    // The select's wake-up branch.
    method OnPartyReady()
      requires Valid() && partyReady
      modifies this
      ensures Valid() && history == Settle(Step(old(history), LoopTakesToken))
    {
      history := Step(history, LoopTakesToken);
      partyReady := false;
      FlushEarly(None);
    }
  }
}
