/**
 The way of a message from its arrival to the protocol's handler: the buckets and the
 session's channel (`EarlyMessages`), the delivery loop (`DeliveryLoop`) and the inbox
 (`Inbox`) in one run.  A run keeps the list of what each part has done, so that each part
 goes through a run of its own machine; here it is shown that the parts fit together.
 */
module MessagePath {
  import opened Wrappers
  import EM = EarlyMessages
  import DL = DeliveryLoop
  import IB = Inbox
  import RecvChannel

  type Item = RecvChannel.Item

  // The session, and what the router does with the item of the j-th call of processMessage:
  // it delivers it to the inbox, or not (an index out of range, a partial public key).
  datatype Setup = Setup(
    flow: EM.Flow, sid: EM.SessionId, loop: DL.Setup, codec: IB.Codec,
    route: (nat, Item) -> Option<(string, string)>)

  // `via` tells which call of processMessage each delivery to the inbox comes from.
  datatype Path = Path(calls: seq<EM.Call>, acts: seq<DL.Action>, events: seq<IB.Event>, via: map<nat, nat>)

  datatype Move = Call(call: EM.Call) | Loop(act: DL.Action) | Party(event: IB.Event)

  const START := Path([], [], [], map[])

  function Early(u: Setup, p: Path): EM.State { EM.After(u.flow, p.calls) }

  function LoopOf(u: Setup, p: Path): DL.State { DL.After(u.loop, p.acts) }

  function InboxOf(u: Setup, p: Path): IB.State { IB.After(u.codec, p.events) }

  function Enqueues(items: seq<Item>): seq<DL.Action> {
    if items == [] then [] else Enqueues(items[..|items| - 1]) + [DL.Enqueue(items[|items| - 1])]
  }

  predicate Has(u: Setup, e: EM.State, key: string) {
    key in e.sessions && e.sessions[key] == u.sid && u.sid in e.channels
  }

  // What a call does to the session's channel.
  function Feeds(u: Setup, e: EM.State, call: EM.Call): seq<DL.Action> {
    match call
    case Deliver(key, item, _) =>
      if Has(u, e, key) && item.fromIndex != e.channels[u.sid].myIndex then [DL.Enqueue(item)] else []
    case Register(key, r, _, now) =>
      if r in e.channels then []
      else if r == u.sid then Enqueues(EM.Replay(u.flow, e.early, key, now))
      else if Has(u, e, key) then [DL.CloseCh] else []
    case Close(g) => if g == u.sid && g in e.channels then [DL.CloseCh] else []
    case _ => []
  }

  // The loop itself receives, and the session is registered under its own index.
  predicate Possible(u: Setup, call: EM.Call) {
    call != EM.Receive(u.sid) && (call.Register? && call.sid == u.sid ==> call.myIndex == u.loop.myIndex)
  }

  function Taking(u: Setup, l: DL.State, a: DL.Action): seq<EM.Call> {
    if Takes(l, a) then [EM.Receive(u.sid)] else []
  }

  // What the party's Receive passes on to the inbox when the loop makes this step.
  function Passed(u: Setup, l: DL.State, a: DL.Action): Option<(string, string)> {
    var m := DL.Step(l, a);
    if |m.handed| > |l.handed| then u.route(|l.processed|, m.handed[|m.handed| - 1]) else None
  }

  function Step(u: Setup, p: Path, m: Move): Path {
    match m
    case Call(call) =>
      if Possible(u, call) then p.(calls := p.calls + [call], acts := p.acts + Feeds(u, Early(u, p), call)) else p
    case Loop(a) =>
      if a.Enqueue? || a.CloseCh? then p
      else
        var l := LoopOf(u, p);
        var q := p.(calls := p.calls + Taking(u, l, a), acts := p.acts + [a]);
        (match Passed(u, l, a)
         case None => q
         case Some((sender, wire)) =>
           q.(events := p.events + [IB.Delivered(sender, wire)], via := p.via[|p.events| := |l.processed|]))
    case Party(event) => if event.Delivered? then p else p.(events := p.events + [event])
  }

  function After(u: Setup, moves: seq<Move>): Path {
    if moves == [] then START else Step(u, After(u, moves[..|moves| - 1]), moves[|moves| - 1])
  }

  // ---- The channel: what the buckets and callers put in is what the loop takes out ----

  ghost predicate Linked(u: Setup, e: EM.State, l: DL.State) {
    if u.sid in e.channels
    then e.channels[u.sid] == EM.Channel(u.loop.myIndex, l.recvCh, l.closed, l.sent)
    else l.recvCh == [] && l.sent == [] && !l.closed
  }

  lemma LoopThen(u: Setup, acts: seq<DL.Action>, a: DL.Action)
    ensures DL.After(u.loop, acts + [a]) == DL.Step(DL.After(u.loop, acts), a)
  {
    assert (acts + [a])[..|acts|] == acts;
  }

  lemma CallThen(u: Setup, calls: seq<EM.Call>, call: EM.Call)
    ensures EM.After(u.flow, calls + [call]) == EM.Do(u.flow, EM.After(u.flow, calls), call)
  {
    assert (calls + [call])[..|calls|] == calls;
  }

  function Filled(l: DL.State, items: seq<Item>): DL.State { l.(recvCh := items, sent := items) }

  lemma FillOne(l: DL.State, items: seq<Item>, item: Item)
    requires !l.closed && |items| < EM.CAP
    ensures DL.Step(Filled(l, items), DL.Enqueue(item)) == Filled(l, items + [item])
  {
  }

  lemma EnqueuesThen(u: Setup, acts: seq<DL.Action>, items: seq<Item>)
    requires items != []
    ensures var n := |items| - 1;
      DL.After(u.loop, acts + Enqueues(items))
      == DL.Step(DL.After(u.loop, acts + Enqueues(items[..n])), DL.Enqueue(items[n]))
  {
    var n := |items| - 1;
    assert acts + Enqueues(items) == acts + Enqueues(items[..n]) + [DL.Enqueue(items[n])];
    LoopThen(u, acts + Enqueues(items[..n]), DL.Enqueue(items[n]));
  }

  lemma FillNext(u: Setup, acts: seq<DL.Action>, l: DL.State, items: seq<Item>, n: nat)
    requires |items| == n + 1 <= EM.CAP && !l.closed
    requires DL.After(u.loop, acts + Enqueues(items[..n])) == Filled(l, items[..n])
    ensures DL.After(u.loop, acts + Enqueues(items)) == Filled(l, items)
  {
    EnqueuesThen(u, acts, items);
    FillOne(l, items[..n], items[n]);
    assert items[..n] + [items[n]] == items;
  }

  lemma {:induction false} EnqueuesFill(u: Setup, acts: seq<DL.Action>, l: DL.State, items: seq<Item>)
    requires l == DL.After(u.loop, acts) && l.recvCh == [] && l.sent == [] && !l.closed && |items| <= EM.CAP
    ensures DL.After(u.loop, acts + Enqueues(items)) == Filled(l, items)
    decreases |items|
  {
    if items == [] {
      assert acts + Enqueues(items) == acts;
      assert l == Filled(l, []);
    } else {
      EnqueuesFill(u, acts, l, items[..|items| - 1]);
      FillNext(u, acts, l, items, |items| - 1);
    }
  }

  // The loop after a call: only its channel changes.
  ghost predicate OnlyChannel(l: DL.State, m: DL.State) {
    m == l.(recvCh := m.recvCh, sent := m.sent, closed := m.closed)
  }

  lemma DeliverLinks(u: Setup, p: Path, key: string, item: Item, now: EM.Time)
    requires Linked(u, Early(u, p), LoopOf(u, p))
    ensures var c := EM.Deliver(key, item, now); var acts := p.acts + Feeds(u, Early(u, p), c);
      && Linked(u, EM.Do(u.flow, Early(u, p), c), DL.After(u.loop, acts))
      && OnlyChannel(LoopOf(u, p), DL.After(u.loop, acts))
  {
    LoopThen(u, p.acts, DL.Enqueue(item));
    assert p.acts + [] == p.acts;
  }

  lemma RegisterLinks(u: Setup, p: Path, key: string, r: EM.SessionId, myIndex: int, now: EM.Time)
    requires Linked(u, Early(u, p), LoopOf(u, p)) && (r == u.sid ==> myIndex == u.loop.myIndex)
    ensures var c := EM.Register(key, r, myIndex, now); var acts := p.acts + Feeds(u, Early(u, p), c);
      && Linked(u, EM.Do(u.flow, Early(u, p), c), DL.After(u.loop, acts))
      && OnlyChannel(LoopOf(u, p), DL.After(u.loop, acts))
  {
    var e := Early(u, p);
    EM.CapsHold(u.flow, p.calls);
    EM.ReplayNeverWaits(u.flow, p.calls, key, now);
    assert p.acts + [] == p.acts;
    if r !in e.channels {
      if r == u.sid {
        EnqueuesFill(u, p.acts, LoopOf(u, p), EM.Replay(u.flow, e.early, key, now));
      } else if Has(u, e, key) {
        LoopThen(u, p.acts, DL.CloseCh);
      }
    }
  }

  lemma CloseLinks(u: Setup, p: Path, g: EM.SessionId)
    requires Linked(u, Early(u, p), LoopOf(u, p))
    ensures var c := EM.Close(g); var acts := p.acts + Feeds(u, Early(u, p), c);
      && Linked(u, EM.Do(u.flow, Early(u, p), c), DL.After(u.loop, acts))
      && OnlyChannel(LoopOf(u, p), DL.After(u.loop, acts))
  {
    assert p.acts + [] == p.acts;
    LoopThen(u, p.acts, DL.CloseCh);
  }

  lemma CallLinks(u: Setup, p: Path, call: EM.Call)
    requires Linked(u, Early(u, p), LoopOf(u, p)) && Possible(u, call)
    ensures var q := Step(u, p, Call(call));
      Linked(u, Early(u, q), LoopOf(u, q)) && OnlyChannel(LoopOf(u, p), LoopOf(u, q))
  {
    CallThen(u, p.calls, call);
    match call
    case Deliver(key, item, now) => DeliverLinks(u, p, key, item, now);
    case Register(key, r, myIndex, now) => RegisterLinks(u, p, key, r, myIndex, now);
    case Close(g) => CloseLinks(u, p, g);
    case _ => assert p.acts + [] == p.acts;
  }

  predicate Takes(l: DL.State, a: DL.Action) { a == DL.LoopReceives && l.pc == DL.Select && l.recvCh != [] }

  // What a step of the loop does to the channel.
  ghost predicate Drains(l: DL.State, m: DL.State, takes: bool) {
    && m.sent == l.sent && m.closed == l.closed && (takes ==> l.recvCh != [])
    && m.recvCh == if takes then l.recvCh[1..] else l.recvCh
  }

  lemma MoveDrains(l: DL.State)
    ensures Drains(l, DL.Move(l), false)
  {
    match l.pc
    case Got(_) =>
    case Keep(_) =>
    case TokenTaken =>
    case Flush(_, _) =>
    case Select =>
    case Exited =>
  }

  lemma StepDrains(l: DL.State, a: DL.Action)
    requires !a.Enqueue? && !a.CloseCh?
    ensures Drains(l, DL.Step(l, a), Takes(l, a))
  {
    match a
    case LoopMoves => MoveDrains(l);
    case LoopReceives =>
    case LoopTakesToken =>
    case StarterMoves =>
  }

  lemma DrainsLinked(u: Setup, e: EM.State, l: DL.State, m: DL.State, takes: bool)
    requires Linked(u, e, l) && Drains(l, m, takes)
    ensures Linked(u, if takes then EM.Do(u.flow, e, EM.Receive(u.sid)) else e, m)
  {
  }

  lemma LoopStepIs(u: Setup, p: Path, a: DL.Action)
    requires !a.Enqueue? && !a.CloseCh?
    ensures Step(u, p, Loop(a)).acts == p.acts + [a]
    ensures Step(u, p, Loop(a)).calls == p.calls + Taking(u, LoopOf(u, p), a)
  {
    match Passed(u, LoopOf(u, p), a)
    case None =>
    case Some((sender, wire)) =>
  }

  lemma TakingThen(u: Setup, calls: seq<EM.Call>, l: DL.State, a: DL.Action)
    ensures EM.After(u.flow, calls + Taking(u, l, a)) ==
      if Takes(l, a) then EM.Do(u.flow, EM.After(u.flow, calls), EM.Receive(u.sid)) else EM.After(u.flow, calls)
  {
    if Takes(l, a) { CallThen(u, calls, EM.Receive(u.sid)); } else { assert calls + [] == calls; }
  }

  lemma LoopLinks(u: Setup, p: Path, a: DL.Action)
    requires Linked(u, Early(u, p), LoopOf(u, p)) && !a.Enqueue? && !a.CloseCh?
    ensures var q := Step(u, p, Loop(a));
      Linked(u, Early(u, q), LoopOf(u, q)) && LoopOf(u, q) == DL.Step(LoopOf(u, p), a)
  {
    var l := LoopOf(u, p);
    LoopStepIs(u, p, a);
    LoopThen(u, p.acts, a);
    TakingThen(u, p.calls, l, a);
    StepDrains(l, a);
    DrainsLinked(u, Early(u, p), l, DL.Step(l, a), Takes(l, a));
  }

  // ---- The inbox: what the loop hands over is what is delivered there ----

  ghost predicate Deliveries(u: Setup, l: DL.State, events: seq<IB.Event>, via: map<nat, nat>) {
    && (forall t: nat :: t in via <==> IB.IsDelivery(events, t))
    && (forall t: nat :: t in via ==> FromCall(u, l, events, t, via[t]))
    && (forall t: nat, v: nat :: t in via && v in via && t < v ==> via[t] < via[v])
    && (forall j: nat :: PassedOn(u, l, j) ==> exists t: nat :: t in via && via[t] == j)
  }

  // The j-th call of processMessage handed its item over, and the router passed it on.
  ghost predicate PassedOn(u: Setup, l: DL.State, j: nat) {
    && j < |l.processed| && DL.HandedOver(u.loop, l.processed, j)
    && u.route(j, l.processed[j]).Some?
  }

  ghost predicate FromCall(u: Setup, l: DL.State, events: seq<IB.Event>, t: nat, j: nat)
    requires IB.IsDelivery(events, t)
  {
    PassedOn(u, l, j) && u.route(j, l.processed[j]) == Some((events[t].sender, events[t].wire))
  }

  ghost predicate Processes(l: DL.State, m: DL.State, item: Item) {
    m.processed == l.processed + [item] && m.handed == if item in l.seen then l.handed else l.handed + [item]
  }

  lemma ProcessedStep(l: DL.State, a: DL.Action) returns (item: Option<Item>)
    ensures var m := DL.Step(l, a);
      match item
      case None => m.processed == l.processed && m.handed == l.handed
      case Some(x) => Processes(l, m, x)
  {
    item := None;
    if a == DL.LoopMoves && l.pc.Flush? {
      item := if l.pc.next < |l.cached| then Some(l.cached[l.pc.next]) else l.pc.trigger;
    }
  }

  lemma HandedStays(u: Setup, items: seq<Item>, item: Item)
    ensures forall j: nat :: j < |items| ==>
      (DL.HandedOver(u.loop, items + [item], j) <==> DL.HandedOver(u.loop, items, j))
    ensures DL.HandedOver(u.loop, items + [item], |items|) <==> item !in DL.SeenAfter(u.loop, items)
  {
    assert (items + [item])[..|items|] == items;
    forall j: nat | j < |items| ensures (items + [item])[..j] == items[..j] {
    }
  }

  // Calls that are not about processing leave the deliveries as they are.
  lemma SameProcessed(u: Setup, l: DL.State, m: DL.State, events: seq<IB.Event>, via: map<nat, nat>)
    requires Deliveries(u, l, events, via) && m.processed == l.processed
    ensures Deliveries(u, m, events, via)
  {
    forall t: nat | t in via ensures FromCall(u, m, events, t, via[t]) {
      assert FromCall(u, l, events, t, via[t]);
    }
    forall j: nat | PassedOn(u, m, j) ensures exists t: nat :: t in via && via[t] == j {
      assert PassedOn(u, l, j);
    }
  }

  lemma PassedStays(u: Setup, l: DL.State, m: DL.State, item: Item, j: nat)
    requires Processes(l, m, item) && j < |l.processed|
    ensures PassedOn(u, m, j) <==> PassedOn(u, l, j)
    ensures m.processed[j] == l.processed[j]
  {
    HandedStays(u, l.processed, item);
  }

  // A processed item that goes no further.
  lemma ProcessesQuietly(u: Setup, l: DL.State, m: DL.State, item: Item, events: seq<IB.Event>, via: map<nat, nat>)
    requires Deliveries(u, l, events, via) && Processes(l, m, item) && !PassedOn(u, m, |l.processed|)
    ensures Deliveries(u, m, events, via)
  {
    forall t: nat | t in via ensures FromCall(u, m, events, t, via[t]) {
      assert FromCall(u, l, events, t, via[t]);
      PassedStays(u, l, m, item, via[t]);
    }
    forall j: nat | PassedOn(u, m, j) ensures exists t: nat :: t in via && via[t] == j {
      PassedStays(u, l, m, item, j);
    }
  }

  // A processed item that is delivered to the inbox.
  lemma ProcessesAndDelivers(u: Setup, l: DL.State, m: DL.State, item: Item,
                             events: seq<IB.Event>, via: map<nat, nat>, sender: string, wire: string)
    requires Deliveries(u, l, events, via) && Processes(l, m, item) && PassedOn(u, m, |l.processed|)
    requires u.route(|l.processed|, item) == Some((sender, wire))
    ensures Deliveries(u, m, events + [IB.Delivered(sender, wire)], via[|events| := |l.processed|])
  {
    var events', via' := events + [IB.Delivered(sender, wire)], via[|events| := |l.processed|];
    forall t: nat ensures t in via' <==> IB.IsDelivery(events', t) {
      assert t in via <==> IB.IsDelivery(events, t);
    }
    forall t: nat | t in via' ensures FromCall(u, m, events', t, via'[t]) {
      if t < |events| {
        assert FromCall(u, l, events, t, via[t]);
        PassedStays(u, l, m, item, via[t]);
      }
    }
    forall j: nat | PassedOn(u, m, j) ensures exists t: nat :: t in via' && via'[t] == j {
      if j < |l.processed| {
        PassedStays(u, l, m, item, j);
        var t: nat :| t in via && via[t] == j;
        assert IB.IsDelivery(events, t);
        assert via'[t] == j;
      } else {
        assert via'[|events|] == j;
      }
    }
    forall t: nat, v: nat | t in via' && v in via' && t < v ensures via'[t] < via'[v] {
      assert FromCall(u, l, events, t, via[t]);
    }
  }

  lemma LoopDelivers(u: Setup, p: Path, a: DL.Action)
    requires Deliveries(u, LoopOf(u, p), p.events, p.via) && !a.Enqueue? && !a.CloseCh?
    requires LoopOf(u, Step(u, p, Loop(a))) == DL.Step(LoopOf(u, p), a)
    ensures var q := Step(u, p, Loop(a)); Deliveries(u, LoopOf(u, q), q.events, q.via)
  {
    var l := LoopOf(u, p);
    var m := DL.Step(l, a);
    var item := ProcessedStep(l, a);
    DL.DeduplicatedHolds(u.loop, p.acts);
    DL.SetupStays(u.loop, p.acts);
    match item
    case None => SameProcessed(u, l, m, p.events, p.via);
    case Some(x) =>
      HandedStays(u, l.processed, x);
      match Passed(u, l, a)
      case None => ProcessesQuietly(u, l, m, x, p.events, p.via);
      case Some((sender, wire)) => ProcessesAndDelivers(u, l, m, x, p.events, p.via, sender, wire);
  }

  lemma PartyDelivers(u: Setup, l: DL.State, events: seq<IB.Event>, via: map<nat, nat>, event: IB.Event)
    requires Deliveries(u, l, events, via) && !event.Delivered?
    ensures Deliveries(u, l, events + [event], via)
  {
    var events' := events + [event];
    forall t: nat ensures t in via <==> IB.IsDelivery(events', t) {
      assert t in via <==> IB.IsDelivery(events, t);
    }
    forall t: nat | t in via ensures FromCall(u, l, events', t, via[t]) {
      assert FromCall(u, l, events, t, via[t]);
    }
  }

  ghost predicate Joined(u: Setup, p: Path) {
    Linked(u, Early(u, p), LoopOf(u, p)) && Deliveries(u, LoopOf(u, p), p.events, p.via)
  }

  lemma StepJoins(u: Setup, p: Path, m: Move)
    requires Joined(u, p)
    ensures Joined(u, Step(u, p, m))
  {
    match m
    case Call(call) =>
      if Possible(u, call) {
        CallLinks(u, p, call);
        SameProcessed(u, LoopOf(u, p), LoopOf(u, Step(u, p, m)), p.events, p.via);
      }
    case Loop(a) =>
      if !a.Enqueue? && !a.CloseCh? {
        LoopLinks(u, p, a);
        LoopDelivers(u, p, a);
      }
    case Party(event) => if !event.Delivered? { PartyDelivers(u, LoopOf(u, p), p.events, p.via, event); }
  }

  // In every joint run the session's channel is the one the loop receives from, holding,
  // open and sent the same, and the inbox's deliveries are, in order, the items the loop
  // handed over and the router passed on.
  lemma {:induction false} PartsJoin(u: Setup, moves: seq<Move>)
    ensures Joined(u, After(u, moves))
  {
    if moves != [] {
      PartsJoin(u, moves[..|moves| - 1]);
      StepJoins(u, After(u, moves[..|moves| - 1]), moves[|moves| - 1]);
    }
  }

  // ---- From the channel to the handler ----

  // The positions of the received items that are neither the node's own nor over the cap.
  function TakenAt(outcomes: seq<DL.Outcome>): seq<nat> {
    if outcomes == [] then []
    else
      var n := |outcomes| - 1;
      TakenAt(outcomes[..n]) + (if outcomes[n] == DL.Taken then [n] else [])
  }

  lemma {:induction false} TakenAtPositions(items: seq<Item>, outcomes: seq<DL.Outcome>)
    requires |outcomes| <= |items|
    ensures |TakenAt(outcomes)| == |DL.TakenItems(items, outcomes)|
    ensures forall k :: 0 <= k < |TakenAt(outcomes)| ==>
      && TakenAt(outcomes)[k] < |outcomes| && outcomes[TakenAt(outcomes)[k]] == DL.Taken
      && DL.TakenItems(items, outcomes)[k] == items[TakenAt(outcomes)[k]]
    ensures forall k, l :: 0 <= k < l < |TakenAt(outcomes)| ==> TakenAt(outcomes)[k] < TakenAt(outcomes)[l]
    ensures forall i :: 0 <= i < |outcomes| && outcomes[i] == DL.Taken ==> i in TakenAt(outcomes)
  {
    if outcomes != [] {
      var n := |outcomes| - 1;
      TakenAtPositions(items, outcomes[..n]);
      forall i | 0 <= i < |outcomes| && outcomes[i] == DL.Taken ensures i in TakenAt(outcomes) {
        if i < n {
          assert outcomes[..n][i] == DL.Taken;
          assert i in TakenAt(outcomes[..n]);
        }
      }
    }
  }

  // The delivery t to the inbox comes from the i-th message put into the channel.
  ghost predicate ComesFrom(u: Setup, p: Path, t: nat, i: nat) {
    var at := TakenAt(LoopOf(u, p).outcomes); t in p.via && p.via[t] < |at| && at[p.via[t]] == i
  }

  // What the j-th call of processMessage was called with.
  lemma ProcessedAt(u: Setup, p: Path)
    ensures var l := LoopOf(u, p); var at := TakenAt(l.outcomes);
      && |l.processed| <= |at|
      && (forall j :: 0 <= j < |l.processed| ==> at[j] < |l.sent| && l.processed[j] == l.sent[at[j]])
      && (forall j :: 0 <= j < |at| ==> at[j] < |l.outcomes| && l.outcomes[at[j]] == DL.Taken)
      && (forall j, k :: 0 <= j < k < |at| ==> at[j] < at[k])
      && (forall i :: 0 <= i < |l.outcomes| && l.outcomes[i] == DL.Taken ==> i in at)
  {
    var l := LoopOf(u, p);
    DL.ProcessedInOrder(u.loop, p.acts);
    TakenAtPositions(l.received, l.outcomes);
    forall j | 0 <= j < |l.processed|
      ensures TakenAt(l.outcomes)[j] < |l.sent| && l.processed[j] == l.sent[TakenAt(l.outcomes)[j]]
    {
      assert l.processed[j] == DL.TakenItems(l.received, l.outcomes)[j];
    }
  }

  lemma OriginOf(u: Setup, moves: seq<Move>, t: nat) returns (i: nat)
    requires IB.IsDelivery(After(u, moves).events, t)
    ensures var p := After(u, moves);
      && ComesFrom(u, p, t, i) && i < |LoopOf(u, p).sent|
      && u.route(p.via[t], LoopOf(u, p).sent[i]) == Some((p.events[t].sender, p.events[t].wire))
  {
    var p := After(u, moves);
    PartsJoin(u, moves);
    ProcessedAt(u, p);
    assert t in p.via && FromCall(u, LoopOf(u, p), p.events, t, p.via[t]);
    i := TakenAt(LoopOf(u, p).outcomes)[p.via[t]];
  }

  // Every call of the handler is for a message that was put into the channel, as routed; and
  // later calls are for later messages, so none reaches the handler twice.
  lemma HandlerCallsInOrder(u: Setup, moves: seq<Move>, k: nat)
      returns (i: nat)
    requires k < |InboxOf(u, After(u, moves)).handled|
    ensures var p := After(u, moves); var t := InboxOf(u, p).handled[k];
      && ComesFrom(u, p, t, i) && i < |LoopOf(u, p).sent| && IB.IsDelivery(p.events, t)
      && u.route(p.via[t], LoopOf(u, p).sent[i]) == Some((p.events[t].sender, p.events[t].wire))
    ensures var p := After(u, moves); var handled := InboxOf(u, p).handled;
      forall m, j: nat :: k < m < |handled| && ComesFrom(u, p, handled[m], j) ==> i < j
  {
    var p := After(u, moves);
    var s := InboxOf(u, p);
    IB.InboxConservation(u.codec, p.events);
    assert s.handled[k] in IB.HandledTags(s) && s.handled[k] in IB.Accounted(s);
    i := OriginOf(u, moves, s.handled[k]);
    PartsJoin(u, moves);
    ProcessedAt(u, p);
    forall m, j: nat | k < m < |s.handled| && ComesFrom(u, p, s.handled[m], j) ensures i < j {
      assert p.via[s.handled[k]] < p.via[s.handled[m]];
    }
  }

  // ---- Every message has one end ----

  ghost predicate Quiet(l: DL.State) { l.starter == DL.Notified && l.pc == DL.Select && !l.token && l.recvCh == [] }

  // The handler was called with it.
  ghost predicate Reaches(u: Setup, p: Path, i: nat) {
    var s := InboxOf(u, p); exists k :: 0 <= k < |s.handled| && ComesFrom(u, p, s.handled[k], i)
  }

  // The loop left it out (its own, or over the cap), or it was known or accepted before, or
  // the router passed it on to nobody or elsewhere.
  ghost predicate StopsBefore(u: Setup, p: Path, i: nat) {
    var l := LoopOf(u, p);
    || (i < |l.outcomes| && l.outcomes[i] != DL.Taken)
    || exists j: nat :: j < |TakenAt(l.outcomes)| && TakenAt(l.outcomes)[j] == i && !PassedOn(u, l, j)
  }

  // It waits in the inbox, or was refused, filtered out, dropped, or skipped as repeated there.
  ghost predicate StopsInInbox(u: Setup, p: Path, i: nat) {
    var s := InboxOf(u, p);
    exists t: nat :: ComesFrom(u, p, t, i)
      && t in IB.Tags(s.pending) + s.filtered + s.repeated + s.dropped + s.refused
  }

  lemma OneDelivery(u: Setup, p: Path, t: nat, v: nat, i: nat)
    requires Joined(u, p) && ComesFrom(u, p, t, i) && ComesFrom(u, p, v, i)
    ensures t == v
  {
    ProcessedAt(u, p);
    assert p.via[t] == p.via[v];
  }

  lemma NotTakenStops(u: Setup, p: Path, i: nat)
    requires i < |LoopOf(u, p).outcomes| && LoopOf(u, p).outcomes[i] != DL.Taken
    ensures StopsBefore(u, p, i) && !Reaches(u, p, i) && !StopsInInbox(u, p, i)
  {
    ProcessedAt(u, p);
  }

  lemma NotPassedStops(u: Setup, p: Path, i: nat, j: nat)
    requires Joined(u, p) && j < |TakenAt(LoopOf(u, p).outcomes)| && TakenAt(LoopOf(u, p).outcomes)[j] == i
    requires !PassedOn(u, LoopOf(u, p), j)
    ensures StopsBefore(u, p, i) && !Reaches(u, p, i) && !StopsInInbox(u, p, i)
  {
    ProcessedAt(u, p);
    forall t: nat | t in p.via ensures p.via[t] != j {
      assert FromCall(u, LoopOf(u, p), p.events, t, p.via[t]);
    }
    forall t: nat ensures !ComesFrom(u, p, t, i) {
    }
  }

  lemma PassedReaches(u: Setup, p: Path, i: nat, j: nat)
    requires Joined(u, p) && j < |TakenAt(LoopOf(u, p).outcomes)| && TakenAt(LoopOf(u, p).outcomes)[j] == i
    requires PassedOn(u, LoopOf(u, p), j)
    ensures !StopsBefore(u, p, i) && (Reaches(u, p, i) <==> !StopsInInbox(u, p, i))
  {
    var s := InboxOf(u, p);
    ProcessedAt(u, p);
    IB.InboxConservation(u.codec, p.events);
    var t: nat :| t in p.via && p.via[t] == j;
    assert ComesFrom(u, p, t, i) && IB.IsDelivery(p.events, t);
    forall v: nat | ComesFrom(u, p, v, i) ensures v == t {
      OneDelivery(u, p, v, t, i);
    }
    assert t in IB.Accounted(s);
    forall k | 0 <= k < |s.handled| ensures s.handled[k] in IB.HandledTags(s) {
    }
  }

  // Once the loop has nothing left to do, every message put into the channel has exactly one
  // end: it stopped before the inbox, or in it, or the handler was called with it (and, by
  // HandlerCallsInOrder, once and in order).
  lemma EveryMessageHasOneEnd(u: Setup, moves: seq<Move>, i: nat)
    requires var p := After(u, moves); Quiet(LoopOf(u, p)) && i < |LoopOf(u, p).sent|
    ensures var p := After(u, moves);
      && (Reaches(u, p, i) <==> !StopsBefore(u, p, i) && !StopsInInbox(u, p, i))
      && !(StopsBefore(u, p, i) && StopsInInbox(u, p, i))
  {
    var p := After(u, moves);
    PartsJoin(u, moves);
    ProcessedAt(u, p);
    DL.QuietMeansProcessed(u.loop, p.acts);
    if LoopOf(u, p).outcomes[i] != DL.Taken {
      NotTakenStops(u, p, i);
    } else {
      var at := TakenAt(LoopOf(u, p).outcomes);
      var j :| 0 <= j < |at| && at[j] == i;
      if PassedOn(u, LoopOf(u, p), j) { PassedReaches(u, p, i, j); } else { NotPassedStops(u, p, i, j); }
    }
  }

  // The parts are held back by nothing: in a joint run the buckets and sessions may make any
  // call, the loop any step of its own, and the party may set or clear the inbox's handler or
  // expectation at any time, each with the effect it has alone.
  lemma PartsMoveFreely(u: Setup, p: Path, m: Move)
    ensures m.Call? && m.call != EM.Receive(u.sid)
            && (m.call.Register? && m.call.sid == u.sid ==> m.call.myIndex == u.loop.myIndex) ==>
      Early(u, Step(u, p, m)) == EM.Do(u.flow, Early(u, p), m.call)
    ensures m.Loop? && !m.act.Enqueue? && !m.act.CloseCh? ==>
      LoopOf(u, Step(u, p, m)) == DL.Step(LoopOf(u, p), m.act)
    ensures m.Party? && !m.event.Delivered? ==>
      InboxOf(u, Step(u, p, m)) == IB.Do(u.codec, InboxOf(u, p), |p.events|, m.event)
  {
    match m
    case Call(call) => CallThen(u, p.calls, call);
    case Loop(a) => LoopThen(u, p.acts, a);
    case Party(event) => assert (p.events + [event])[..|p.events|] == p.events;
  }

  // In particular a message that waited in a bucket, unexpired, when the session registered:
  // it is the one at its place in the channel.
  lemma CachedReachesHandler(u: Setup, moves: seq<Move>, c: nat, r: nat, key: string)
    requires var calls := After(u, moves).calls;
      && EM.ClockInOrder(calls) && EM.Caches(u.flow, calls, c, key) && EM.StillWaits(u.flow, calls, c, r, key)
      && r < |calls| && calls[r].Register? && calls[r].key == key && calls[r].sid == u.sid
      && EM.Ends(u.flow, calls, r, key) && calls[r].at - EM.Since(u.flow, calls, c, key) <= u.flow.ttl
    requires Quiet(LoopOf(u, After(u, moves)))
    ensures var p := After(u, moves); var i := EM.Place(u.flow, p.calls, c, key);
      && i < |LoopOf(u, p).sent| && LoopOf(u, p).sent[i] == p.calls[c].item
      && (Reaches(u, p, i) <==> !StopsBefore(u, p, i) && !StopsInInbox(u, p, i))
  {
    var p := After(u, moves);
    PartsJoin(u, moves);
    EM.CachedIsReplayed(u.flow, p.calls, c, r, key);
    EveryMessageHasOneEnd(u, moves, EM.Place(u.flow, p.calls, c, key));
  }
}
