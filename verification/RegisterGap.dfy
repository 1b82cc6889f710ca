/**
 Delivering and registering for one key, at the grain of their lock sections: a delivery
 looks the session up and, in a later section, sends to it or, having found none, appends
 to the bucket; a registration takes the bucket, writes the session map in a later section,
 and then replays item by item.  It is shown exactly which messages the gaps lose, when the
 replay stays ahead, and when deliveries keep their order; lifetimes, caps and closing,
 which `EarlyMessages` and `RecvChannel` have, are left aside here.
 Messages are numbered in the order of their lookups.
 */
module RegisterGap {
  import opened Sequences

  type Message = nat

  datatype RegisterPc = Unregistered | BucketTaken | Registered(replayed: nat)

  datatype State = State(
    next: Message,                // the number of the next delivery
    missed: set<Message>,         // looked up without a session, not yet appended
    found: set<Message>,          // looked up with the session, not yet sent
    bucket: seq<Message>,
    pc: RegisterPc,
    taken: seq<Message>,          // what the registration took from the bucket
    sent: seq<Message>,           // put into the session's channel
    // history
    direct: set<Message>,         // looked up once the session was in the map
    late: set<Message>)           // appended after the bucket was taken

  const INIT: State := State(0, {}, {}, [], Unregistered, [], [], {}, {})

  datatype Action = LookUp | Append(message: Message) | Send(message: Message) | TakeBucket | WriteMap | ReplayNext

  function Step(s: State, a: Action): State {
    match a
    case LookUp =>
      if s.pc.Registered?
      then s.(next := s.next + 1, found := s.found + {s.next}, direct := s.direct + {s.next})
      else s.(next := s.next + 1, missed := s.missed + {s.next})
    case Append(m) =>
      if m !in s.missed then s
      else s.(missed := s.missed - {m}, bucket := s.bucket + [m],
              late := if s.pc == Unregistered then s.late else s.late + {m})
    case Send(m) => if m !in s.found then s else s.(found := s.found - {m}, sent := s.sent + [m])
    case TakeBucket =>
      if s.pc == Unregistered then s.(pc := BucketTaken, taken := s.bucket, bucket := []) else s
    case WriteMap => if s.pc == BucketTaken then s.(pc := Registered(0)) else s
    case ReplayNext =>
      if Replaying(s)
      then s.(pc := Registered(s.pc.replayed + 1), sent := s.sent + [s.taken[s.pc.replayed]])
      else s
  }

  // The session is in the map and part of the bucket is still to be replayed.
  predicate Replaying(s: State) { s.pc.Registered? && s.pc.replayed < |s.taken| }

  function After(acts: seq<Action>): State {
    if acts == [] then INIT else Step(After(acts[..|acts| - 1]), acts[|acts| - 1])
  }

  function Replayed(s: State): seq<Message> {
    if s.pc.Registered? && s.pc.replayed <= |s.taken| then s.taken[..s.pc.replayed] else []
  }

  // The messages of a list that are in a set, in order.
  function Only(list: seq<Message>, chosen: set<Message>): seq<Message> {
    if list == [] then []
    else
      var n := |list| - 1;
      Only(list[..n], chosen) + (if list[n] in chosen then [list[n]] else [])
  }

  // Every delivery is in one place: waiting to be appended, in the bucket, taken, or direct;
  // what is in the bucket after it was taken came late.
  ghost predicate Places(s: State) {
    && Distinct(s.bucket) && Distinct(s.taken)
    && (forall m: Message :: m in s.missed || m in s.bucket || m in s.taken || m in s.direct <==> m < s.next)
    && (forall m: Message :: m in s.missed ==> m !in s.bucket && m !in s.taken && m !in s.direct)
    && (forall m: Message :: m in s.bucket ==> m !in s.taken && m !in s.direct)
    && (forall m: Message :: m in s.taken ==> m !in s.direct)
    && (s.pc == Unregistered ==> s.taken == [] && s.late == {})
    && (s.pc != Unregistered ==> forall m: Message :: m in s.late <==> m in s.bucket)
  }

  ghost predicate Sending(s: State) {
    && (s.pc.Registered? ==> s.pc.replayed <= |s.taken|)
    && (!s.pc.Registered? ==> s.sent == [] && s.direct == {})
    && s.found <= s.direct
    && (forall m: Message :: m in s.sent <==> m in Replayed(s) || (m in s.direct && m !in s.found))
    && Distinct(s.sent)
  }

  ghost predicate Ordered(s: State) { Only(s.sent, set m | m in s.taken) == Replayed(s) }

  ghost predicate Inv(s: State) { Places(s) && Sending(s) && Ordered(s) }

  lemma {:induction false} OnlyIn(list: seq<Message>, chosen: set<Message>)
    ensures forall m: Message :: m in Only(list, chosen) <==> m in list && m in chosen
  {
    if list != [] { OnlyIn(list[..|list| - 1], chosen); }
  }

  lemma OnlyAppends(list: seq<Message>, m: Message, chosen: set<Message>)
    ensures Only(list + [m], chosen) == Only(list, chosen) + (if m in chosen then [m] else [])
  {
    assert (list + [m])[..|list|] == list;
  }

  lemma SendKeepsInv(s: State, m: Message)
    requires Inv(s)
    ensures Inv(Step(s, Send(m)))
  {
    if m in s.found { OnlyAppends(s.sent, m, set m | m in s.taken); }
  }

  lemma NextIsNew(s: State)
    requires Inv(s) && Replaying(s)
    ensures s.taken[s.pc.replayed] !in s.sent && s.taken[s.pc.replayed] !in s.direct
    ensures s.taken[..s.pc.replayed + 1] == s.taken[..s.pc.replayed] + [s.taken[s.pc.replayed]]
  {
    var m := s.taken[s.pc.replayed];
    assert m in s.taken;
    assert m !in s.taken[..s.pc.replayed];
  }

  lemma ReplayKeepsInv(s: State)
    requires Inv(s)
    ensures Inv(Step(s, ReplayNext))
  {
    if Replaying(s) {
      NextIsNew(s);
      OnlyAppends(s.sent, s.taken[s.pc.replayed], set m | m in s.taken);
    }
  }

  lemma StepKeepsInv(s: State, a: Action)
    requires Inv(s)
    ensures Inv(Step(s, a))
  {
    match a
    case Send(m) => SendKeepsInv(s, m);
    case ReplayNext => ReplayKeepsInv(s);
    case _ =>
  }

  lemma {:induction false} InvHolds(acts: seq<Action>)
    ensures Places(After(acts)) && Sending(After(acts))
    ensures Ordered(After(acts))
  {
    if acts != [] {
      InvHolds(acts[..|acts| - 1]);
      StepKeepsInv(After(acts[..|acts| - 1]), acts[|acts| - 1]);
    }
  }

  // When the registration has returned, a message whose delivery has returned has reached
  // the session exactly if it was not appended after the bucket was taken; the others lie in
  // the bucket.
  lemma SentUnlessLate(acts: seq<Action>, m: Message)
    requires var s := After(acts); s.pc == Registered(|s.taken|) && m < s.next && m !in s.missed && m !in s.found
    ensures var s := After(acts); m in s.sent <==> m !in s.late
    ensures var s := After(acts); m in s.late <==> m in s.bucket
  {
    InvHolds(acts);
    assert After(acts).taken[..|After(acts).taken|] == After(acts).taken;
  }

  // Nothing is sent twice, and the replayed messages come in the order in which they were
  // appended.
  lemma SentOnceInOrder(acts: seq<Action>)
    ensures var s := After(acts); Distinct(s.sent) && Only(s.sent, set m | m in s.taken) == Replayed(s)
  {
    InvHolds(acts);
  }

  // The messages appended before the bucket is taken, in the order of their appends.
  function AppendedInTime(acts: seq<Action>): seq<Message> {
    if acts == [] then []
    else
      var s, before := After(acts[..|acts| - 1]), AppendedInTime(acts[..|acts| - 1]);
      match acts[|acts| - 1]
      case Append(m) => if m in s.missed && s.pc == Unregistered then before + [m] else before
      case _ => before
  }

  // A registration takes exactly these, in this order, and replays them so.
  lemma {:induction false} TakenAsAppended(acts: seq<Action>)
    ensures var s := After(acts);
      if s.pc == Unregistered then s.bucket == AppendedInTime(acts) else s.taken == AppendedInTime(acts)
    ensures Replayed(After(acts)) <= AppendedInTime(acts)
  {
    if acts != [] {
      TakenAsAppended(acts[..|acts| - 1]);
    }
  }

  // ---- When the replay stays ahead ----

  // The k-th action sends a direct message while the replay is under way.
  predicate Overtakes(acts: seq<Action>, k: nat) {
    k < |acts| && acts[k].Send? && acts[k].message in After(acts[..k]).found && Replaying(After(acts[..k]))
  }

  ghost predicate SomeOvertakes(acts: seq<Action>) { exists k: nat :: Overtakes(acts, k) }

  // So far the replay is ahead of everything else ...
  ghost predicate ReplayAhead(s: State) { if Replaying(s) then s.sent == Replayed(s) else Replayed(s) <= s.sent }

  // ... or a direct message has taken a place of the replay.
  ghost predicate PlaceTaken(s: State) {
    s.pc.Registered? && exists p :: 0 <= p < |s.sent| && p < |s.taken| && s.sent[p] in s.direct
  }

  lemma AheadStep(s: State, a: Action)
    requires Inv(s) && ReplayAhead(s) && !(a.Send? && a.message in s.found && Replaying(s))
    ensures ReplayAhead(Step(s, a))
  {
    match a
    case ReplayNext => if Replaying(s) { NextIsNew(s); }
    case Send(m) =>
    case _ =>
  }

  lemma OvertakingStep(s: State, m: Message)
    requires Inv(s) && ReplayAhead(s) && m in s.found && Replaying(s)
    ensures PlaceTaken(Step(s, Send(m)))
  {
    assert Step(s, Send(m)).sent[|s.sent|] == m;
  }

  lemma TakenStays(s: State, a: Action)
    requires PlaceTaken(s)
    ensures PlaceTaken(Step(s, a))
  {
    var p :| 0 <= p < |s.sent| && p < |s.taken| && s.sent[p] in s.direct;
    assert Step(s, a).sent[p] == s.sent[p];
  }

  lemma OvertakesSooner(acts: seq<Action>)
    requires acts != []
    ensures var before := acts[..|acts| - 1];
      SomeOvertakes(acts) <==> SomeOvertakes(before) || Overtakes(acts, |acts| - 1)
  {
    var before := acts[..|acts| - 1];
    forall k: nat | k < |before| ensures Overtakes(acts, k) <==> Overtakes(before, k) {
      assert acts[..k] == before[..k];
    }
  }

  lemma {:induction false} ReplayPlace(acts: seq<Action>)
    ensures if SomeOvertakes(acts) then PlaceTaken(After(acts)) else ReplayAhead(After(acts))
  {
    if acts != [] {
      var before, last := acts[..|acts| - 1], acts[|acts| - 1];
      InvHolds(before);
      ReplayPlace(before);
      OvertakesSooner(acts);
      if SomeOvertakes(before) {
        TakenStays(After(before), last);
      } else if Overtakes(acts, |acts| - 1) {
        OvertakingStep(After(before), last.message);
      } else {
        AheadStep(After(before), last);
      }
    }
  }

  // When the registration has returned, the replayed messages stand ahead of all others in
  // the channel exactly if no delivery sent between the map write and the end of the replay.
  lemma ReplayAheadIff(acts: seq<Action>)
    requires var s := After(acts); s.pc == Registered(|s.taken|)
    ensures After(acts).taken <= After(acts).sent <==> !SomeOvertakes(acts)
  {
    var s := After(acts);
    InvHolds(acts);
    ReplayPlace(acts);
    assert s.taken[..|s.taken|] == s.taken;
  }

  // ---- When direct messages keep their order ----

  // The k-th action sends a message although one looked up earlier is still to be sent.
  predicate Crosses(acts: seq<Action>, k: nat) {
    k < |acts| && acts[k].Send? && CrossesNow(After(acts[..k]), acts[k].message)
  }

  predicate CrossesNow(s: State, m: Message) { m in s.found && exists e :: e in s.found && e < m }

  ghost predicate SomeCrosses(acts: seq<Action>) { exists k: nat :: Crosses(acts, k) }

  ghost predicate InOrder(s: State) {
    && Increasing(Only(s.sent, s.direct))
    && forall m, f :: m in Only(s.sent, s.direct) && f in s.found ==> m < f
  }

  // A message is ahead of one looked up earlier.
  ghost predicate Crossed(s: State) {
    exists p, e: Message :: 0 <= p < |s.sent| && s.sent[p] in s.direct && e < s.sent[p]
      && (e in s.found || exists q :: p < q < |s.sent| && s.sent[q] == e && e in s.direct)
  }

  lemma {:induction false} OnlyUnaffected(list: seq<Message>, chosen: set<Message>, more: set<Message>)
    requires forall m :: m in list ==> m !in more
    ensures Only(list, chosen + more) == Only(list, chosen)
  {
    if list != [] { OnlyUnaffected(list[..|list| - 1], chosen, more); }
  }

  lemma BelowNext(s: State)
    requires Inv(s)
    ensures forall m :: m in s.sent || m in s.found ==> m < s.next
  {
    assert forall m :: m in Replayed(s) ==> m in s.taken;
  }

  lemma LookUpInOrder(s: State)
    requires (forall m :: m in s.sent || m in s.found ==> m < s.next) && InOrder(s)
    ensures InOrder(Step(s, LookUp))
  {
    OnlyUnaffected(s.sent, s.direct, {s.next});
    OnlyIn(s.sent, s.direct);
  }

  lemma SendInOrder(s: State, m: Message)
    requires s.found <= s.direct && InOrder(s) && !CrossesNow(s, m)
    ensures InOrder(Step(s, Send(m)))
  {
    if m in s.found {
      OnlyAppends(s.sent, m, s.direct);
      var d := Only(s.sent, s.direct);
      forall i | 0 <= i < |d| ensures d[i] < m { assert d[i] in d; }
      forall f | f in s.found - {m} ensures m < f { assert f in s.found; }
    }
  }

  lemma ReplayInOrder(s: State)
    requires Inv(s) && InOrder(s)
    ensures InOrder(Step(s, ReplayNext))
  {
    if Replaying(s) {
      NextIsNew(s);
      OnlyAppends(s.sent, s.taken[s.pc.replayed], s.direct);
    }
  }

  lemma InOrderStep(s: State, a: Action)
    requires Inv(s) && InOrder(s) && !(a.Send? && CrossesNow(s, a.message))
    ensures InOrder(Step(s, a))
  {
    match a
    case LookUp => BelowNext(s); LookUpInOrder(s);
    case Send(m) => SendInOrder(s, m);
    case ReplayNext => ReplayInOrder(s);
    case _ =>
  }

  lemma CrossingStep(s: State, m: Message)
    requires Inv(s) && CrossesNow(s, m)
    ensures Crossed(Step(s, Send(m)))
  {
    var e :| e in s.found && e < m;
    var s' := Step(s, Send(m));
    assert s'.sent[|s.sent|] == m && e in s'.found;
  }

  lemma HistoryGrows(s: State, a: Action)
    ensures s.sent <= Step(s, a).sent && s.direct <= Step(s, a).direct
    ensures forall e :: e in s.found && a != Send(e) ==> e in Step(s, a).found
  {
  }

  lemma CrossedStays(s: State, a: Action)
    requires s.found <= s.direct && Crossed(s)
    ensures Crossed(Step(s, a))
  {
    var s' := Step(s, a);
    var p, e: Message :| 0 <= p < |s.sent| && s.sent[p] in s.direct && e < s.sent[p]
      && (e in s.found || exists q :: p < q < |s.sent| && s.sent[q] == e && e in s.direct);
    HistoryGrows(s, a);
    assert s'.sent[p] == s.sent[p] && s'.sent[p] in s'.direct;
    if a == Send(e) && e in s.found {
      assert s'.sent[|s.sent|] == e;
    } else if q :| p < q < |s.sent| && s.sent[q] == e && e in s.direct {
      assert s'.sent[q] == e;
    } else {
      assert e in s'.found;
    }
  }

  lemma CrossesSooner(acts: seq<Action>)
    requires acts != []
    ensures var before := acts[..|acts| - 1];
      SomeCrosses(acts) <==> SomeCrosses(before) || Crosses(acts, |acts| - 1)
  {
    var before := acts[..|acts| - 1];
    forall k: nat | k < |before| ensures Crosses(acts, k) <==> Crosses(before, k) {
      assert acts[..k] == before[..k];
    }
  }

  lemma {:induction false} DirectOrder(acts: seq<Action>)
    ensures if SomeCrosses(acts) then Crossed(After(acts)) else InOrder(After(acts))
  {
    if acts != [] {
      var before, last := acts[..|acts| - 1], acts[|acts| - 1];
      InvHolds(before);
      DirectOrder(before);
      CrossesSooner(acts);
      if SomeCrosses(before) {
        CrossedStays(After(before), last);
      } else if Crosses(acts, |acts| - 1) {
        CrossingStep(After(before), last.message);
      } else {
        InOrderStep(After(before), last);
      }
    }
  }

  lemma {:induction false} OnlyKeepsOrder(list: seq<Message>, chosen: set<Message>, p: nat, q: nat)
    requires p < q < |list| && list[p] in chosen && list[q] in chosen
    ensures exists i, j :: 0 <= i < j < |Only(list, chosen)|
              && Only(list, chosen)[i] == list[p] && Only(list, chosen)[j] == list[q]
  {
    var n := |list| - 1;
    var d := Only(list[..n], chosen);
    if q < n {
      OnlyKeepsOrder(list[..n], chosen, p, q);
      var i, j :| 0 <= i < j < |d| && d[i] == list[p] && d[j] == list[q];
      assert Only(list, chosen)[i] == list[p] && Only(list, chosen)[j] == list[q];
    } else {
      OnlyIn(list[..n], chosen);
      assert list[..n][p] == list[p];
      assert list[p] in d;
      var i :| 0 <= i < |d| && d[i] == list[p];
      assert Only(list, chosen)[i] == list[p] && Only(list, chosen)[|d|] == list[q];
    }
  }

  // When every delivery that found the session has sent, the direct messages stand in the
  // order of their lookups exactly if none was sent while an earlier one was still to be.
  lemma DirectInOrderIff(acts: seq<Action>)
    requires After(acts).found == {}
    ensures Increasing(Only(After(acts).sent, After(acts).direct)) <==> !SomeCrosses(acts)
  {
    var s := After(acts);
    DirectOrder(acts);
    if SomeCrosses(acts) {
      var p, e: Message :| 0 <= p < |s.sent| && s.sent[p] in s.direct && e < s.sent[p]
        && (e in s.found || exists q :: p < q < |s.sent| && s.sent[q] == e && e in s.direct);
      var q :| p < q < |s.sent| && s.sent[q] == e && e in s.direct;
      OnlyKeepsOrder(s.sent, s.direct, p, q);
    }
  }

  // ---- Runs ----

  lemma Then(acts: seq<Action>, a: Action)
    ensures After(acts + [a]) == Step(After(acts), a)
  {
    assert (acts + [a])[..|acts|] == acts;
  }

  // Message 0 looks the session up before the map is written and is appended after the bucket
  // was taken: it is not replayed.
  lemma LateMessageIsLost() returns (acts: seq<Action>)
    ensures var s := After(acts);
      s.pc == Registered(|s.taken|) && s.missed == {} && s.late == {0} && s.sent == [] && s.bucket == [0]
  {
    Then([], LookUp);
    Then([] + [LookUp], TakeBucket);
    Then([] + [LookUp] + [TakeBucket], WriteMap);
    Then([] + [LookUp] + [TakeBucket] + [WriteMap], Append(0));
    acts := [] + [LookUp] + [TakeBucket] + [WriteMap] + [Append(0)];
  }

  // Message 1 is sent between the map write and the replay of message 0.
  lemma DirectOvertakesReplay() returns (acts: seq<Action>)
    ensures var s := After(acts); s.pc == Registered(|s.taken|) && s.taken == [0] && s.sent == [1, 0]
  {
    var written := [] + [LookUp] + [Append(0)] + [TakeBucket] + [WriteMap];
    Then([], LookUp);
    Then([] + [LookUp], Append(0));
    Then([] + [LookUp] + [Append(0)], TakeBucket);
    Then([] + [LookUp] + [Append(0)] + [TakeBucket], WriteMap);
    Then(written, LookUp);
    Then(written + [LookUp], Send(1));
    Then(written + [LookUp] + [Send(1)], ReplayNext);
    acts := written + [LookUp] + [Send(1)] + [ReplayNext];
  }
}
