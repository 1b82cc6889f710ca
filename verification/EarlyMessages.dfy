/**
 Messages that arrive before their session: they wait in a bucket per session key, and
 registering the session moves them into its receive channel.  Keygen and sign differ
 in the bucket's lifetime and in that sign keeps no duplicate (`Flow`).  A deliver call
 and a register call are one step each.
 */
module EarlyMessages {
  import opened Sequences
  import RecvChannel

  type Item = RecvChannel.Item
  type Time = int  // nanoseconds
  type SessionId = nat

  const MINUTE: Time := 60 * 1_000_000_000
  const CAP := RecvChannel.CAP  // bucket limit and channel capacity

  datatype Flow = Flow(ttl: Time, dedup: bool)

  const KEYGEN := Flow(15 * MINUTE, false)
  const SIGN := Flow(10 * MINUTE, true)

  datatype Bucket = Bucket(items: seq<Item>, createdAt: Time)
  type Buckets = map<string, Bucket>

  // cleanupExpiredEarly*MessagesLocked
  function Expire(flow: Flow, early: Buckets, now: Time): Buckets {
    map k | k in early && now - early[k].createdAt <= flow.ttl :: early[k]
  }

  // The bucket section of Deliver*Msg.
  function Cache(flow: Flow, early: Buckets, key: string, item: Item, now: Time): Buckets {
    var live := Expire(flow, early, now);
    if key !in live then live[key := Bucket([item], now)]
    else if |live[key].items| >= CAP || (flow.dedup && item in live[key].items) then live
    else live[key := live[key].(items := live[key].items + [item])]
  }

  function Replay(flow: Flow, early: Buckets, key: string, now: Time): seq<Item> {
    if key in early && now - early[key].createdAt <= flow.ttl then early[key].items else []
  }

  // ---- Runs ----

  // `sent` is history: everything put into the channel, in order.
  datatype Channel = Channel(myIndex: int, queue: seq<Item>, closed: bool, sent: seq<Item>)

  datatype State = State(early: Buckets, sessions: map<string, SessionId>, channels: map<SessionId, Channel>)

  datatype Call =
    | Deliver(key: string, item: Item, at: Time)
    | Register(key: string, sid: SessionId, myIndex: int, at: Time)
    | Unregister(key: string, sid: SessionId)
    | ClearEarly(key: string)
    | Close(sid: SessionId)
    | Receive(sid: SessionId)   // the delivery loop takes one item

  const EMPTY := State(map[], map[], map[])

  // enqueueRecvItem as a whole; with a full channel the caller waits, so nothing happens yet.
  function Enqueue(c: Channel, item: Item): Channel {
    if c.closed || |c.queue| >= CAP then c else c.(queue := c.queue + [item], sent := c.sent + [item])
  }

  function CloseOld(s: State, key: string): map<SessionId, Channel> {
    if key in s.sessions && s.sessions[key] in s.channels
    then s.channels[s.sessions[key] := s.channels[s.sessions[key]].(closed := true)]
    else s.channels
  }

  function Do(flow: Flow, s: State, call: Call): State {
    match call
    case Deliver(key, item, now) =>
      if key !in s.sessions || s.sessions[key] !in s.channels
      then s.(early := Cache(flow, s.early, key, item, now))
      else
        var sid := s.sessions[key];
        if item.fromIndex == s.channels[sid].myIndex then s
        else s.(channels := s.channels[sid := Enqueue(s.channels[sid], item)])
    case Register(key, sid, myIndex, now) =>
      if sid in s.channels then s  // session objects are fresh
      else
        var replay := Replay(flow, s.early, key, now);
        State(Expire(flow, s.early, now) - {key},
              s.sessions[key := sid],
              CloseOld(s, key)[sid := Channel(myIndex, replay, false, replay)])
    case Unregister(key, sid) =>
      if key in s.sessions && s.sessions[key] == sid
      then s.(sessions := s.sessions - {key}, early := s.early - {key})
      else s
    case ClearEarly(key) => s.(early := s.early - {key})
    case Close(sid) =>
      if sid in s.channels then s.(channels := s.channels[sid := s.channels[sid].(closed := true)]) else s
    case Receive(sid) =>
      if sid in s.channels && s.channels[sid].queue != []
      then s.(channels := s.channels[sid := s.channels[sid].(queue := s.channels[sid].queue[1..])])
      else s
  }

  function After(flow: Flow, calls: seq<Call>): State {
    if calls == [] then EMPTY else Do(flow, After(flow, calls[..|calls| - 1]), calls[|calls| - 1])
  }

  function At(call: Call): Time {
    match call
    case Deliver(_, _, at) => at
    case Register(_, _, _, at) => at
    case _ => 0
  }

  predicate Timed(call: Call) { call.Deliver? || call.Register? }

  ghost predicate ClockInOrder(calls: seq<Call>) {
    forall i, j :: 0 <= i < j < |calls| && Timed(calls[i]) && Timed(calls[j]) ==> At(calls[i]) <= At(calls[j])
  }

  // ---- What the calls about one key alone say is waiting for it ----

  datatype Batch = Batch(items: seq<Item>, since: Time)

  const NO_BATCH := Batch([], 0)

  function Waiting(flow: Flow, calls: seq<Call>, key: string): Batch {
    if calls == [] then NO_BATCH
    else
      var before := calls[..|calls| - 1];
      var b := Waiting(flow, before, key);
      match calls[|calls| - 1]
      case Deliver(k, item, now) =>
        if k != key || key in After(flow, before).sessions then b
        else if b.items == [] || now - b.since > flow.ttl then Batch([item], now)
        else if |b.items| >= CAP || (flow.dedup && item in b.items) then b
        else b.(items := b.items + [item])
      case Register(k, sid, _, _) => if k == key && sid !in After(flow, before).channels then NO_BATCH else b
      case Unregister(k, sid) =>
        var s := After(flow, before);
        if k == key && key in s.sessions && s.sessions[key] == sid then NO_BATCH else b
      case ClearEarly(k) => if k == key then NO_BATCH else b
      case _ => b
  }

  function Unexpired(flow: Flow, b: Batch, now: Time): seq<Item> {
    if now - b.since <= flow.ttl then b.items else []
  }

  // What went into the channel of a session, told from the calls: at its registration the
  // unexpired batch, and then each message delivered to its key, in order, that is not its
  // own, while it is registered, open and has room.
  function SentTo(flow: Flow, calls: seq<Call>, sid: SessionId): seq<Item> {
    if calls == [] then []
    else
      var before := calls[..|calls| - 1];
      var s, sent := After(flow, before), SentTo(flow, before, sid);
      match calls[|calls| - 1]
      case Register(key, r, _, now) =>
        if r == sid && sid !in s.channels then Unexpired(flow, Waiting(flow, before, key), now) else sent
      case Deliver(key, item, _) =>
        if key in s.sessions && s.sessions[key] == sid && sid in s.channels && item.fromIndex != s.channels[sid].myIndex
           && !s.channels[sid].closed && |s.channels[sid].queue| < CAP
        then sent + [item]
        else sent
      case _ => sent
  }

  ghost predicate BatchOk(flow: Flow, b: Batch) {
    |b.items| <= CAP && (flow.dedup ==> Distinct(b.items))
  }

  // The bucket of a key holds its batch; it may have gone once the batch is too old.
  ghost predicate Holds(flow: Flow, early: Buckets, key: string, b: Batch, now: Time) {
    && (key in early ==> b.items != [] && early[key] == Bucket(b.items, b.since))
    && (b.items != [] && now - b.since <= flow.ttl ==> key in early)
  }

  ghost predicate SessionsHaveChannels(s: State) {
    && (forall k :: k in s.sessions ==> s.sessions[k] in s.channels)
    && (forall g :: g in s.channels ==> |s.channels[g].queue| <= CAP)
  }

  lemma DoKeepsChannels(flow: Flow, s: State, call: Call)
    requires SessionsHaveChannels(s) && (forall k :: k in s.early ==> |s.early[k].items| <= CAP)
    ensures SessionsHaveChannels(Do(flow, s, call))
    ensures forall k :: k in Do(flow, s, call).early ==> |Do(flow, s, call).early[k].items| <= CAP
  {
  }

  // In every reachable state no bucket and no channel holds more than 1024 items.
  lemma {:induction false} CapsHold(flow: Flow, calls: seq<Call>)
    ensures SessionsHaveChannels(After(flow, calls))
    ensures forall k :: k in After(flow, calls).early ==> |After(flow, calls).early[k].items| <= CAP
  {
    if calls != [] {
      CapsHold(flow, calls[..|calls| - 1]);
      DoKeepsChannels(flow, After(flow, calls[..|calls| - 1]), calls[|calls| - 1]);
    }
  }

  lemma {:induction false} BatchesOk(flow: Flow, calls: seq<Call>, key: string)
    ensures BatchOk(flow, Waiting(flow, calls, key))
  {
    if calls != [] {
      BatchesOk(flow, calls[..|calls| - 1], key);
    }
  }

  // The time of the latest timed call, or `now` if it is later than all of them.
  ghost predicate NotBefore(calls: seq<Call>, now: Time) {
    forall i :: 0 <= i < |calls| && Timed(calls[i]) ==> At(calls[i]) <= now
  }

  lemma PrefixInOrder(calls: seq<Call>)
    requires ClockInOrder(calls) && calls != []
    ensures var before, last := calls[..|calls| - 1], calls[|calls| - 1];
      ClockInOrder(before) && (Timed(last) ==> NotBefore(before, At(last)))
  {
    var before := calls[..|calls| - 1];
    forall i | 0 <= i < |before| ensures calls[i] == before[i] {
    }
  }

  lemma DeliverHolds(flow: Flow, early: Buckets, key: string, b: Batch, k: string, item: Item, at: Time, now: Time)
    requires Holds(flow, early, key, b, at) && at <= now && BatchOk(flow, b)
    ensures k != key ==> Holds(flow, Cache(flow, early, k, item, at), key, b, now)
    ensures k == key ==>
      var b' := if b.items == [] || at - b.since > flow.ttl then Batch([item], at)
                else if |b.items| >= CAP || (flow.dedup && item in b.items) then b
                else b.(items := b.items + [item]);
      Holds(flow, Cache(flow, early, key, item, at), key, b', now)
  {
  }

  // Buckets are exactly the batches of the calls about their own key, whatever the calls
  // about other keys were.
  lemma {:induction false} BucketsHoldBatches(flow: Flow, calls: seq<Call>, key: string, now: Time)
    requires ClockInOrder(calls) && NotBefore(calls, now)
    ensures Holds(flow, After(flow, calls).early, key, Waiting(flow, calls, key), now)
  {
    if calls != [] {
      var before, last := calls[..|calls| - 1], calls[|calls| - 1];
      CapsHold(flow, before);
      BatchesOk(flow, before, key);
      PrefixInOrder(calls);
      if Timed(last) {
        BucketsHoldBatches(flow, before, key, At(last));
        if last.Deliver? {
          var early, batch := After(flow, before).early, Waiting(flow, before, key);
          DeliverHolds(flow, early, key, batch, last.key, last.item, last.at, now);
        }
      } else {
        BucketsHoldBatches(flow, before, key, now);
      }
    }
  }

  // Conservation: every session's channel has been sent exactly its key's unexpired batch,
  // in arrival order, and then the later deliveries; nothing is replayed twice, because
  // the batch is empty afterwards.
  lemma {:induction false} EarlyMessagesConserved(flow: Flow, calls: seq<Call>, sid: SessionId)
    requires ClockInOrder(calls) && sid in After(flow, calls).channels
    ensures After(flow, calls).channels[sid].sent == SentTo(flow, calls, sid)
  {
    var before, last := calls[..|calls| - 1], calls[|calls| - 1];
    CapsHold(flow, before);
    PrefixInOrder(calls);
    if sid in After(flow, before).channels {
      EarlyMessagesConserved(flow, before, sid);
    } else {
      assert last.Register? && last.sid == sid;
      BucketsHoldBatches(flow, before, last.key, last.at);
    }
  }

  // ---- One cached message at a time ----

  // Call i caches a message for the key.
  predicate Caches(flow: Flow, calls: seq<Call>, i: nat, key: string) {
    i < |calls| && calls[i].Deliver? && calls[i].key == key && key !in After(flow, calls[..i]).sessions
    && var b := Waiting(flow, calls[..i], key);
       b.items == [] || calls[i].at - b.since > flow.ttl
       || (|b.items| < CAP && !(flow.dedup && calls[i].item in b.items))
  }

  // Where it stands in its batch, and since when the batch waits.
  function Place(flow: Flow, calls: seq<Call>, i: nat, key: string): nat
    requires Caches(flow, calls, i, key)
  {
    var b := Waiting(flow, calls[..i], key);
    if b.items == [] || calls[i].at - b.since > flow.ttl then 0 else |b.items|
  }

  function Since(flow: Flow, calls: seq<Call>, i: nat, key: string): Time
    requires Caches(flow, calls, i, key)
  {
    var b := Waiting(flow, calls[..i], key);
    if b.items == [] || calls[i].at - b.since > flow.ttl then calls[i].at else b.since
  }

  // Call r empties the key's bucket: a clear, the session's own unregister, or a register.
  predicate Ends(flow: Flow, calls: seq<Call>, r: nat, key: string) {
    r < |calls| &&
    match calls[r]
    case ClearEarly(k) => k == key
    case Unregister(k, sid) =>
      var s := After(flow, calls[..r]); k == key && key in s.sessions && s.sessions[key] == sid
    case Register(k, sid, _, _) => k == key && sid !in After(flow, calls[..r]).channels
    case _ => false
  }

  // The message is still waiting before call n: nothing has ended its batch, and the batch
  // was not found expired.
  ghost predicate StillWaits(flow: Flow, calls: seq<Call>, i: nat, n: nat, key: string)
    requires Caches(flow, calls, i, key)
  {
    && i < n <= |calls|
    && (forall r: nat :: i < r < n ==> !Ends(flow, calls, r, key))
    && (forall r: nat :: i < r < n && calls[r].Deliver? && calls[r].key == key ==>
          calls[r].at - Since(flow, calls, i, key) <= flow.ttl)
  }

  lemma WaitingStep(flow: Flow, calls: seq<Call>, n: nat, key: string)
    requires n < |calls|
    ensures var b, b' := Waiting(flow, calls[..n], key), Waiting(flow, calls[..n + 1], key);
      && (Ends(flow, calls, n, key) ==> b' == NO_BATCH)
      && (Caches(flow, calls, n, key) ==>
            b' == Batch((if Place(flow, calls, n, key) == 0 then [] else b.items) + [calls[n].item],
                        Since(flow, calls, n, key)))
      && (!Ends(flow, calls, n, key) && !Caches(flow, calls, n, key) ==> b' == b)
  {
    assert calls[..n + 1][..n] == calls[..n];
  }

  // A waiting message keeps its place in its batch.
  lemma {:induction false} KeepsItsPlace(flow: Flow, calls: seq<Call>, i: nat, n: nat, key: string)
    requires Caches(flow, calls, i, key) && StillWaits(flow, calls, i, n, key)
    ensures var b := Waiting(flow, calls[..n], key);
      && b.since == Since(flow, calls, i, key) && Place(flow, calls, i, key) < |b.items|
      && b.items[Place(flow, calls, i, key)] == calls[i].item
    decreases n
  {
    if n == i + 1 {
      WaitingStep(flow, calls, i, key);
    } else {
      KeepsItsPlace(flow, calls, i, n - 1, key);
      WaitingStep(flow, calls, n - 1, key);
    }
  }

  lemma ChannelsStay(flow: Flow, s: State, call: Call, sid: SessionId)
    requires sid in s.channels
    ensures sid in Do(flow, s, call).channels
  {
  }

  // What a registered session is sent later comes behind what it has been sent.
  lemma SentGrows(flow: Flow, calls: seq<Call>, sid: SessionId)
    requires calls != [] && sid in After(flow, calls[..|calls| - 1]).channels
    ensures SentTo(flow, calls[..|calls| - 1], sid) <= SentTo(flow, calls, sid)
  {
  }

  // A registration puts the key's batch at the front of what its channel is ever sent.
  lemma {:induction false} ReplayedFirst(flow: Flow, calls: seq<Call>, j: nat, key: string)
    requires j < |calls| && calls[j].Register? && calls[j].key == key && Ends(flow, calls, j, key)
    ensures calls[j].sid in After(flow, calls).channels
    ensures Unexpired(flow, Waiting(flow, calls[..j], key), calls[j].at) <= SentTo(flow, calls, calls[j].sid)
    decreases |calls|
  {
    var before := calls[..|calls| - 1];
    if j < |before| {
      assert before[..j] == calls[..j];
      ReplayedFirst(flow, before, j, key);
      ChannelsStay(flow, After(flow, before), calls[|calls| - 1], calls[j].sid);
      SentGrows(flow, calls, calls[j].sid);
    } else {
      assert calls[..j] == before;
    }
  }

  // A message cached by call i and still waiting, unexpired, when call j registers the key
  // is put into the new session's channel, at its place in the batch.
  lemma CachedIsReplayed(flow: Flow, calls: seq<Call>, i: nat, j: nat, key: string)
    requires ClockInOrder(calls) && Caches(flow, calls, i, key) && StillWaits(flow, calls, i, j, key)
    requires j < |calls| && calls[j].Register? && calls[j].key == key && Ends(flow, calls, j, key)
    requires calls[j].at - Since(flow, calls, i, key) <= flow.ttl
    ensures var s := After(flow, calls);
      && calls[j].sid in s.channels && Place(flow, calls, i, key) < |s.channels[calls[j].sid].sent|
      && s.channels[calls[j].sid].sent[Place(flow, calls, i, key)] == calls[i].item
  {
    KeepsItsPlace(flow, calls, i, j, key);
    ReplayedFirst(flow, calls, j, key);
    EarlyMessagesConserved(flow, calls, calls[j].sid);
  }

  // Of two messages waiting together, the one cached first is replayed first.
  lemma ReplayedInOrder(flow: Flow, calls: seq<Call>, i: nat, k: nat, key: string)
    requires Caches(flow, calls, i, key) && i < k && Caches(flow, calls, k, key)
    requires StillWaits(flow, calls, i, k, key) && calls[k].at - Since(flow, calls, i, key) <= flow.ttl
    ensures Place(flow, calls, i, key) < Place(flow, calls, k, key)
  {
    KeepsItsPlace(flow, calls, i, k, key);
  }

  // And every place of a batch was filled by one caching call: so a message cached several
  // times is replayed as often (KEYGEN); with duplicate detection (SIGN) a batch holds no
  // two equal messages (BatchesOk), and each is replayed once.
  lemma {:induction false} EachPlaceWasCached(flow: Flow, calls: seq<Call>, n: nat, key: string, q: nat)
      returns (i: nat)
    requires n <= |calls| && q < |Waiting(flow, calls[..n], key).items|
    ensures i < n && Caches(flow, calls, i, key) && Place(flow, calls, i, key) == q
    ensures calls[i].item == Waiting(flow, calls[..n], key).items[q]
    decreases n
  {
    WaitingStep(flow, calls, n - 1, key);
    if Caches(flow, calls, n - 1, key) && Place(flow, calls, n - 1, key) == q {
      i := n - 1;
    } else {
      i := EachPlaceWasCached(flow, calls, n - 1, key, q);
    }
  }

  // The replay fits into the fresh channel, so registering never waits.
  lemma {:induction false} ReplayNeverWaits(flow: Flow, calls: seq<Call>, key: string, now: Time)
    ensures |Replay(flow, After(flow, calls).early, key, now)| <= CAP
  {
    CapsHold(flow, calls);
  }

  ghost predicate Fifo(c: Channel) {
    |c.queue| <= |c.sent| && c.queue == c.sent[|c.sent| - |c.queue|..]
  }

  lemma ChannelStepsAreFifo(c: Channel, item: Item)
    requires Fifo(c)
    ensures Fifo(Enqueue(c, item)) && Fifo(c.(closed := true))
    ensures c.queue != [] ==> Fifo(c.(queue := c.queue[1..]))
  {
    var e := Enqueue(c, item);
    if e != c {
      assert e.sent[|e.sent| - |e.queue|..] == c.sent[|c.sent| - |c.queue|..] + [item];
    }
  }

  lemma DoIsFifo(flow: Flow, s: State, call: Call, sid: SessionId)
    requires sid in s.channels && Fifo(s.channels[sid])
    ensures sid in Do(flow, s, call).channels && Fifo(Do(flow, s, call).channels[sid])
  {
    ChannelStepsAreFifo(s.channels[sid], if call.Deliver? then call.item else RecvChannel.Item("", 0, false));
  }

  // What a session has received is what was sent to it, in order, less what is still queued.
  lemma {:induction false} ChannelIsFifo(flow: Flow, calls: seq<Call>, sid: SessionId)
    requires sid in After(flow, calls).channels
    ensures Fifo(After(flow, calls).channels[sid])
  {
    var before := calls[..|calls| - 1];
    if sid in After(flow, before).channels {
      ChannelIsFifo(flow, before, sid);
      DoIsFifo(flow, After(flow, before), calls[|calls| - 1], sid);
    }
  }
}
