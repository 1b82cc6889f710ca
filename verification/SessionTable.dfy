/**
 The early buckets and the session map as the handler's package variables.  The table's
 `View` is its state among those of `EarlyMessages`, and each method takes it to the state
 that the call leads to there; the sessions are objects with a channel of their own
 (`RecvChannel`).
 */
module SessionTable {
  import opened EarlyMessages
  import RecvChannel

  type Session = RecvChannel.Session

  function ChannelOf(myIndex: int, s: RecvChannel.State): Channel {
    Channel(myIndex, s.queue, s.closed, s.sent)
  }

  // What enqueueRecvItem makes of a channel while others do as told.
  function Enqueued(s: RecvChannel.State, id: nat, item: Item, others: seq<seq<RecvChannel.Action>>):
    RecvChannel.State
  {
    RecvChannel.Drive(RecvChannel.Step(s, RecvChannel.Call(id, item)), id, others)
  }

  ghost predicate Undisturbed(others: seq<seq<RecvChannel.Action>>) {
    |others| >= 2 && forall k :: 0 <= k < |others| ==> others[k] == []
  }

  // Undisturbed, the rounds of enqueueRecvItem come to the whole call of `EarlyMessages`.
  lemma UndisturbedIsWhole(myIndex: int, s: RecvChannel.State, id: nat, item: Item,
                           others: seq<seq<RecvChannel.Action>>)
    requires id !in s.senders && Undisturbed(others)
    ensures ChannelOf(myIndex, Enqueued(s, id, item, others)) == Enqueue(ChannelOf(myIndex, s), item)
  {
    RecvChannel.QuietDrive(RecvChannel.Step(s, RecvChannel.Call(id, item)), id, others);
  }

  ghost function Names(sessions: map<string, Session>): map<string, SessionId> {
    map k | k in sessions :: sessions[k].name
  }

  lemma NamesChange(sessions: map<string, Session>, key: string, s: Session)
    ensures Names(sessions[key := s]) == Names(sessions)[key := s.name]
    ensures Names(sessions - {key}) == Names(sessions) - {key}
  {
  }

  ghost predicate Capped(early: Buckets) { forall k :: k in early ==> |early[k].items| <= CAP }

  ghost predicate Known(sessions: map<string, Session>, objects: map<SessionId, Session>) {
    forall k :: k in sessions ==> sessions[k].name in objects && objects[sessions[k].name] == sessions[k]
  }

  lemma KnownStays(sessions: map<string, Session>, objects: map<SessionId, Session>, key: string, s: Session)
    requires Known(sessions, objects)
    ensures s.name !in objects ==> Known(sessions[key := s], objects[s.name := s])
    ensures Known(sessions - {key}, objects)
  {
  }

  // The channels once the older session of the key, if any, is closed.
  ghost function Closing(names: map<string, SessionId>, channels: map<SessionId, Channel>, key: string):
    map<SessionId, Channel>
  {
    if key in names && names[key] in channels
    then channels[names[key] := channels[names[key]].(closed := true)]
    else channels
  }

  // The table's state after a registration, from the values of its fields before.
  lemma RegisterIs(flow: Flow, early: Buckets, sessions: map<string, Session>, channels: map<SessionId, Channel>,
                   key: string, s: Session, now: Time)
    requires s.name !in channels
    ensures var replay := Replay(flow, early, key, now);
      State(Expire(flow, early, now) - {key}, Names(sessions[key := s]),
            Closing(Names(sessions), channels, key)[s.name := Channel(s.myIndex, replay, false, replay)])
      == Do(flow, State(early, Names(sessions), channels), EarlyMessages.Register(key, s.name, s.myIndex, now))
  {
    NamesChange(sessions, key, s);
  }

  lemma UnregisterIs(flow: Flow, early: Buckets, sessions: map<string, Session>, channels: map<SessionId, Channel>,
                     key: string, s: Session, objects: map<SessionId, Session>)
    requires Known(sessions, objects) && s.name in objects && objects[s.name] == s
    ensures Do(flow, State(early, Names(sessions), channels), EarlyMessages.Unregister(key, s.name)) ==
      if key in sessions && sessions[key] == s
      then State(early - {key}, Names(sessions - {key}), channels)
      else State(early, Names(sessions), channels)
  {
    NamesChange(sessions, key, s);
  }

  class SessionTable {
    const flow: Flow
    var early: Buckets
    var sessions: map<string, Session>
    ghost var objects: map<SessionId, Session>   // every session ever registered
    ghost var channels: map<SessionId, Channel>  // and what its channel holds

    // The table's state among those of `EarlyMessages`.
    ghost function View(): State
      reads this
    {
      State(early, Names(sessions), channels)
    }

    ghost predicate Valid()
      reads this, objects.Values
    {
      Capped(early) && Known(sessions, objects) && ChannelsTied()
    }

    ghost predicate ChannelsTied()
      reads `channels, `objects, objects.Values
    {
      && channels.Keys == objects.Keys && (forall g :: g in objects ==> objects[g].name == g)
      && (forall g :: g in objects ==> channels[g] == ChannelOf(objects[g].myIndex, objects[g].View()))
    }

    // Writing the buckets or the map touches no channel.
    twostate lemma StillTied()
      requires old(ChannelsTied()) && channels == old(channels) && objects == old(objects)
      requires forall g :: g in objects ==> unchanged(objects[g])
      ensures ChannelsTied()
    {
    }

    constructor (flow: Flow)
      ensures Valid() && this.flow == flow && View() == EMPTY && objects == map[]
    {
      this.flow := flow;
      early, sessions, objects, channels := map[], map[], map[], map[];
    }

    method CleanupExpiredLocked(now: Time)
      modifies `early
      ensures early == Expire(flow, old(early), now)
    {
      var keys := early.Keys;
      while keys != {}
        invariant keys <= early.Keys <= old(early).Keys
        invariant forall k :: k in early ==> early[k] == old(early)[k]
        invariant forall k :: k in old(early) && k !in keys ==>
                    (k in early <==> now - old(early)[k].createdAt <= flow.ttl)
        decreases |keys|
      {
        var k :| k in keys;
        keys := keys - {k};
        if now - early[k].createdAt > flow.ttl {
          early := early - {k};
        }
      }
    }

    // The bucket section of a delivery.
    method CacheEarly(key: string, item: Item, now: Time)
      modifies `early
      ensures early == Cache(flow, old(early), key, item, now)
    {
      CleanupExpiredLocked(now);
      if key in early && |early[key].items| >= CAP { return; }
      var b := if key in early then early[key] else Bucket([], now);
      var dup := false;
      if flow.dedup {
        var i := 0;
        while i < |b.items|
          invariant 0 <= i <= |b.items| && !dup
          invariant item !in b.items[..i]
        {
          if b.items[i] == item { dup := true; break; }
          i := i + 1;
        }
        assert b.items[..|b.items|] == b.items;
      }
      assert [] + [item] == [item];
      if !dup { b := b.(items := b.items + [item]); }
      assert dup ==> key in early && early[key := b] == early;
      early := early[key := b];
    }

    // DeliverKeygenMsg / DeliverSignMsg after decryption; `others` is what the rest of the
    // program does to the channel meanwhile.
    method Deliver(key: string, item: Item, now: Time, id: nat, others: seq<seq<RecvChannel.Action>>)
      requires Valid()
      requires key in sessions ==> id !in sessions[key].senders && RecvChannel.AllForeign(others, id)
      modifies `early, `channels, if key in sessions then {sessions[key]} else {}
      ensures Valid()
      ensures key !in sessions || item.fromIndex == sessions[key].myIndex || Undisturbed(others) ==>
        View() == Do(flow, old(View()), EarlyMessages.Deliver(key, item, now))
      ensures key in sessions && item.fromIndex != sessions[key].myIndex ==>
        var s := sessions[key];
        && s.View() == Enqueued(old(s.View()), id, item, others)
        && View() == old(View()).(channels := old(channels)[s.name := ChannelOf(s.myIndex, s.View())])
    {
      if key !in sessions {
        CacheEarly(key, item, now);
        return;
      }
      var s := sessions[key];
      if item.fromIndex == s.myIndex { return; }
      Send(s, item, id, others);
      if Undisturbed(others) { UndisturbedIsWhole(s.myIndex, old(s.View()), id, item, others); }
    }

    method Send(s: Session, item: Item, id: nat, others: seq<seq<RecvChannel.Action>>)
      requires ChannelsTied() && s.name in objects && objects[s.name] == s
      requires id !in s.senders && RecvChannel.AllForeign(others, id)
      modifies `channels, s
      ensures ChannelsTied() && s.View() == Enqueued(old(s.View()), id, item, others)
      ensures channels == old(channels)[s.name := ChannelOf(s.myIndex, s.View())]
    {
      var _ := s.Enqueue(id, item, others);
      channels := channels[s.name := ChannelOf(s.myIndex, s.View())];
    }

    // The bucket section of a registration.
    method TakeBucket(key: string, now: Time) returns (items: seq<Item>)
      requires ChannelsTied() && Capped(early)
      modifies `early
      ensures ChannelsTied() && |items| <= CAP && Capped(early)
      ensures early == Expire(flow, old(early), now) - {key} && items == Replay(flow, old(early), key, now)
    {
      CleanupExpiredLocked(now);
      items := [];
      if key in early {
        items := early[key].items;
      }
      early := early - {key};
      StillTied();
    }

    // registerKeygenSession / registerSignSession of a fresh session.
    method Register(key: string, s: Session, now: Time)
      requires Valid() && s.name !in objects && s.View() == RecvChannel.INIT
      modifies this, s, if key in sessions then {sessions[key]} else {}
      ensures Valid() && objects == old(objects)[s.name := s] && sessions == old(sessions)[key := s]
      ensures View() == Do(flow, old(View()), EarlyMessages.Register(key, s.name, s.myIndex, now))
    {
      Sections(key, s, now);
      KnownStays(old(sessions), old(objects), key, s);
      RegisterIs(flow, old(early), old(sessions), old(channels), key, s, now);
    }

    // Its three sections, field by field.
    method Sections(key: string, s: Session, now: Time)
      requires Valid() && s.name !in objects && s.View() == RecvChannel.INIT
      modifies this, s, if key in sessions then {sessions[key]} else {}
      ensures Capped(early) && ChannelsTied()
      ensures objects == old(objects)[s.name := s] && sessions == old(sessions)[key := s]
      ensures early == Expire(flow, old(early), now) - {key}
      ensures var replay := Replay(flow, old(early), key, now);
        channels ==
          Closing(Names(old(sessions)), old(channels), key)[s.name := Channel(s.myIndex, replay, false, replay)]
    {
      var replayItems := TakeBucket(key, now);
      Enter(key, s, replayItems);
    }

    // The map section and the replay.
    method Enter(key: string, s: Session, items: seq<Item>)
      requires Known(sessions, objects) && ChannelsTied()
      requires s.name !in objects && s.View() == RecvChannel.INIT && |items| <= CAP
      modifies `sessions, `channels, `objects, s, if key in sessions then {sessions[key]} else {}
      ensures ChannelsTied() && objects == old(objects)[s.name := s] && sessions == old(sessions)[key := s]
      ensures channels ==
        Closing(Names(old(sessions)), old(channels), key)[s.name := Channel(s.myIndex, items, false, items)]
    {
      CloseStale(key, s);
      SetEntry(key, s);
      Fill(s, items);
    }

    method SetEntry(key: string, s: Session)
      requires ChannelsTied()
      modifies `sessions
      ensures sessions == old(sessions)[key := s] && ChannelsTied()
    {
      sessions := sessions[key := s];
      StillTied();
    }

    // An older session of the key is closed.
    method CloseStale(key: string, s: Session)
      requires Known(sessions, objects) && ChannelsTied() && s.name !in objects
      modifies `channels, if key in sessions then {sessions[key]} else {}
      ensures ChannelsTied() && channels == Closing(Names(sessions), old(channels), key)
      ensures s.View() == old(s.View())
    {
      if key in sessions && sessions[key] != s {
        CloseSession(sessions[key]);
      }
    }

    method CloseSession(s: Session)
      requires ChannelsTied() && s.name in objects && objects[s.name] == s
      modifies `channels, s
      ensures ChannelsTied() && channels == old(channels)[s.name := old(channels)[s.name].(closed := true)]
    {
      s.Close();
      channels := channels[s.name := channels[s.name].(closed := true)];
    }

    // The replay into the session, which enters the table.
    method Fill(s: Session, items: seq<Item>)
      requires ChannelsTied() && s.name !in objects && s.View() == RecvChannel.INIT && |items| <= CAP
      modifies `channels, `objects, s
      ensures ChannelsTied() && objects == old(objects)[s.name := s]
      ensures channels == old(channels)[s.name := Channel(s.myIndex, items, false, items)]
    {
      ReplayInto(s, items);
      objects := objects[s.name := s];
      channels := channels[s.name := Channel(s.myIndex, items, false, items)];
    }

    // Nobody else knows the fresh session yet, and its channel has room for the whole batch.
    static method ReplayInto(s: Session, items: seq<Item>)
      requires s.View() == RecvChannel.INIT && |items| <= CAP
      modifies s
      ensures ChannelOf(s.myIndex, s.View()) == Channel(s.myIndex, items, false, items)
    {
      var i := 0;
      while i < |items|
        invariant 0 <= i <= |items|
        invariant ChannelOf(s.myIndex, s.View()) == Channel(s.myIndex, items[..i], false, items[..i])
        invariant forall id :: id in s.senders ==> id < i
      {
        label Before:
        var _ := s.Enqueue(i, items[i], [[], []]);
        UndisturbedIsWhole(s.myIndex, old@Before(s.View()), i, items[i], [[], []]);
        assert items[..i + 1] == items[..i] + [items[i]];
        i := i + 1;
      }
      assert items[..i] == items;
    }

    // unregisterKeygenSession / unregisterSignSession: only the own pointer is removed.
    method Unregister(key: string, s: Session) returns (mine: bool)
      requires Valid() && s.name in objects && objects[s.name] == s
      modifies `early, `sessions
      ensures Valid() && (mine <==> key in old(sessions) && old(sessions)[key] == s)
      ensures View() == Do(flow, old(View()), EarlyMessages.Unregister(key, s.name))
    {
      UnregisterIs(flow, early, sessions, channels, key, s, objects);
      if key !in sessions || sessions[key] != s { return false; }
      KnownStays(sessions, objects, key, s);
      RemoveEntry(key);
      return true;
    }

    method RemoveEntry(key: string)
      requires ChannelsTied()
      modifies `early, `sessions
      ensures early == old(early) - {key} && sessions == old(sessions) - {key} && ChannelsTied()
    {
      sessions := sessions - {key};
      early := early - {key};
      StillTied();
    }

    // clearEarlyKeygenMessages / clearEarlySignMessages
    method ClearEarly(key: string)
      requires Valid()
      modifies `early
      ensures Valid() && View() == Do(flow, old(View()), EarlyMessages.ClearEarly(key))
    {
      early := early - {key};
    }
  }
}
