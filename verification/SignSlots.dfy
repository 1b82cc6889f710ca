/**
 The two slot maps of the sign handler: which key a running task uses, and which task
 a key is used by.  `Slots` is the pair of maps as a value; `SignSlotTable` holds the
 same two maps as fields, keyed by (id, node) pairs.  `SessionKeys.ComposedKeys` shows
 that a pair and its composed string `id|node` identify each other.
 */
module SignSlots {

  datatype Slots<T(==), K(==)> = Slots(active: map<T, K>, byKey: map<K, T>)

  function NoSlots<T, K>(): Slots<T, K> { Slots(map[], map[]) }

  predicate MayBegin<T(==), K(==)>(s: Slots<T, K>, task: T, key: K) {
    task !in s.active && (key in s.byKey ==> s.byKey[key] == task)
  }

  function Begin<T(==), K(==)>(s: Slots<T, K>, task: T, key: K): Slots<T, K> {
    if MayBegin(s, task, key) then Slots(s.active[task := key], s.byKey[key := task]) else s
  }

  function End<T(==), K(==)>(s: Slots<T, K>, task: T): Slots<T, K> {
    if task !in s.active then s
    else
      var key := s.active[task];
      Slots(s.active - {task},
            if key in s.byKey && s.byKey[key] == task then s.byKey - {key} else s.byKey)
  }

  // The two maps invert each other.
  ghost predicate Inverse<T, K>(s: Slots<T, K>) {
    && (forall t :: t in s.active ==> s.active[t] in s.byKey && s.byKey[s.active[t]] == t)
    && (forall k :: k in s.byKey ==> s.byKey[k] in s.active && s.active[s.byKey[k]] == k)
  }

  // ---- Runs of begin and end calls against a plain lock table ----

  datatype SlotCall<T, K> = BeginCall(task: T, key: K) | EndCall(task: T)

  function SlotsAfter<T(==), K(==)>(calls: seq<SlotCall<T, K>>): Slots<T, K> {
    if calls == [] then NoSlots()
    else
      var s := SlotsAfter(calls[..|calls| - 1]);
      match calls[|calls| - 1]
      case BeginCall(t, k) => Begin(s, t, k)
      case EndCall(t) => End(s, t)
  }

  // The lock table a reader would write down: a set of (task, key) pairs in which neither
  // a task nor a key occurs twice.
  function Locks<T(==), K(==)>(calls: seq<SlotCall<T, K>>): set<(T, K)> {
    if calls == [] then {}
    else
      var held := Locks(calls[..|calls| - 1]);
      match calls[|calls| - 1]
      case BeginCall(t, k) => if Grants(held, t, k) then held + {(t, k)} else held
      case EndCall(t) => set p | p in held && p.0 != t
  }

  predicate Grants<T(==), K(==)>(held: set<(T, K)>, task: T, key: K) {
    forall p :: p in held ==> p.0 != task && p.1 != key
  }

  ghost predicate Represents<T(!new), K(!new)>(s: Slots<T, K>, held: set<(T, K)>) {
    && (forall t, k {:trigger (t, k) in held} :: (t, k) in held <==> t in s.active && s.active[t] == k)
    && (forall t, k {:trigger (t, k) in held} :: (t, k) in held <==> k in s.byKey && s.byKey[k] == t)
  }

  lemma RepresentsAgrees<T(!new), K(!new)>(s: Slots<T, K>, held: set<(T, K)>, t: T, k: K)
    requires Represents(s, held)
    ensures MayBegin(s, t, k) <==> Grants(held, t, k)
    ensures Inverse(s)
  {
    forall t' | t' in s.active ensures s.active[t'] in s.byKey && s.byKey[s.active[t']] == t' {
      assert (t', s.active[t']) in held;
    }
    forall k' | k' in s.byKey ensures s.byKey[k'] in s.active && s.active[s.byKey[k']] == k' {
      assert (s.byKey[k'], k') in held;
    }
    if !MayBegin(s, t, k) {
      if t in s.active { assert (t, s.active[t]) in held; } else { assert (s.byKey[k], k) in held; }
    }
  }

  // Both maps are views of the lock table after every run of calls, and each call is
  // granted exactly when the lock table grants it.
  lemma {:induction false} SlotsRefineLocks<T(!new), K(!new)>(calls: seq<SlotCall<T, K>>)
    ensures Represents(SlotsAfter(calls), Locks(calls))
    ensures Inverse(SlotsAfter(calls))
    ensures forall t, k :: MayBegin(SlotsAfter(calls), t, k) <==> Grants(Locks(calls), t, k)
  {
    if calls != [] {
      var before := calls[..|calls| - 1];
      SlotsRefineLocks(before);
      var s, held := SlotsAfter(before), Locks(before);
      match calls[|calls| - 1]
      case BeginCall(t, k) => RepresentsAgrees(s, held, t, k);
      case EndCall(t) =>
        forall t', k' ensures (t', k') in Locks(calls) <==> k' in End(s, t).byKey && End(s, t).byKey[k'] == t' {
          assert (t', k') in held <==> k' in s.byKey && s.byKey[k'] == t';
          if t in s.active { assert (t, s.active[t]) in held; }
        }
    }
    forall t, k ensures MayBegin(SlotsAfter(calls), t, k) <==> Grants(Locks(calls), t, k) {
      RepresentsAgrees(SlotsAfter(calls), Locks(calls), t, k);
    }
    RepresentsInverse(SlotsAfter(calls), Locks(calls));
  }

  lemma RepresentsInverse<T(!new), K(!new)>(s: Slots<T, K>, held: set<(T, K)>)
    requires Represents(s, held)
    ensures Inverse(s)
  {
    forall t' | t' in s.active ensures s.active[t'] in s.byKey && s.byKey[s.active[t']] == t' {
      assert (t', s.active[t']) in held;
    }
    forall k' | k' in s.byKey ensures s.byKey[k'] in s.active && s.active[s.byKey[k']] == k' {
      assert (s.byKey[k'], k') in held;
    }
  }

  lemma BeginEndKeepInverse<T, K>(s: Slots<T, K>, t: T, k: K)
    requires Inverse(s)
    ensures Inverse(Begin(s, t, k)) && Inverse(End(s, t))
    ensures t !in End(s, t).active
  {
    var e := End(s, t);
    if t in s.active {
      assert s.byKey[s.active[t]] == t;
    }
  }

  // A task that was cleared as stale and whose key went to another task may still call
  // end, any number of calls later: the new owner keeps both of its entries.
  lemma LateEndIsHarmless<T(!new), K(!new)>(calls: seq<SlotCall<T, K>>, late: T, owner: T, key: K)
    requires key in SlotsAfter(calls).byKey && SlotsAfter(calls).byKey[key] == owner && owner != late
    ensures var after := SlotsAfter(calls + [EndCall(late)]);
            && key in after.byKey && after.byKey[key] == owner
            && owner in after.active && after.active[owner] == key
  {
    assert (calls + [EndCall(late)])[..|calls|] == calls;
    SlotsRefineLocks(calls);
  }

  // ---- The maps as the handler's package variables ----

  datatype Place = Place(id: string, node: string)

  class SignSlotTable {
    var signActive: map<Place, string>     // (task, node) -> key
    var signKeyActive: map<Place, string>  // (key, node) -> task

    constructor ()
      ensures View() == NoSlots()
    {
      signActive, signKeyActive := map[], map[];
    }

    ghost function View(): Slots<Place, Place>
      reads this
    {
      Slots(map p | p in signActive :: Place(signActive[p], p.node),
            map p | p in signKeyActive :: Place(signKeyActive[p], p.node))
    }

    method BeginSignTask(taskID: string, nodeID: string, keyID: string) returns (ok: bool)
      modifies this
      ensures ok <==> taskID != "" && nodeID != "" && keyID != ""
                      && old(MayBegin(View(), Place(taskID, nodeID), Place(keyID, nodeID)))
      ensures View() == if ok then Begin(old(View()), Place(taskID, nodeID), Place(keyID, nodeID)) else old(View())
    {
      if taskID == "" || nodeID == "" || keyID == "" { return false; }
      var taskKey, keyLock := Place(taskID, nodeID), Place(keyID, nodeID);
      if taskKey in signActive { return false; }
      if keyLock in signKeyActive && signKeyActive[keyLock] != taskID { return false; }
      signActive := signActive[taskKey := keyID];
      signKeyActive := signKeyActive[keyLock := taskID];
      return true;
    }

    method EndSignTask(taskID: string, nodeID: string)
      modifies this
      ensures View() == End(old(View()), Place(taskID, nodeID))
    {
      var taskKey := Place(taskID, nodeID);
      if taskKey !in signActive { return; }
      var keyID := signActive[taskKey];
      signActive := signActive - {taskKey};
      var keyLock := Place(keyID, nodeID);
      if keyLock in signKeyActive && signKeyActive[keyLock] == taskID {
        signKeyActive := signKeyActive - {keyLock};
      }
    }

    // "" when no task uses the key.
    method ActiveSignTaskForKey(nodeID: string, keyID: string) returns (task: string)
      ensures nodeID != "" && keyID != "" && Place(keyID, nodeID) in View().byKey
              ==> task == View().byKey[Place(keyID, nodeID)].id
      ensures nodeID == "" || keyID == "" || Place(keyID, nodeID) !in View().byKey ==> task == ""
    {
      if nodeID == "" || keyID == "" || Place(keyID, nodeID) !in signKeyActive { return ""; }
      return signKeyActive[Place(keyID, nodeID)];
    }
  }
}
