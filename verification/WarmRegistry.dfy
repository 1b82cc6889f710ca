/**
 The registry of background warm refreshes: session key -> id of its cancel function, and
 id -> cancel function.  Ids come from an atomic counter, before the lock is taken, so
 two warms may enter the lock in either order; `Register` is the locked section.
 */
module WarmRegistry {
  import opened Wrappers

  type Id = nat

  // The two maps; a cancel function is known by the id it was registered with.
  datatype Registry = Registry(cancels: map<string, Id>, fns: set<Id>)

  function Register(r: Registry, key: string, id: Id): Registry {
    Registry(r.cancels[key := id], r.fns + {id})
  }

  function Unregister(r: Registry, key: string, id: Id): Registry {
    Registry(if key in r.cancels && r.cancels[key] == id then r.cancels - {key} else r.cancels, r.fns - {id})
  }

  // The id whose function cancelPrior calls.
  function Fired(r: Registry, key: string): Option<Id> {
    if key in r.cancels && r.cancels[key] in r.fns then Some(r.cancels[key]) else None
  }

  function CancelPrior(r: Registry, key: string): Registry {
    if key in r.cancels then Registry(r.cancels - {key}, r.fns - {r.cancels[key]}) else r
  }

  // ---- Runs ----

  datatype Call = Add(key: string) | Enter(id: Id) | Leave(id: Id) | Cancel(key: string)

  // A warm run draws its id (Add), enters the registry (Enter), and leaves it (Leave), each
  // at most once and in this order; cancels come at any time.
  datatype State = State(reg: Registry, keyOf: map<Id, string>, entered: set<Id>, left: set<Id>, gen: Id)

  const EMPTY: State := State(Registry(map[], {}), map[], {}, {}, 0)

  function Do(s: State, call: Call): State {
    match call
    case Add(key) => s.(keyOf := s.keyOf[s.gen + 1 := key], gen := s.gen + 1)
    case Enter(id) =>
      if id in s.keyOf && id !in s.entered
      then s.(reg := Register(s.reg, s.keyOf[id], id), entered := s.entered + {id})
      else s
    case Leave(id) =>
      if id in s.entered && id in s.keyOf && id !in s.left
      then s.(reg := Unregister(s.reg, s.keyOf[id], id), left := s.left + {id})
      else s
    case Cancel(key) => s.(reg := CancelPrior(s.reg, key))
  }

  function After(calls: seq<Call>): State {
    if calls == [] then EMPTY else Do(After(calls[..|calls| - 1]), calls[|calls| - 1])
  }

  // The warm that entered last for the key, unless it has since left or been cancelled.
  function Latest(calls: seq<Call>, key: string): Option<Id> {
    if calls == [] then None
    else
      var before := calls[..|calls| - 1];
      var s := After(before);
      match calls[|calls| - 1]
      case Add(_) => Latest(before, key)
      case Enter(id) =>
        if id in s.keyOf && s.keyOf[id] == key && id !in s.entered then Some(id) else Latest(before, key)
      case Leave(id) => if Latest(before, key) == Some(id) then None else Latest(before, key)
      case Cancel(k) => if k == key then None else Latest(before, key)
  }

  ghost predicate Sound(s: State) {
    && (forall id :: id in s.keyOf ==> 1 <= id <= s.gen)
    && s.entered <= s.keyOf.Keys && s.reg.fns <= s.entered && s.left <= s.entered && s.reg.fns !! s.left
    && (forall key :: key in s.reg.cancels ==>
          && s.reg.cancels[key] in s.reg.fns
          && s.reg.cancels[key] in s.keyOf && s.keyOf[s.reg.cancels[key]] == key)
  }

  lemma DoKeepsSound(s: State, call: Call)
    requires Sound(s)
    ensures Sound(Do(s, call))
  {
  }

  // In every reachable state ids are unique, a reachable id has its cancel function, and
  // it belongs to a warm of that key that has entered and not left.
  lemma {:induction false} SoundHolds(calls: seq<Call>)
    ensures Sound(After(calls))
  {
    if calls != [] {
      SoundHolds(calls[..|calls| - 1]);
      DoKeepsSound(After(calls[..|calls| - 1]), calls[|calls| - 1]);
    }
  }

  // cancelPrior fires the warm that entered last for its key, and nothing if that one has
  // left or been cancelled; which older warms it can therefore miss is said below.
  lemma {:induction false} CancelFiresLatest(calls: seq<Call>, key: string)
    ensures Fired(After(calls).reg, key) == Latest(calls, key)
    ensures key in After(calls).reg.cancels <==> Latest(calls, key).Some?
  {
    SoundHolds(calls);
    if calls != [] {
      var before := calls[..|calls| - 1];
      CancelFiresLatest(before, key);
      SoundHolds(before);
    }
  }

  // ---- When a registered warm is the one to fire ----

  // The k-th call registers a warm of the key.
  predicate Enters(calls: seq<Call>, k: nat, key: string, id: Id) {
    k < |calls| && calls[k] == Enter(id) && EntersNow(After(calls[..k]), calls[k], key)
  }

  ghost predicate EntersLater(calls: seq<Call>, k: nat, n: nat, key: string) {
    exists j: nat, id: Id :: k < j < n && Enters(calls, j, key, id)
  }

  lemma UpTo(calls: seq<Call>, n: nat)
    requires n < |calls|
    ensures After(calls[..n + 1]) == Do(After(calls[..n]), calls[n])
  {
    assert calls[..n + 1][..n] == calls[..n];
  }

  predicate EntersNow(s: State, call: Call, key: string) {
    call.Enter? && call.id in s.keyOf && s.keyOf[call.id] == key && call.id !in s.entered
  }

  // Where a warm stands that has entered for the key; `later` tells whether another has since.
  ghost predicate Tracks(s: State, key: string, id: Id, later: bool) {
    && id in s.entered && id in s.keyOf && s.keyOf[id] == key
    && if later then Fired(s.reg, key) != Some(id) else id in s.reg.fns ==> Fired(s.reg, key) == Some(id)
  }

  lemma EnterTracks(s: State, key: string, id: Id)
    requires EntersNow(s, Enter(id), key)
    ensures Tracks(Do(s, Enter(id)), key, id, false)
  {
  }

  lemma StepTracks(s: State, call: Call, key: string, id: Id, later: bool)
    requires Sound(s) && Tracks(s, key, id, later)
    ensures Tracks(Do(s, call), key, id, later || EntersNow(s, call, key))
  {
  }

  lemma {:induction false} NewestFires(calls: seq<Call>, k: nat, n: nat, key: string, id: Id)
    requires Enters(calls, k, key, id) && k < n <= |calls|
    ensures Tracks(After(calls[..n]), key, id, EntersLater(calls, k, n, key))
    decreases n
  {
    var before := After(calls[..n - 1]);
    UpTo(calls, n - 1);
    if k < n - 1 {
      NewestFires(calls, k, n - 1, key, id);
      SoundHolds(calls[..n - 1]);
      StepTracks(before, calls[n - 1], key, id, EntersLater(calls, k, n - 1, key));
      EntersLaterStep(calls, k, n - 1, key);
    } else {
      EnterTracks(before, key, id);
    }
  }

  lemma EntersLaterStep(calls: seq<Call>, k: nat, n: nat, key: string)
    requires k < n < |calls|
    ensures EntersLater(calls, k, n + 1, key) <==>
      EntersLater(calls, k, n, key) || EntersNow(After(calls[..n]), calls[n], key)
  {
    if EntersLater(calls, k, n + 1, key) {
      var j: nat, other: Id :| k < j < n + 1 && Enters(calls, j, key, other);
      if j < n { assert EntersLater(calls, k, n, key); }
    }
    if EntersLater(calls, k, n, key) {
      var j: nat, other: Id :| k < j < n && Enters(calls, j, key, other);
      assert k < j < n + 1 && Enters(calls, j, key, other);
    }
    if EntersNow(After(calls[..n]), calls[n], key) { assert Enters(calls, n, key, calls[n].id); }
  }

  // cancelPrior fires a warm that has entered exactly if its cancel function is still held
  // and no other warm has entered for the key since.
  lemma FiredIffNewest(calls: seq<Call>, k: nat, key: string, id: Id)
    requires Enters(calls, k, key, id)
    ensures Fired(After(calls).reg, key) == Some(id) <==>
      id in After(calls).reg.fns && !EntersLater(calls, k, |calls|, key)
  {
    assert calls[..|calls|] == calls;
    NewestFires(calls, k, |calls|, key, id);
  }

  predicate FiredAt(calls: seq<Call>, j: nat, id: Id) {
    j < |calls| && calls[j].Cancel? && Fired(After(calls[..j]).reg, calls[j].key) == Some(id)
  }

  lemma HeldStep(s: State, call: Call, id: Id)
    requires Sound(s) && id in s.entered
    ensures id in Do(s, call).left <==> id in s.left || call == Leave(id)
    ensures id in Do(s, call).reg.fns <==>
      id in s.reg.fns && call != Leave(id) && !(call.Cancel? && Fired(s.reg, call.key) == Some(id))
  {
  }

  // And the function of a warm that has entered is held until it leaves or is fired.
  lemma {:induction false} HeldUntilLeftOrFired(calls: seq<Call>, id: Id)
    requires id in After(calls).entered
    ensures id in After(calls).reg.fns <==> id !in After(calls).left && forall j: nat :: !FiredAt(calls, j, id)
  {
    var n := |calls| - 1;
    var before := calls[..n];
    SoundHolds(before);
    SoundHolds(calls);
    if id in After(before).entered { HeldStep(After(before), calls[n], id); }
    assert FiredAt(calls, n, id) <==> calls[n].Cancel? && Fired(After(before).reg, calls[n].key) == Some(id);
    forall j: nat | j < n ensures FiredAt(calls, j, id) <==> FiredAt(before, j, id) {
      assert calls[..j] == before[..j];
    }
    if id in After(before).entered {
      HeldUntilLeftOrFired(before, id);
    } else {
      forall j: nat | j < n ensures !FiredAt(before, j, id) { NotFiredBefore(before, j, id); }
    }
  }

  lemma NotFiredBefore(calls: seq<Call>, j: nat, id: Id)
    requires j < |calls| && id !in After(calls).entered
    ensures !FiredAt(calls, j, id)
  {
    SoundHolds(calls[..j]);
    EnteredGrows(calls, j);
  }

  lemma {:induction false} EnteredGrows(calls: seq<Call>, j: nat)
    requires j <= |calls|
    ensures After(calls[..j]).entered <= After(calls).entered
    decreases |calls|
  {
    if j == |calls| {
      assert calls[..j] == calls;
    } else {
      assert calls[..|calls| - 1][..j] == calls[..j];
      EnteredGrows(calls[..|calls| - 1], j);
    }
  }

  lemma Then(calls: seq<Call>, call: Call)
    ensures After(calls + [call]) == Do(After(calls), call)
  {
    assert (calls + [call])[..|calls|] == calls;
  }

  // Two warms of a key both cancel before either registers; once the later one has left,
  // the earlier one still runs and holds its function, and no cancel can reach it.
  lemma OrphanedWarm(key: string) returns (calls: seq<Call>)
    ensures var s := After(calls);
      && 1 in s.keyOf && s.keyOf[1] == key && 1 in s.reg.fns && 1 !in s.left && Fired(s.reg, key) == None
      && Do(s, Cancel(key)).reg == s.reg
  {
    var drawn := [] + [Cancel(key)] + [Cancel(key)] + [Add(key)] + [Add(key)];
    Then([], Cancel(key));
    Then([] + [Cancel(key)], Cancel(key));
    Then([] + [Cancel(key)] + [Cancel(key)], Add(key));
    Then([] + [Cancel(key)] + [Cancel(key)] + [Add(key)], Add(key));
    Then(drawn, Enter(1));
    Then(drawn + [Enter(1)], Enter(2));
    Then(drawn + [Enter(1)] + [Enter(2)], Leave(2));
    calls := drawn + [Enter(1)] + [Enter(2)] + [Leave(2)];
  }

  // A call, in state s, that neither ends this warm nor registers another one for its key.
  predicate Elsewhere(s: State, call: Call, key: string, id: Id) {
    match call
    case Add(_) => true
    case Enter(other) => other !in s.keyOf || s.keyOf[other] != key || other in s.entered
    case Leave(other) => other != id
    case Cancel(other) => other != key
  }

  lemma ElsewhereKeeps(s: State, call: Call, key: string, id: Id)
    requires Sound(s) && Fired(s.reg, key) == Some(id) && Elsewhere(s, call, key, id)
    ensures Fired(Do(s, call).reg, key) == Some(id)
  {
  }

  ghost predicate ElsewhereAt(calls: seq<Call>, rest: seq<Call>, i: nat, key: string, id: Id) {
    i < |rest| && Elsewhere(After(calls + rest[..i]), rest[i], key, id)
  }

  lemma {:induction false} KeptUpTo(calls: seq<Call>, rest: seq<Call>, n: nat, key: string, newer: Id)
    requires Fired(After(calls).reg, key) == Some(newer) && n <= |rest|
    requires forall i: nat :: i < n ==> ElsewhereAt(calls, rest, i, key, newer)
    ensures Fired(After(calls + rest[..n]).reg, key) == Some(newer)
    decreases n
  {
    if n == 0 {
      assert calls + rest[..n] == calls;
    } else {
      var before := calls + rest[..n - 1];
      KeptUpTo(calls, rest, n - 1, key, newer);
      assert ElsewhereAt(calls, rest, n - 1, key, newer);
      assert Sound(After(before)) by { SoundHolds(before); }
      ElsewhereKeeps(After(before), rest[n - 1], key, newer);
      assert calls + rest[..n] == before + [rest[n - 1]];
      Then(before, rest[n - 1]);
    }
  }

  // The newest warm of a key stays the one to fire however many replaced warms leave late
  // and whatever happens to other keys.
  lemma StaleLeavesKeepNewer(calls: seq<Call>, rest: seq<Call>, key: string, newer: Id)
    requires Fired(After(calls).reg, key) == Some(newer)
    requires forall i: nat :: i < |rest| ==> ElsewhereAt(calls, rest, i, key, newer)
    ensures Fired(After(calls + rest).reg, key) == Some(newer)
  {
    KeptUpTo(calls, rest, |rest|, key, newer);
    assert rest[..|rest|] == rest;
  }

  // Once fired, a warm is not fired again.
  lemma {:induction false} FiredOnce(calls: seq<Call>, rest: seq<Call>, key: string, k: string)
    requires Fired(After(calls).reg, key).Some?
    ensures var id := Fired(After(calls).reg, key).value; Fired(After(calls + [Cancel(key)] + rest).reg, k) != Some(id)
    ensures var id := Fired(After(calls).reg, key).value;
      var s := After(calls + [Cancel(key)] + rest); id !in s.reg.fns && id in s.entered
  {
    SoundHolds(calls);
    var id := Fired(After(calls).reg, key).value;
    var all := calls + [Cancel(key)] + rest;
    SoundHolds(all);
    if rest == [] {
      assert all[..|all| - 1] == calls;
    } else {
      var r := rest[..|rest| - 1];
      assert all[..|all| - 1] == calls + [Cancel(key)] + r;
      FiredOnce(calls, r, key, k);
    }
  }

  // ---- The registry as the package variables ----

  class WarmCancels {
    var cancels: map<string, Id>
    var cancelFns: map<Id, Id>   // the function value is represented by its id
    var gen: Id
    ghost var fired: seq<Id>     // every call of a cancel function, in order

    constructor ()
      ensures View() == Registry(map[], {}) && gen == 0 && fired == []
    {
      cancels, cancelFns, gen, fired := map[], map[], 0, [];
    }

    ghost function View(): Registry
      reads this
    {
      Registry(cancels, cancelFns.Keys)
    }

    method CancelPriorEcdsaWarm(sessionKey: string)
      modifies this
      ensures View() == CancelPrior(old(View()), sessionKey) && gen == old(gen)
      ensures fired == old(fired) + match Fired(old(View()), sessionKey) case Some(id) => [id] case None => []
    {
      if sessionKey in cancels {
        var id := cancels[sessionKey];
        if id in cancelFns {
          fired := fired + [id];
          cancelFns := cancelFns - {id};
        }
        cancels := cancels - {sessionKey};
      }
    }

    // ecdsaWarmCancelGen.Add(1), before the lock
    method NextId() returns (id: Id)
      modifies this
      ensures id == gen == old(gen) + 1 && View() == old(View()) && fired == old(fired)
    {
      gen := gen + 1;
      return gen;
    }

    method RegisterLocked(sessionKey: string, id: Id)
      modifies this
      ensures View() == Register(old(View()), sessionKey, id) && gen == old(gen) && fired == old(fired)
    {
      cancels := cancels[sessionKey := id];
      cancelFns := cancelFns[id := id];
    }

    method UnregisterEcdsaWarmCancel(sessionKey: string, id: Id)
      modifies this
      ensures View() == Unregister(old(View()), sessionKey, id) && gen == old(gen) && fired == old(fired)
    {
      if sessionKey in cancels && cancels[sessionKey] == id {
        cancels := cancels - {sessionKey};
      }
      cancelFns := cancelFns - {id};
    }
  }
}
