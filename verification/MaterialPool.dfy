/**
 The pool of sign material as objects.  Committing and clearing overwrite the replaced
 material in place; `handed` collects every result an acquisition has returned, and the
 invariant keeps those apart from everything the pool can still overwrite.
 */
module MaterialPool {
  import opened Wrappers
  import opened RefreshMaterial
  import Accounting = MaterialAccounting

  type Time = Accounting.Time

  class Slot {
    const result: RefreshResult
    var uses: nat
    const createdAt: Time

    constructor (result: RefreshResult, createdAt: Time)
      ensures this.result == result && uses == 0 && this.createdAt == createdAt
    {
      this.result, this.uses, this.createdAt := result, 0, createdAt;
    }
  }

  class Buffer {
    var active: Slot?
    var warmPending: bool

    constructor ()
      ensures active == null && !warmPending
    {
      active, warmPending := null, false;
    }
  }

  // What the buffer's methods may write.
  function Footprint(b: Buffer): set<object>
    reads b
  {
    {b} + (if b.active == null then {} else {b.active} + Secrets(b.active.result))
  }

  ghost predicate BufferOk(lib: Library, b: Buffer)
    reads Footprint(b)
  {
    b.active != null ==> Clonable(lib, b.active.result)
  }

  ghost function BufferValue(lib: Library, b: Buffer): Accounting.Buffer
    reads Footprint(b)
    requires BufferOk(lib, b)
  {
    Accounting.Buffer(
      if b.active == null then None
      else Some(Accounting.Slot(ValueOf(b.active.result), b.active.uses, b.active.createdAt)),
      b.warmPending)
  }

  datatype Acquisition = Acquisition(result: RefreshResult, needWarm: bool, useCount: nat, tier: Accounting.Tier)

  const NOT_READY := "ecdsa: sign material not ready"
  const EXHAUSTED := "ecdsa: sign material exhausted"

  // Used-up material is reported as such even when it has also expired.
  function Refusal(before: Accounting.Buffer): string {
    if before.active.Some? && before.active.value.uses >= Accounting.MAX_USES then EXHAUSTED else NOT_READY
  }

  // Over any calls, a refused acquisition reports exhausted material exactly if 64 acquisitions
  // of the material committed last have succeeded, and else that none is ready.
  lemma RefusalTold(calls: seq<Accounting.Call>, i: nat, key: string)
    requires i < |calls| && calls[i].Acquire? && calls[i].key == key && !Accounting.Succeeds(calls, i, key)
    ensures Refusal(Accounting.Get(Accounting.After(calls[..i]), key)) ==
      if Accounting.Committed(calls, i, key).Some? && Accounting.SuccessesSince(calls, i, key) == 64
      then "ecdsa: sign material exhausted" else "ecdsa: sign material not ready"
  {
    Accounting.BufferIsHistory(calls, i, key);
  }

  // What an acquisition hands out, told from the buffer before it.
  ghost predicate HandsOut(lib: Library, out: Acquisition, before: Accounting.Buffer, now: Time)
    reads Secrets(out.result)
    requires before.active.Some?
  {
    && Clonable(lib, out.result) && ValueOf(out.result) == before.active.value.material
    && out.needWarm == Accounting.NeedsWarm(before, now)
    && out.useCount == before.active.value.uses + 1
    && out.tier == Accounting.TierForCount(out.useCount)
  }

  // The part of Acquire inside the buffer's lock.
  method UseOnce(lib: Library, b: Buffer, now: Time) returns (out: Result<Acquisition>)
    requires BufferOk(lib, b)
    modifies b`warmPending, if b.active == null then {} else {b.active}
    ensures BufferOk(lib, b) && b.active == old(b.active)
    ensures out.Ok? <==> Accounting.SlotValid(old(BufferValue(lib, b)), now)
    ensures BufferValue(lib, b) == Accounting.Acquired(old(BufferValue(lib, b)), now)
    ensures out.Ok? ==> fresh(out.value.result) && fresh(Secrets(out.value.result))
    ensures out.Ok? ==> HandsOut(lib, out.value, old(BufferValue(lib, b)), now)
    ensures out.Err? ==> out.error == Refusal(old(BufferValue(lib, b)))
  {
    var active := b.active;
    if active == null || now - active.createdAt > Accounting.TTL || active.uses >= Accounting.MAX_USES {
      return Err(if active != null && active.uses >= Accounting.MAX_USES then EXHAUSTED else NOT_READY);
    }
    var cloned := CloneRefreshResult(lib, active.result);
    active.uses := active.uses + 1;
    var needWarm := active.uses >= Accounting.WARM_THRESHOLD && !b.warmPending;
    if needWarm { b.warmPending := true; }
    return Ok(Acquisition(cloned, needWarm, active.uses, Accounting.TierForCount(active.uses)));
  }

  // The part of CommitWarm inside the buffer's lock: the old secrets are zeroed, and a new slot
  // with the clone takes their place.
  method ReplaceSlot(lib: Library, b: Buffer, cloned: RefreshResult, now: Time)
    requires Clonable(lib, cloned) && Secrets(cloned) !! Footprint(b)
    modifies b, if b.active == null then {} else Secrets(b.active.result)
    ensures b.active != null && fresh(b.active) && b.active.result == cloned && BufferOk(lib, b)
    ensures BufferValue(lib, b) == Accounting.Buffer(Some(Accounting.Slot(old(ValueOf(cloned)), 0, now)), false)
    ensures old(b.active) != null ==> forall x :: x in Secrets(old(b.active).result) ==> x.v == 0
  {
    if b.active != null {
      ZeroRefreshResult(b.active.result);
    }
    b.active := new Slot(cloned, now);
    b.warmPending := false;
  }

  function AllSecrets(results: set<RefreshResult>): set<BigInt> {
    set r, x | r in results && x in Secrets(r) :: x
  }

  // The loop of Clear, over the results the buffers hold.
  method ZeroAll(results: set<RefreshResult>)
    modifies AllSecrets(results)
    ensures forall x :: x in AllSecrets(results) ==> x.v == 0
  {
    var left := results;
    ghost var zeroed: set<BigInt> := {};
    while left != {}
      invariant left <= results
      invariant forall r :: r in results && r !in left ==> Secrets(r) <= zeroed
      invariant forall x :: x in zeroed ==> x.v == 0
      decreases |left|
    {
      var r :| r in left;
      left := left - {r};
      ZeroRefreshResult(r);
      zeroed := zeroed + Secrets(r);
    }
  }

  class SignMaterialPool {
    const lib: Library
    var buffers: map<string, Buffer>
    ghost var Repr: set<object>
    ghost var handed: set<RefreshResult>
    ghost var handedRepr: set<object>

    ghost predicate Valid()
      reads this, Repr
    {
      && this !in Repr && this !in handedRepr && Repr !! handedRepr
      && (forall k :: k in buffers ==> Owned(buffers[k]))
      && (forall k, l, o ::
            k in buffers && l in buffers && o in Footprint(buffers[k]) && o in Footprint(buffers[l]) ==> k == l)
      && (forall r :: r in handed ==> Complete(r) && Secrets(r) <= handedRepr)
    }

    ghost predicate Owned(b: Buffer)
      reads this, Repr
    {
      b in Repr && (b.active != null ==> b.active in Repr) && Footprint(b) <= Repr && BufferOk(lib, b)
    }

    // The abstract pool: a key without a buffer has no material.
    ghost function View(key: string): Accounting.Buffer
      reads this, if key in buffers then Footprint(buffers[key]) else {}
      requires key in buffers ==> BufferOk(lib, buffers[key])
    {
      if key in buffers then BufferValue(lib, buffers[key]) else Accounting.NO_MATERIAL
    }

    // The secrets a key's buffer holds.
    function ActiveSecrets(key: string): set<BigInt>
      reads this, if key in buffers then {buffers[key]} else {}
    {
      if key in buffers && buffers[key].active != null then Secrets(buffers[key].active.result) else {}
    }

    // The results the pool still signs with.
    function Active(): set<RefreshResult>
      reads this, buffers.Values
    {
      set k | k in buffers && buffers[k].active != null :: buffers[k].active.result
    }

    constructor (lib: Library)
      ensures this.lib == lib && Valid() && fresh(Repr)
      ensures handed == {} && handedRepr == {} && forall k :: View(k) == Accounting.NO_MATERIAL
    {
      this.lib := lib;
      buffers, Repr, handed, handedRepr := map[], {}, {}, {};
    }

    // buffer(materialKey): the key's buffer, made when missing.
    method BufferOf(key: string) returns (b: Buffer)
      requires Valid()
      modifies `buffers, `Repr
      ensures Valid() && key in buffers && buffers[key] == b
      ensures key in old(buffers) ==> buffers == old(buffers) && Repr == old(Repr)
      ensures key !in old(buffers) ==> fresh(b) && buffers == old(buffers)[key := b] && Repr == old(Repr) + {b}
      ensures Footprint(b) == if key in old(buffers) then old(Footprint(buffers[key])) else {b}
      ensures fresh(Repr - old(Repr))
      ensures forall k :: View(k) == old(View(k))
    {
      if key in buffers {
        return buffers[key];
      }
      b := new Buffer();
      buffers := buffers[key := b];
      Repr := Repr + {b};
    }

    // A step on one buffer that leaves alone the other buffers' objects and everything handed
    // out before, and adds no object the pool had.
    twostate predicate OnlyTouches(key: string)
      requires old(key in buffers)
      reads *
    {
      && buffers == old(buffers) && this !in Repr && old(Repr) <= Repr && Owned(buffers[key])
      && (forall o :: o in Footprint(buffers[key]) && o !in old(Footprint(buffers[key])) ==> o !in old(Repr))
      && (forall o :: o in Repr - old(Repr) ==> o in Footprint(buffers[key]))
      && (forall o :: o in old(Repr) - old(Footprint(buffers[key])) ==> unchanged(o))
      && (forall o :: o in old(handedRepr) ==> unchanged(o))
      && this !in handedRepr && Repr !! handedRepr && old(handed) <= handed
      && (forall r :: r in handed ==> Complete(r) && Secrets(r) <= handedRepr)
    }

    // Such a step keeps the pool valid, the other keys' material and what was handed out.
    twostate lemma OtherKeysKept(key: string)
      requires old(Valid()) && old(key in buffers) && OnlyTouches(key)
      ensures Valid()
      ensures forall k :: k != key ==> View(k) == old(View(k))
      ensures forall r :: r in old(handed) ==> ValueOf(r) == old(ValueOf(r))
    {
      forall k | k in buffers && k != key
        ensures Footprint(buffers[k]) == old(Footprint(buffers[k])) && Owned(buffers[k])
        ensures BufferValue(lib, buffers[k]) == old(BufferValue(lib, buffers[k]))
      {
        assert old(Owned(buffers[k]));
        assert forall o :: o in old(Footprint(buffers[k])) ==> o in old(Repr) - old(Footprint(buffers[key]));
      }
    }

    // The part of Acquire that holds the buffer's lock.
    method AcquireFrom(key: string, now: Time) returns (out: Result<Acquisition>)
      requires key in buffers && Owned(buffers[key]) && this !in Repr && this !in handedRepr && Repr !! handedRepr
      requires forall r :: r in handed ==> Complete(r) && Secrets(r) <= handedRepr
      modifies `handed, `handedRepr, Footprint(buffers[key])
      ensures OnlyTouches(key) && Repr == old(Repr)
      ensures out.Ok? <==> Accounting.SlotValid(old(View(key)), now)
      ensures View(key) == Accounting.Acquired(old(View(key)), now)
      ensures out.Ok? ==> fresh(out.value.result) && fresh(Secrets(out.value.result))
      ensures out.Ok? ==> HandsOut(lib, out.value, old(View(key)), now)
      ensures out.Err? ==> out.error == Refusal(old(View(key)))
      ensures handed == old(handed) + (if out.Ok? then {out.value.result} else {})
    {
      out := UseOnce(lib, buffers[key], now);
      if out.Ok? { HandOut(out.value.result); }
    }

    ghost method HandOut(r: RefreshResult)
      modifies `handed, `handedRepr
      ensures handed == old(handed) + {r} && handedRepr == old(handedRepr) + Secrets(r)
    {
      handed := handed + {r};
      handedRepr := handedRepr + Secrets(r);
    }

    method Acquire(key: string, now: Time) returns (out: Result<Acquisition>)
      requires Valid()
      modifies this, if key in buffers then Footprint(buffers[key]) else {}
      ensures Valid() && fresh(Repr - old(Repr))
      ensures forall r :: r in old(handed) ==> ValueOf(r) == old(ValueOf(r))
      ensures out.Ok? <==> Accounting.SlotValid(old(View(key)), now)
      ensures View(key) == Accounting.Acquired(old(View(key)), now)
      ensures forall k :: k != key ==> View(k) == old(View(k))
      ensures out.Ok? ==> fresh(out.value.result) && fresh(Secrets(out.value.result))
      ensures out.Ok? ==> HandsOut(lib, out.value, old(View(key)), now)
      ensures out.Err? ==> out.error == Refusal(old(View(key)))
      ensures handed == old(handed) + (if out.Ok? then {out.value.result} else {})
    {
      var b := BufferOf(key);
      label Found:
      out := AcquireFrom(key, now);
      OtherKeysKept@Found(key);
    }

    // CommitWarm: material the library cannot rebuild changes nothing; otherwise the key gets
    // a clone, unused, and the replaced secrets are zeroed.
    method CommitWarm(key: string, result: RefreshResult?, now: Time) returns (ok: bool)
      requires Valid()
      modifies this, if key in buffers then Footprint(buffers[key]) else {}
      ensures Valid() && handed == old(handed) && fresh(Repr - old(Repr))
      ensures forall r :: r in old(handed) ==> ValueOf(r) == old(ValueOf(r))
      ensures ok <==> result != null && old(Clonable(lib, result))
      ensures !ok ==> View(key) == old(View(key))
      ensures ok ==> View(key) == Accounting.Buffer(Some(Accounting.Slot(old(ValueOf(result)), 0, now)), false)
      ensures ok ==> key in buffers && buffers[key].active != null && fresh(buffers[key].active.result)
      ensures ok ==> forall x :: x in old(ActiveSecrets(key)) ==> x.v == 0
      ensures forall k :: k != key ==> View(k) == old(View(k))
    {
      var cloned := CloneRefreshResult(lib, result);
      if cloned == null { return false; }
      Install(key, cloned, now);
      return true;
    }

    // What CommitWarm does once it has its clone.
    method Install(key: string, cloned: RefreshResult, now: Time)
      requires Valid() && Clonable(lib, cloned) && Secrets(cloned) !! Repr && Secrets(cloned) !! handedRepr
      modifies this, if key in buffers then Footprint(buffers[key]) else {}
      ensures Valid() && handed == old(handed) && fresh(Repr - old(Repr) - Secrets(cloned))
      ensures forall r :: r in handed ==> ValueOf(r) == old(ValueOf(r))
      ensures View(key) == Accounting.Buffer(Some(Accounting.Slot(old(ValueOf(cloned)), 0, now)), false)
      ensures key in buffers && buffers[key].active != null && buffers[key].active.result == cloned
      ensures forall x :: x in old(ActiveSecrets(key)) ==> x.v == 0
      ensures forall k :: k != key ==> View(k) == old(View(k))
    {
      var b := BufferOf(key);
      Replace(key, cloned, now);
    }

    // And once it has the buffer.
    method Replace(key: string, cloned: RefreshResult, now: Time)
      requires Valid() && key in buffers
      requires Clonable(lib, cloned) && Secrets(cloned) !! Repr && Secrets(cloned) !! handedRepr
      modifies `Repr, Footprint(buffers[key])
      ensures Valid() && fresh(Repr - old(Repr) - Secrets(cloned))
      ensures forall r :: r in handed ==> ValueOf(r) == old(ValueOf(r))
      ensures View(key) == Accounting.Buffer(Some(Accounting.Slot(old(ValueOf(cloned)), 0, now)), false)
      ensures buffers[key].active != null && buffers[key].active.result == cloned
      ensures forall x :: x in old(ActiveSecrets(key)) ==> x.v == 0
      ensures forall k :: k != key ==> View(k) == old(View(k))
    {
      CommitTo(key, cloned, now);
      OtherKeysKept(key);
    }

    // The part of CommitWarm that holds the buffer's lock.
    method CommitTo(key: string, cloned: RefreshResult, now: Time)
      requires key in buffers && Owned(buffers[key]) && this !in Repr && this !in handedRepr && Repr !! handedRepr
      requires forall r :: r in handed ==> Complete(r) && Secrets(r) <= handedRepr
      requires Clonable(lib, cloned) && Secrets(cloned) !! Repr && Secrets(cloned) !! handedRepr
      modifies `Repr, Footprint(buffers[key])
      ensures OnlyTouches(key) && fresh(Repr - old(Repr) - Secrets(cloned))
      ensures View(key) == Accounting.Buffer(Some(Accounting.Slot(old(ValueOf(cloned)), 0, now)), false)
      ensures buffers[key].active != null && buffers[key].active.result == cloned
      ensures forall x :: x in old(ActiveSecrets(key)) ==> x.v == 0
    {
      ReplaceSlot(lib, buffers[key], cloned, now);
      Repr := Repr + {buffers[key].active} + Secrets(cloned);
    }

    method MarkWarmFailed(key: string)
      requires Valid()
      modifies this, if key in buffers then {buffers[key]} else {}
      ensures Valid() && handed == old(handed) && fresh(Repr - old(Repr))
      ensures forall r :: r in handed ==> ValueOf(r) == old(ValueOf(r))
      ensures View(key) == old(View(key)).(warmPending := false)
      ensures forall k :: k != key ==> View(k) == old(View(k))
    {
      var b := BufferOf(key);
      Settle(key);
    }

    method Settle(key: string)
      requires Valid() && key in buffers
      modifies {buffers[key]}
      ensures Valid()
      ensures forall r :: r in handed ==> ValueOf(r) == old(ValueOf(r))
      ensures View(key) == old(View(key)).(warmPending := false)
      ensures forall k :: k != key ==> View(k) == old(View(k))
    {
      var b := buffers[key];
      b.warmPending := false;
      OtherKeysKept(key);
    }

    method HasReady(key: string, now: Time) returns (ready: bool)
      requires Valid()
      modifies `buffers, `Repr
      ensures Valid() && fresh(Repr - old(Repr)) && forall k :: View(k) == old(View(k))
      ensures ready <==> Accounting.SlotValid(View(key), now)
    {
      var b := BufferOf(key);
      var active := b.active;
      return active != null && now - active.createdAt <= Accounting.TTL && active.uses < Accounting.MAX_USES;
    }

    // Clear: every replaced secret is zeroed and no key has material.
    method Clear()
      requires Valid()
      modifies this, Repr
      ensures Valid() && handed == old(handed) && Repr == {}
      ensures forall r :: r in old(handed) ==> ValueOf(r) == old(ValueOf(r))
      ensures forall k :: View(k) == Accounting.NO_MATERIAL
      ensures forall x :: x in AllSecrets(old(Active())) ==> x.v == 0
    {
      assert AllSecrets(Active()) <= Repr by {
        assert forall k :: k in buffers ==> Owned(buffers[k]);
      }
      ZeroAll(Active());
      buffers, Repr := map[], {};
    }
  }

  // What was handed out is unaffected by what the pool does next.
  method HandedOutlivesPool(pool: SignMaterialPool, key: string, warm: RefreshResult?, now: Time)
    requires pool.Valid()
    modifies pool, pool.Repr
    ensures pool.Valid() && pool.handed == old(pool.handed)
    ensures forall r :: r in old(pool.handed) ==> ValueOf(r) == old(ValueOf(r))
  {
    assert key in pool.buffers ==> pool.Owned(pool.buffers[key]);
    var _ := pool.CommitWarm(key, warm, now);
    pool.Clear();
  }

  // An acquired result has the material the pool had, whatever is committed and cleared
  // afterwards.
  method AcquiredOutlivesPool(pool: SignMaterialPool, key: string, warm: RefreshResult?, now: Time)
      returns (out: Result<Acquisition>)
    requires pool.Valid() && Accounting.SlotValid(pool.View(key), now)
    modifies pool, pool.Repr
    ensures out.Ok? && Complete(out.value.result)
    ensures ValueOf(out.value.result) == old(pool.View(key)).active.value.material
  {
    assert key in pool.buffers ==> pool.Owned(pool.buffers[key]);
    out := pool.Acquire(key, now);
    assert out.value.result in pool.handed;
    HandedOutlivesPool(pool, key, warm, now);
  }
}
