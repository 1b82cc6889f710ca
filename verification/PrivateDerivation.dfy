/**
 The private side of the derivation, level by level: BIP 32, section "Private parent key ->
 private child key", with the tweak rule of each curve.  It is written out on its own, and
 public derivation, which only sums deltas, is shown to reach the public key of its result.
 */
module PrivateDerivation {
  import opened Wrappers
  import opened Bytes
  import opened CurveGroup
  import opened Derivation
  import opened Modular

  datatype PrivateKey = PrivateKey(k: nat, cc: Bytes32)

  // The child private key is the parent's plus the left half of the MAC over the parent's
  // public key and the index; the right half is the child's chain code.
  function PrivateChild(c: Curve, parent: PrivateKey, index: u32): Option<PrivateKey>
    requires c.group.n > 0
  {
    var n := c.group.n;
    var enc := c.encode(Times(c.group, parent.k, c.group.gen));
    if index >= 0x8000_0000 || enc == None then None
    else
      var mac := c.hmac512(parent.cc, enc.value + Ser32(index));
      var left := Value(mac[..32]);
      var chainCode: Bytes32 := mac[32..];
      if c.rule == Bip32 && left >= n then None
      else if c.rule == Edwards && left % n == 0 then None
      else Some(PrivateKey((parent.k + left) % n, chainCode))
  }

  function PrivateSteps(c: Curve, parent: PrivateKey, path: seq<u32>): Option<PrivateKey>
    requires c.group.n > 0
    decreases |path|
  {
    if path == [] then Some(parent)
    else
      match PrivateChild(c, parent, path[0])
      case None => None
      case Some(child) => PrivateSteps(c, child, path[1..])
  }

  // The walk is at the public key of `key`, which is the root key plus the walk's delta.
  ghost predicate Matches(c: Curve, root: nat, w: Walk, key: PrivateKey)
    requires c.group.n > 0
  {
    w.cc == key.cc && w.pub == Times(c.group, key.k, c.group.gen) && key.k == (root + w.delta) % c.group.n
  }

  lemma ChildMatches(c: Curve, root: nat, w: Walk, key: PrivateKey, index: u32)
    requires Laws(c.group) && Matches(c, root, w, key)
    ensures PrivateChild(c, key, index).Some? <==> Step(c, w, index).Ok?
    ensures Step(c, w, index).Ok? ==> Matches(c, root, Step(c, w, index).value, PrivateChild(c, key, index).value)
  {
    if index < HARDENED && c.encode(w.pub).Some? {
      var mac := c.hmac512(w.cc, c.encode(w.pub).value + Ser32(index));
      assert Pad32(mac[..32]) == mac[..32];
      if Hop(c, w.pub, w.cc, index).Ok? {
        var il := Hop(c, w.pub, w.cc, index).value.delta;
        TweakedKey(c.group, key.k, Value(mac[..32]), il);
        AddAssociates(root, w.delta, il, c.group.n);
      }
    }
  }

  lemma TweakedKey(g: Group, k: nat, left: nat, il: nat)
    requires Laws(g) && (il == left || il == left % g.n)
    ensures (k + left) % g.n == (k + il) % g.n
    ensures Times(g, (k + left) % g.n, g.gen) == g.add(Times(g, k, g.gen), Times(g, il, g.gen))
  {
    AddMod(k, left, g.n);
    TimesAdd(g, k, il, g.gen);
    TimesMod(g, k + il);
  }

  lemma {:induction false} StepsMatch(c: Curve, root: nat, w: Walk, key: PrivateKey, path: seq<u32>)
    requires Laws(c.group) && Matches(c, root, w, key)
    ensures PrivateSteps(c, key, path).Some? <==> Steps(c, w, path).Ok?
    ensures Steps(c, w, path).Ok? ==> Matches(c, root, Steps(c, w, path).value, PrivateSteps(c, key, path).value)
    decreases |path|
  {
    if path != [] {
      ChildMatches(c, root, w, key, path[0]);
      if Step(c, w, path[0]).Ok? {
        StepsMatch(c, root, Step(c, w, path[0]).value, PrivateChild(c, key, path[0]).value, path[1..]);
      }
    }
  }

  // Deriving the private key level by level and summing deltas on the public side succeed
  // together, and reach the same key: root + delta, its point, and its chain code.
  lemma PrivateMeetsPublic(c: Curve, root: nat, chainCode: Bytes32, path: seq<u32>)
    requires Laws(c.group) && root < c.group.n
    ensures var key := PrivateSteps(c, PrivateKey(root, chainCode), path);
      var walk := Steps(c, Walk(0, Times(c.group, root, c.group.gen), chainCode), path);
      && (key.Some? <==> walk.Ok?)
      && (key.Some? ==> && key.value.k == (root + walk.value.delta) % c.group.n
                        && walk.value.pub == Times(c.group, key.value.k, c.group.gen)
                        && walk.value.cc == key.value.cc)
  {
    Remainder(root, 0, root, c.group.n);
    StepsMatch(c, root, Walk(0, Times(c.group, root, c.group.gen), chainCode), PrivateKey(root, chainCode), path);
  }
}
