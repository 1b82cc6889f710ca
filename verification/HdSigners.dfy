/**
 How the signers reach the key of an address: the single-key signer adds delta to the root
 private key, a threshold signer adds it to its share and delta times the base point to the
 partial public keys.  All are compared with the key the address layer publishes.
 */
module HdSigners {
  import opened Wrappers
  import opened Bytes
  import opened CurveGroup
  import opened Derivation
  import opened HdLayers
  import opened Modular
  import HdPath

  datatype Adjusted = Adjusted(share: nat, childPub: Point, delta: nat)

  // ---- secp256k1 ----

  function ChildPrivateKeyECDSA(lib: Library, g: Group, rootSk: Option<int>, rootPubHex: string, keyID: string,
                                path: Path): Result<nat>
    requires g.n > 0
  {
    if rootSk == None then Err("nil root private key")
    else
      match RootPubHexToECDSA(rootPubHex)
      case Err(e) => Err(e)
      case Ok(root) =>
        match AddressWalk(lib, Secp256k1(g, lib.hmac512), root, keyID, path)
        case Err(e) => Err(e)
        case Ok(w) =>
          var child := (rootSk.value + w.delta) % g.n;
          if child == 0 then Err("invalid child private key") else Ok(child)
  }

  // The affine pair (0, 0) that stands for the identity is not on the curve, so NewECPoint
  // refuses it.
  function NewECPoint(g: Group, p: Point): Option<Point> {
    if g.has(p) && p != g.zero then Some(p) else None
  }

  function AdjustShareECDSA(lib: Library, g: Group, share: Option<int>, rootPub: Option<Point>, keyID: string,
                            path: Path): Result<Adjusted>
    requires g.n > 0
  {
    if share == None || rootPub == None then Err("nil share or pubkey")
    else
      match AddressWalk(lib, Secp256k1(g, lib.hmac512), rootPub.value, keyID, path)
      case Err(e) => Err(e)
      case Ok(w) =>
        match NewECPoint(g, w.pub)
        case None => Err("invalid point")
        case Some(child) => Ok(Adjusted((share.value + w.delta) % g.n, child, w.delta))
  }

  // ---- Ed25519 ----

  function ChildPrivateKeyEd25519(lib: Library, g: Group, ed: Codec, rootSk: Option<int>, rootPubHex: string,
                                  keyID: string, path: Path): Result<nat>
    requires g.n > 0
  {
    if rootSk == None then Err("nil root private key")
    else
      match DeriveEd25519(g, ed, lib.hmac512, rootPubHex, ChainCodeFromKeyID(lib, keyID),
                          PathFromAccountAndAddress(path))
      case Err(e) => Err(e)
      case Ok(w) =>
        var child := (rootSk.value + w.delta) % g.n;
        if child == 0 then Err("invalid child private key") else Ok(child)
  }

  function AdjustShareEd25519(lib: Library, g: Group, ed: Codec, share: Option<int>, rootPub: Option<Point>,
                              keyID: string, path: Path): Result<Adjusted>
    requires g.n > 0
  {
    if share == None || rootPub == None then Err("nil share or pubkey")
    else
      match Encode(g, ed, rootPub.value)
      case None => Err("identity point")
      case Some(root) =>
        match DeriveEd25519(g, ed, lib.hmac512, HexEncode(root), ChainCodeFromKeyID(lib, keyID),
                            PathFromAccountAndAddress(path))
        case Err(e) => Err(e)
        case Ok(w) =>
          match ParseEd25519(ed, HexEncode(ed.serialize(w.pub)))
          case Err(e) => Err(e)
          case Ok(child) => Ok(Adjusted((share.value + w.delta) % g.n, child, w.delta))
  }

  // ---- Partial public keys ----

  // What adjusting by delta does to every entry.
  ghost predicate AdjustedBy(g: Group, before: map<string, Option<Point>>, delta: nat,
                             after: map<string, Option<Point>>)
  {
    if delta == 0 then after == before
    else
      && after.Keys == before.Keys
      && forall id :: id in before ==>
           before[id].Some? && after[id] == Some(g.add(before[id].value, Times(g, delta, g.gen)))
  }

  method AdjustPartialPubsForDelta(g: Group, partialPub: map<string, Option<Point>>, delta: Option<nat>)
      returns (r: Result<map<string, Option<Point>>>)
    ensures delta == None ==> r == Ok(partialPub)
    ensures delta.Some? ==>
      (r.Ok? <==> delta.value == 0 || forall id :: id in partialPub ==> partialPub[id].Some?)
    ensures delta.Some? && r.Ok? ==> AdjustedBy(g, partialPub, delta.value, r.value)
  {
    if delta == None || delta.value == 0 { return Ok(partialPub); }
    if |partialPub| == 0 { return Ok(partialPub); }
    var deltaG := Times(g, delta.value, g.gen);
    var out: map<string, Option<Point>> := map[];
    var ids := partialPub.Keys;
    while ids != {}
      invariant ids <= partialPub.Keys && out.Keys == partialPub.Keys - ids
      invariant forall id :: id in out ==> partialPub[id].Some? && out[id] == Some(g.add(partialPub[id].value, deltaG))
      decreases |ids|
    {
      var id :| id in ids;
      ids := ids - {id};
      if partialPub[id] == None { return Err("nil partial pub"); }
      out := out[id := Some(g.add(partialPub[id].value, deltaG))];
    }
    return Ok(out);
  }

  // ---- Agreement with the published address ----

  // The root key of a stored private key, as the key store checks on loading.
  ghost predicate RootOf(g: Group, sk: nat, root: Point) {
    0 < sk < g.n && root == Times(g, sk, g.gen)
  }

  // Adding delta to a private key or share adds delta times the base point to its public
  // key, and the sum is zero exactly at the identity.
  lemma ShiftedKey(g: Group, sk: nat, delta: nat)
    requires Laws(g)
    ensures Times(g, (sk + delta) % g.n, g.gen) == g.add(Times(g, sk, g.gen), Times(g, delta, g.gen))
    ensures (sk + delta) % g.n == 0 <==> g.add(Times(g, sk, g.gen), Times(g, delta, g.gen)) == g.zero
  {
    TimesAdd(g, sk, delta, g.gen);
    TimesMod(g, sk + delta);
    TimesIsZero(g, sk + delta);
  }

  // The key a path leads to is (sk + delta) times the base point.
  lemma WalkKey(lib: Library, c: Curve, sk: nat, root: Point, keyID: string, path: Path)
    requires Laws(c.group) && RootOf(c.group, sk, root)
    ensures var walk := AddressWalk(lib, c, root, keyID, path);
      walk.Ok? ==>
        && c.group.has(walk.value.pub)
        && walk.value.pub == Times(c.group, (sk + walk.value.delta) % c.group.n, c.group.gen)
        && ((sk + walk.value.delta) % c.group.n == 0 <==> walk.value.pub == c.group.zero)
  {
    TimesIn(c.group, sk, c.group.gen);
    ChildIsRootPlusDelta(c, root, ChainCodeFromKeyID(lib, keyID), PathFromAccountAndAddress(path));
    var walk := AddressWalk(lib, c, root, keyID, path);
    if walk.Ok? { ShiftedKey(c.group, sk, walk.value.delta); }
  }

  lemma SingleSignsIff(lib: Library, g: Group, sk: nat, rootPubHex: string, root: Point, keyID: string, path: Path)
    requires Laws(g) && RootOf(g, sk, root) && RootPubHexToECDSA(rootPubHex) == Ok(root)
    ensures var walk := AddressWalk(lib, Secp256k1(g, lib.hmac512), root, keyID, path);
      var single := ChildPrivateKeyECDSA(lib, g, Some(sk), rootPubHex, keyID, path);
      && (single.Ok? <==> walk.Ok? && walk.value.pub != g.zero)
      && (single.Ok? ==> RootOf(g, single.value, walk.value.pub))
  {
    WalkKey(lib, Secp256k1(g, lib.hmac512), sk, root, keyID, path);
  }

  lemma ThresholdSignsIff(lib: Library, g: Group, sk: nat, root: Point, share: int, keyID: string, path: Path)
    requires Laws(g) && RootOf(g, sk, root)
    ensures var walk := AddressWalk(lib, Secp256k1(g, lib.hmac512), root, keyID, path);
      var threshold := AdjustShareECDSA(lib, g, Some(share), Some(root), keyID, path);
      && (threshold.Ok? <==> walk.Ok? && walk.value.pub != g.zero)
      && (threshold.Ok? ==> threshold.value
                            == Adjusted((share + walk.value.delta) % g.n, walk.value.pub, walk.value.delta))
  {
    WalkKey(lib, Secp256k1(g, lib.hmac512), sk, root, keyID, path);
  }

  // On secp256k1 the address layer publishes whatever key the path leads to, and both
  // signers accept it exactly when it is not the identity; they then sign for that key.
  lemma SignersFollowAddressECDSA(lib: Library, g: Group, sk: nat, rootPubHex: string, root: Point, share: int,
                                  path: Path)
    requires Laws(g) && RootOf(g, sk, root) && RootPubHexToECDSA(rootPubHex) == Ok(root)
    ensures var keyID := KeyIDFromPubXY(lib, root);
      var walk := AddressWalk(lib, Secp256k1(g, lib.hmac512), root, keyID, path);
      var address := DeriveAddress(lib, g, rootPubHex, keyID, path);
      var single := ChildPrivateKeyECDSA(lib, g, Some(sk), rootPubHex, keyID, path);
      var threshold := AdjustShareECDSA(lib, g, Some(share), Some(root), keyID, path);
      && (address.Ok? <==> walk.Ok?)
      && (address.Ok? ==> address.value.pubHex == PubKeyToHex(walk.value.pub))
      && (single.Ok? <==> address.Ok? && walk.value.pub != g.zero)
      && (threshold.Ok? <==> address.Ok? && walk.value.pub != g.zero)
      && (single.Ok? ==> RootOf(g, single.value, walk.value.pub))
      && (threshold.Ok? ==> threshold.value.childPub == walk.value.pub && threshold.value.delta == walk.value.delta)
  {
    var keyID := KeyIDFromPubXY(lib, root);
    AddressPublishedIff(lib, g, rootPubHex, keyID, path);
    SingleSignsIff(lib, g, sk, rootPubHex, root, keyID, path);
    ThresholdSignsIff(lib, g, sk, root, share, keyID, path);
  }

  // Ed25519 text is read back as the key it was written from.
  lemma Ed25519RoundTrip(g: Group, ed: Codec, p: Point)
    requires Faithful(g, ed) && g.has(p) && p != g.zero
    ensures ParseEd25519(ed, HexEncode(ed.serialize(p))) == Ok(p)
  {
    HexRoundTrip(ed.serialize(p));
  }

  lemma DeriveEd25519Of(lib: Library, g: Group, ed: Codec, rootPubHex: string, root: Point, keyID: string, path: Path)
    requires g.n > 0 && ParseEd25519(ed, rootPubHex) == Ok(root)
    ensures DeriveEd25519(g, ed, lib.hmac512, rootPubHex, ChainCodeFromKeyID(lib, keyID),
                          PathFromAccountAndAddress(path))
         == AddressWalk(lib, Ed25519(g, ed, lib.hmac512), root, keyID, path)
  {
  }

  lemma SingleSignsEd25519(lib: Library, g: Group, ed: Codec, sk: nat, rootPubHex: string, root: Point, keyID: string,
                           path: Path)
    requires Laws(g) && RootOf(g, sk, root) && ParseEd25519(ed, rootPubHex) == Ok(root)
    ensures var walk := AddressWalk(lib, Ed25519(g, ed, lib.hmac512), root, keyID, path);
      var single := ChildPrivateKeyEd25519(lib, g, ed, Some(sk), rootPubHex, keyID, path);
      && (single.Ok? <==> walk.Ok?)
      && (walk.Ok? ==> RootOf(g, single.value, walk.value.pub))
  {
    DeriveEd25519Of(lib, g, ed, rootPubHex, root, keyID, path);
    WalkKey(lib, Ed25519(g, ed, lib.hmac512), sk, root, keyID, path);
  }

  lemma ThresholdSignsEd25519(lib: Library, g: Group, ed: Codec, sk: nat, root: Point, share: int, keyID: string,
                              path: Path)
    requires Laws(g) && Faithful(g, ed) && RootOf(g, sk, root)
    ensures var walk := AddressWalk(lib, Ed25519(g, ed, lib.hmac512), root, keyID, path);
      var threshold := AdjustShareEd25519(lib, g, ed, Some(share), Some(root), keyID, path);
      && (threshold.Ok? <==> walk.Ok?)
      && (walk.Ok? ==> threshold.value.childPub == walk.value.pub && threshold.value.delta == walk.value.delta
                       && threshold.value.share == (share + walk.value.delta) % g.n)
  {
    TimesIn(g, sk, g.gen);
    assert root != g.zero;
    Ed25519RoundTrip(g, ed, root);
    DeriveEd25519Of(lib, g, ed, HexEncode(ed.serialize(root)), root, keyID, path);
    WalkKey(lib, Ed25519(g, ed, lib.hmac512), sk, root, keyID, path);
    var walk := AddressWalk(lib, Ed25519(g, ed, lib.hmac512), root, keyID, path);
    if walk.Ok? { Ed25519RoundTrip(g, ed, walk.value.pub); }
  }

  // On Ed25519 the derivation itself refuses the identity, so all three agree outright.
  lemma SignersFollowAddressEd25519(lib: Library, g: Group, ed: Codec, sk: nat, rootPubHex: string, root: Point,
                                    share: int, path: Path)
    requires Laws(g) && Faithful(g, ed) && RootOf(g, sk, root) && ParseEd25519(ed, rootPubHex) == Ok(root)
    ensures KeyIDFromEd25519PubHex(lib, rootPubHex).Ok?
    ensures var keyID := KeyIDFromEd25519PubHex(lib, rootPubHex).value;
      var address := DeriveAddressEd25519(lib, g, ed, rootPubHex, keyID, path);
      var single := ChildPrivateKeyEd25519(lib, g, ed, Some(sk), rootPubHex, keyID, path);
      var threshold := AdjustShareEd25519(lib, g, ed, Some(share), Some(root), keyID, path);
      && (single.Ok? <==> address.Ok?) && (threshold.Ok? <==> address.Ok?)
      && (address.Ok? ==>
            && RootOf(g, single.value, threshold.value.childPub)
            && address.value.pubHex == HexEncode(ed.serialize(threshold.value.childPub)))
  {
    var keyID := KeyIDFromEd25519PubHex(lib, rootPubHex).value;
    AddressEd25519PublishedIff(lib, g, ed, rootPubHex, keyID, path);
    SingleSignsEd25519(lib, g, ed, sk, rootPubHex, root, keyID, path);
    ThresholdSignsEd25519(lib, g, ed, sk, root, share, keyID, path);
  }

  // ---- A published address no signer signs for ----

  // A MAC whose left half is 2, over a group of order 5.
  function ToyMac(key: Bytes, data: Bytes): Bytes64 { Zeros(31) + [2] + Zeros(32) }

  function ToyLibrary(): Library {
    Library((b: Bytes) => Zeros(32), ToyMac, (s: string) => [], (b: Bytes) => "")
  }

  lemma ToyStep(w: Walk)
    requires Clock(5).has(w.pub)
    ensures Step(Secp256k1(Clock(5), ToyMac), w, 0)
         == Ok(Walk((2 + w.delta) % 5, Point((w.pub.x + 2) % 5, 0), Zeros(32)))
  {
    var mac := ToyMac(w.cc, Compressed(w.pub) + Ser32(0));
    assert mac[..32] == Zeros(31) + [2] && mac[..32][..32] == mac[..32] && mac[32..] == Zeros(32);
    ValueOfPadded(31, [2]);
    ClockTimes(5, 2);
  }

  lemma ToyMove(w: Walk, v: Walk, rest: seq<u32>)
    requires Clock(5).has(w.pub)
    requires v == Walk((2 + w.delta) % 5, Point((w.pub.x + 2) % 5, 0), Zeros(32))
    ensures Steps(Secp256k1(Clock(5), ToyMac), w, [0] + rest) == Steps(Secp256k1(Clock(5), ToyMac), v, rest)
  {
    ToyStep(w);
    assert ([0] + rest)[1..] == rest;
  }

  lemma ToyWalk(cc: Bytes32)
    ensures Derive(Secp256k1(Clock(5), ToyMac), Point(4, 0), cc, [0, 0, 0]) == Ok(Walk(1, Point(0, 0), Zeros(32)))
  {
    var w0 := Walk(0, Point(4, 0), cc[..32]);
    var w1, w2, w3 := Walk(2, Point(1, 0), Zeros(32)), Walk(4, Point(3, 0), Zeros(32)), Walk(1, Point(0, 0), Zeros(32));
    ToyMove(w0, w1, [0, 0]);
    ToyMove(w1, w2, [0]);
    ToyMove(w2, w3, []);
    assert [0] + [0, 0] == [0, 0, 0] && [0] + [0] == [0, 0] && [0] + [] == [0];
  }

  // The root private key 4 and the delta 1 cancel: the address is published, both signers
  // refuse.
  lemma IdentityIsPublished()
    ensures var lib, g, root, path := ToyLibrary(), Clock(5), Point(4, 0), HdPath.Path(0, 0, 0);
      var keyID := KeyIDFromPubXY(lib, root);
      && Laws(g) && RootOf(g, 4, root)
      && DeriveAddress(lib, g, PubKeyToHex(root), keyID, path).Ok?
      && ChildPrivateKeyECDSA(lib, g, Some(4), PubKeyToHex(root), keyID, path).Err?
      && AdjustShareECDSA(lib, g, Some(4), Some(root), keyID, path).Err?
  {
    var lib, g, root := ToyLibrary(), Clock(5), Point(4, 0);
    var path: Path := HdPath.Path(0, 0, 0);
    var keyID := KeyIDFromPubXY(lib, root);
    ClockObeysLaws(5);
    ClockTimes(5, 4);
    PubHexRoundTrip(root);
    ToyWalk(ChainCodeFromKeyID(lib, keyID));
    assert AddressWalk(lib, Secp256k1(g, lib.hmac512), root, keyID, path).Ok?;
    SignersFollowAddressECDSA(lib, g, 4, PubKeyToHex(root), root, 4, path);
  }
}
