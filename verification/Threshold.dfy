/**
 Threshold signers hold values of a polynomial whose constant term is the root private key.
 After each adjusted its share and partial public keys for a path, together they hold the
 single-key signer's child key, and their public data is that of the published address.
 */
module Threshold {
  import opened Wrappers
  import opened Bytes
  import opened CurveGroup
  import opened Derivation
  import opened HdLayers
  import opened HdSigners
  import opened Interpolation
  import opened Modular
  import opened PrimeField

  // x is the participant's interpolation point (all ranks are 0).
  datatype Signer = Signer(id: string, x: int, share: nat)

  function Xs(signers: seq<Signer>): (xs: seq<int>)
    ensures |xs| == |signers|
  {
    seq(|signers|, i requires 0 <= i < |signers| => signers[i].x)
  }

  // At least as many signers as f has coefficients hold its values.
  ghost predicate Sharing(f: seq<int>, signers: seq<Signer>, n: nat) {
    && Prime(n) && signers != [] && |f| <= |signers| && Distinct(Xs(signers), n)
    && forall i :: 0 <= i < |signers| ==> signers[i].share == Eval(f, signers[i].x) % n
  }

  function RootKey(f: seq<int>, n: nat): nat
    requires n > 0
  {
    Eval(f, 0) % n
  }

  function AdjustedShares(signers: seq<Signer>, delta: nat, n: nat): (ys: seq<nat>)
    requires n > 0
    ensures |ys| == |signers|
  {
    seq(|signers|, i requires 0 <= i < |signers| => (signers[i].share + delta) % n)
  }

  lemma ShareShifts(f: seq<int>, x: int, delta: nat, n: nat)
    requires n > 0
    ensures Congruent((Eval(f, x) % n + delta) % n, Eval(AddScaled(f, 1, [delta]), x), n)
  {
    EvalAddScaled(f, 1, [delta], x);
    var v := Eval(f, x);
    assert Eval([delta], x) == delta;
    AddMod(delta, v, n);
    Remainder((delta + v) % n, 0, (delta + v) % n, n);
    CongruentIff((v % n + delta) % n, v + delta, n);
  }

  // The adjusted shares are the values of f + delta.
  lemma AdjustedSharesAreValues(f: seq<int>, signers: seq<Signer>, delta: nat, n: nat)
    requires Sharing(f, signers, n)
    ensures forall i :: 0 <= i < |signers| ==>
      Congruent(AdjustedShares(signers, delta, n)[i], Eval(AddScaled(f, 1, [delta]), Xs(signers)[i]), n)
  {
    forall i | 0 <= i < |signers|
      ensures Congruent(AdjustedShares(signers, delta, n)[i], Eval(AddScaled(f, 1, [delta]), Xs(signers)[i]), n)
    {
      ShareShifts(f, signers[i].x, delta, n);
    }
  }

  lemma ShiftedRoot(f: seq<int>, delta: nat, n: nat)
    requires n > 0
    ensures Eval(AddScaled(f, 1, [delta]), 0) % n == (RootKey(f, n) + delta) % n
  {
    var k := (RootKey(f, n) + delta) % n;
    ShareShifts(f, 0, delta, n);
    CongruentIff(k, Eval(AddScaled(f, 1, [delta]), 0), n);
    Remainder(k, 0, k, n);
  }

  // The adjusted shares interpolate to f(0) + delta.
  lemma AdjustedSharesInterpolate(f: seq<int>, signers: seq<Signer>, delta: nat, n: nat)
    requires Sharing(f, signers, n)
    ensures Eval(Interpolant(Xs(signers), AdjustedShares(signers, delta, n), n), 0) % n == (RootKey(f, n) + delta) % n
  {
    var fd, xs, ys := AddScaled(f, 1, [delta]), Xs(signers), AdjustedShares(signers, delta, n);
    AdjustedSharesAreValues(f, signers, delta, n);
    InterpolantIsPolynomial(fd, xs, ys, n, 0);
    CongruentIff(Eval(Interpolant(xs, ys, n), 0), Eval(fd, 0), n);
    ShiftedRoot(f, delta, n);
  }

  // So does their weighted sum.
  lemma AdjustedSharesCombine(f: seq<int>, signers: seq<Signer>, delta: nat, n: nat)
    requires Sharing(f, signers, n)
    ensures WeightedSum(Xs(signers), AdjustedShares(signers, delta, n), |signers|, n) % n
         == (RootKey(f, n) + delta) % n
  {
    AdjustedSharesAreValues(f, signers, delta, n);
    WeightsReconstruct(AddScaled(f, 1, [delta]), Xs(signers), AdjustedShares(signers, delta, n), n);
    ShiftedRoot(f, delta, n);
  }

  // ---- Public data ----

  // The partial public keys combined with the interpolation weights.
  ghost function CombinedKey(g: Group, xs: seq<int>, pubs: seq<Point>, k: nat): Point
    requires Prime(g.n) && Distinct(xs, g.n) && k <= |pubs|
  {
    if k == 0 then g.zero
    else g.add(CombinedKey(g, xs, pubs, k - 1), Times(g, Weight(xs, k - 1, g.n), pubs[k - 1]))
  }

  lemma {:induction false} CombinedKeyIsTimes(g: Group, xs: seq<int>, ys: seq<nat>, pubs: seq<Point>, k: nat)
    requires Laws(g) && Prime(g.n) && Distinct(xs, g.n) && k <= |ys| == |pubs|
    requires forall i :: 0 <= i < |pubs| ==> pubs[i] == Times(g, ys[i], g.gen)
    ensures CombinedKey(g, xs, pubs, k) == Times(g, WeightedSum(xs, ys, k, g.n), g.gen)
  {
    if k > 0 {
      var w := Weight(xs, k - 1, g.n);
      CombinedKeyIsTimes(g, xs, ys, pubs, k - 1);
      TimesMul(g, w, ys[k - 1], g.gen);
      TimesAdd(g, WeightedSum(xs, ys, k - 1, g.n), w * ys[k - 1], g.gen);
    }
  }

  // Every partial public key is its share times the base point.
  ghost predicate Partials(g: Group, signers: seq<Signer>, ys: seq<nat>, partialPub: map<string, Option<Point>>)
    requires |ys| == |signers|
  {
    forall i :: 0 <= i < |signers| ==>
      signers[i].id in partialPub && partialPub[signers[i].id] == Some(Times(g, ys[i], g.gen))
  }

  function Shares(signers: seq<Signer>): (ys: seq<nat>)
    ensures |ys| == |signers|
  {
    seq(|signers|, i requires 0 <= i < |signers| => signers[i].share)
  }

  // Adjusted partial public keys belong to the adjusted shares.
  lemma PartialsFollowShares(g: Group, signers: seq<Signer>, delta: nat,
                             before: map<string, Option<Point>>, after: map<string, Option<Point>>)
    requires Laws(g) && Partials(g, signers, Shares(signers), before) && AdjustedBy(g, before, delta, after)
    ensures Partials(g, signers, AdjustedShares(signers, delta, g.n), after)
  {
    forall i | 0 <= i < |signers|
      ensures signers[i].id in after
      ensures after[signers[i].id] == Some(Times(g, AdjustedShares(signers, delta, g.n)[i], g.gen))
    {
      ShiftedKey(g, signers[i].share, delta);
      TimesIn(g, signers[i].share, g.gen);
      assert Commutes(g, Times(g, signers[i].share, g.gen), g.zero);
    }
  }

  function Pubs(signers: seq<Signer>, partialPub: map<string, Option<Point>>): (pubs: seq<Point>)
    requires forall i :: 0 <= i < |signers| ==> signers[i].id in partialPub && partialPub[signers[i].id].Some?
    ensures |pubs| == |signers|
  {
    seq(|signers|, i requires 0 <= i < |signers| => partialPub[signers[i].id].value)
  }

  // Adjusted partial public keys combine to the child key.
  lemma PartialsCombine(g: Group, f: seq<int>, signers: seq<Signer>, delta: nat, after: map<string, Option<Point>>)
    requires Laws(g) && Sharing(f, signers, g.n) && Partials(g, signers, AdjustedShares(signers, delta, g.n), after)
    ensures CombinedKey(g, Xs(signers), Pubs(signers, after), |signers|)
         == Times(g, (RootKey(f, g.n) + delta) % g.n, g.gen)
  {
    var ys := AdjustedShares(signers, delta, g.n);
    CombinedKeyIsTimes(g, Xs(signers), ys, Pubs(signers, after), |signers|);
    AdjustedSharesCombine(f, signers, delta, g.n);
    TimesMod(g, WeightedSum(Xs(signers), ys, |signers|, g.n));
  }

  // ---- Against the published address ----

  // The key the shares and the partial public keys add up to after adjusting by delta.
  ghost predicate AddUpTo(g: Group, signers: seq<Signer>, delta: nat, after: map<string, Option<Point>>, key: nat)
    requires Prime(g.n) && Distinct(Xs(signers), g.n)
  {
    && Eval(Interpolant(Xs(signers), AdjustedShares(signers, delta, g.n), g.n), 0) % g.n == key
    && Partials(g, signers, AdjustedShares(signers, delta, g.n), after)
    && CombinedKey(g, Xs(signers), Pubs(signers, after), |signers|) == Times(g, key, g.gen)
  }

  lemma AdjustedAddUp(g: Group, f: seq<int>, signers: seq<Signer>, delta: nat,
                      before: map<string, Option<Point>>, after: map<string, Option<Point>>, key: nat)
    requires Laws(g) && Sharing(f, signers, g.n) && key == (RootKey(f, g.n) + delta) % g.n
    requires Partials(g, signers, Shares(signers), before) && AdjustedBy(g, before, delta, after)
    ensures AddUpTo(g, signers, delta, after, key)
  {
    AdjustedSharesInterpolate(f, signers, delta, g.n);
    PartialsFollowShares(g, signers, delta, before, after);
    PartialsCombine(g, f, signers, delta, after);
  }

  // For every secp256k1 path: all threshold signers proceed or none does, exactly when the
  // single-key signer does; every signer's child key and the published key are then the
  // single-key child times the base point.
  lemma ThresholdMeetsAddressECDSA(lib: Library, g: Group, signers: seq<Signer>, sk: nat, rootPubHex: string,
                                   root: Point, path: Path)
    requires Laws(g) && RootOf(g, sk, root) && RootPubHexToECDSA(rootPubHex) == Ok(root)
    ensures var keyID := KeyIDFromPubXY(lib, root);
      var single := ChildPrivateKeyECDSA(lib, g, Some(sk), rootPubHex, keyID, path);
      forall s :: s in signers ==>
        var threshold := AdjustShareECDSA(lib, g, Some(s.share), Some(root), keyID, path);
        && (threshold.Ok? <==> single.Ok?)
        && (single.Ok? ==>
              && threshold.value.childPub == Times(g, single.value, g.gen)
              && DeriveAddress(lib, g, rootPubHex, keyID, path).Ok?
              && DeriveAddress(lib, g, rootPubHex, keyID, path).value.pubHex == PubKeyToHex(threshold.value.childPub))
  {
    forall s | s in signers
      ensures var keyID := KeyIDFromPubXY(lib, root);
        var single := ChildPrivateKeyECDSA(lib, g, Some(sk), rootPubHex, keyID, path);
        var threshold := AdjustShareECDSA(lib, g, Some(s.share), Some(root), keyID, path);
        && (threshold.Ok? <==> single.Ok?)
        && (single.Ok? ==>
              && threshold.value.childPub == Times(g, single.value, g.gen)
              && DeriveAddress(lib, g, rootPubHex, keyID, path).Ok?
              && DeriveAddress(lib, g, rootPubHex, keyID, path).value.pubHex == PubKeyToHex(threshold.value.childPub))
    {
      SignersFollowAddressECDSA(lib, g, sk, rootPubHex, root, s.share, path);
    }
  }

  lemma SingleKeyECDSA(lib: Library, g: Group, sk: nat, rootPubHex: string, root: Point, keyID: string, path: Path)
    requires g.n > 0 && RootPubHexToECDSA(rootPubHex) == Ok(root)
    ensures var single := ChildPrivateKeyECDSA(lib, g, Some(sk), rootPubHex, keyID, path);
      single.Ok? ==>
        single.value == (sk + AddressWalk(lib, Secp256k1(g, lib.hmac512), root, keyID, path).value.delta) % g.n
  {
  }

  // The shares the signers end up with interpolate to the single-key child, and the
  // partial public keys combine to its point.
  lemma ThresholdHoldsChildECDSA(lib: Library, g: Group, f: seq<int>, signers: seq<Signer>, rootPubHex: string,
                                 root: Point, keyID: string, path: Path,
                                 before: map<string, Option<Point>>, after: map<string, Option<Point>>)
    requires Laws(g) && Sharing(f, signers, g.n) && RootOf(g, RootKey(f, g.n), root)
    requires RootPubHexToECDSA(rootPubHex) == Ok(root)
    requires AddressWalk(lib, Secp256k1(g, lib.hmac512), root, keyID, path).Ok?
    requires Partials(g, signers, Shares(signers), before)
    requires AdjustedBy(g, before, AddressWalk(lib, Secp256k1(g, lib.hmac512), root, keyID, path).value.delta, after)
    ensures var delta := AddressWalk(lib, Secp256k1(g, lib.hmac512), root, keyID, path).value.delta;
      var single := ChildPrivateKeyECDSA(lib, g, Some(RootKey(f, g.n)), rootPubHex, keyID, path);
      single.Ok? ==> AddUpTo(g, signers, delta, after, single.value)
  {
    var delta := AddressWalk(lib, Secp256k1(g, lib.hmac512), root, keyID, path).value.delta;
    var single := ChildPrivateKeyECDSA(lib, g, Some(RootKey(f, g.n)), rootPubHex, keyID, path);
    SingleKeyECDSA(lib, g, RootKey(f, g.n), rootPubHex, root, keyID, path);
    if single.Ok? { AdjustedAddUp(g, f, signers, delta, before, after, single.value); }
  }

  // The same for Ed25519, where every signer proceeds exactly when the address exists.
  lemma ThresholdMeetsAddressEd25519(lib: Library, g: Group, ed: Codec, signers: seq<Signer>, sk: nat,
                                     rootPubHex: string, root: Point, path: Path)
    requires Laws(g) && Faithful(g, ed) && RootOf(g, sk, root) && ParseEd25519(ed, rootPubHex) == Ok(root)
    requires KeyIDFromEd25519PubHex(lib, rootPubHex).Ok?
    ensures var keyID := KeyIDFromEd25519PubHex(lib, rootPubHex).value;
      var address := DeriveAddressEd25519(lib, g, ed, rootPubHex, keyID, path);
      forall s :: s in signers ==>
        var threshold := AdjustShareEd25519(lib, g, ed, Some(s.share), Some(root), keyID, path);
        && (threshold.Ok? <==> address.Ok?)
        && (address.Ok? ==>
              && address.value.pubHex == HexEncode(ed.serialize(threshold.value.childPub))
              && ChildPrivateKeyEd25519(lib, g, ed, Some(sk), rootPubHex, keyID, path).Ok?
              && threshold.value.childPub
                 == Times(g, ChildPrivateKeyEd25519(lib, g, ed, Some(sk), rootPubHex, keyID, path).value, g.gen))
  {
    var keyID := KeyIDFromEd25519PubHex(lib, rootPubHex).value;
    var address := DeriveAddressEd25519(lib, g, ed, rootPubHex, keyID, path);
    forall s | s in signers
      ensures var threshold := AdjustShareEd25519(lib, g, ed, Some(s.share), Some(root), keyID, path);
        && (threshold.Ok? <==> address.Ok?)
        && (address.Ok? ==>
              && address.value.pubHex == HexEncode(ed.serialize(threshold.value.childPub))
              && ChildPrivateKeyEd25519(lib, g, ed, Some(sk), rootPubHex, keyID, path).Ok?
              && threshold.value.childPub
                 == Times(g, ChildPrivateKeyEd25519(lib, g, ed, Some(sk), rootPubHex, keyID, path).value, g.gen))
    {
      SignersFollowAddressEd25519(lib, g, ed, sk, rootPubHex, root, s.share, path);
    }
  }

  lemma ThresholdHoldsChildEd25519(lib: Library, g: Group, ed: Codec, f: seq<int>, signers: seq<Signer>,
                                   rootPubHex: string, root: Point, keyID: string, path: Path,
                                   before: map<string, Option<Point>>, after: map<string, Option<Point>>)
    requires Laws(g) && Sharing(f, signers, g.n) && RootOf(g, RootKey(f, g.n), root)
    requires ParseEd25519(ed, rootPubHex) == Ok(root)
    requires AddressWalk(lib, Ed25519(g, ed, lib.hmac512), root, keyID, path).Ok?
    requires Partials(g, signers, Shares(signers), before)
    requires AdjustedBy(g, before, AddressWalk(lib, Ed25519(g, ed, lib.hmac512), root, keyID, path).value.delta, after)
    ensures var delta := AddressWalk(lib, Ed25519(g, ed, lib.hmac512), root, keyID, path).value.delta;
      var single := ChildPrivateKeyEd25519(lib, g, ed, Some(RootKey(f, g.n)), rootPubHex, keyID, path);
      single.Ok? && AddUpTo(g, signers, delta, after, single.value)
  {
    var delta := AddressWalk(lib, Ed25519(g, ed, lib.hmac512), root, keyID, path).value.delta;
    var single := ChildPrivateKeyEd25519(lib, g, ed, Some(RootKey(f, g.n)), rootPubHex, keyID, path);
    SingleSignsEd25519(lib, g, ed, RootKey(f, g.n), rootPubHex, root, keyID, path);
    DeriveEd25519Of(lib, g, ed, rootPubHex, root, keyID, path);
    AdjustedAddUp(g, f, signers, delta, before, after, single.value);
  }
}
