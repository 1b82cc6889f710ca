/**
 Public derivation along non-hardened indexes, on both curves.  secp256k1 follows the
 public child derivation of BIP 32 (section "Public parent key -> public child key");
 Ed25519 uses the same shape but reduces the tweak modulo n, refuses a zero tweak, and
 cannot encode the identity.
 */
module Derivation {
  import opened Wrappers
  import opened Bytes
  import opened CurveGroup
  import opened Modular

  datatype Rule = Bip32 | Edwards

  // What a curve brings to the derivation; hashing is a parameter.
  datatype Curve = Curve(
    rule: Rule, group: Group, encode: Point -> Option<Bytes>, hmac512: (Bytes, Bytes) -> Bytes64)

  const HARDENED := 0x8000_0000

  function CoordBytes(v: int): Bytes32 { Pad32(ToBytes(if v < 0 then -v else v)) }

  function Compressed(p: Point): Bytes { [if p.y % 2 == 0 then 2 else 3] + CoordBytes(p.x) }

  function Secp256k1(g: Group, hmac512: (Bytes, Bytes) -> Bytes64): Curve {
    Curve(Bip32, g, (p: Point) => Some(Compressed(p)), hmac512)
  }

  // The compressed form of Ed25519 points, as the library writes and reads it.
  datatype Codec = Codec(serialize: Point -> Bytes32, parse: Bytes -> Option<Point>)

  ghost predicate Faithful(g: Group, ed: Codec) {
    && (forall p :: g.has(p) && p != g.zero ==> ed.parse(ed.serialize(p)) == Some(p))
    && (forall b :: ed.parse(b).Some? ==> g.has(ed.parse(b).value))
  }

  // The clock's points as numerals: the assumption on the codec can be met.
  function ClockCodec(n: nat): Codec {
    Codec((p: Point) => CoordBytes(p.x), (b: Bytes) => if Value(b) < n then Some(Point(Value(b), 0)) else None)
  }

  lemma ClockCodecIsFaithful(n: nat)
    requires 2 <= n <= TWO_256
    ensures Faithful(Clock(n), ClockCodec(n))
  {
    var g, ed := Clock(n), ClockCodec(n);
    forall p | g.has(p) && p != g.zero ensures ed.parse(ed.serialize(p)) == Some(p) {
      Pad32Value(p.x);
    }
  }

  function Encode(g: Group, ed: Codec, p: Point): Option<Bytes> {
    if p == g.zero then None else Some(ed.serialize(p))
  }

  function Ed25519(g: Group, ed: Codec, hmac512: (Bytes, Bytes) -> Bytes64): Curve {
    Curve(Edwards, g, (p: Point) => Encode(g, ed, p), hmac512)
  }

  // What is added to the key for the left half of the MAC.
  function Tweak(rule: Rule, n: nat, left: nat): Option<nat>
    requires n > 0
  {
    match rule
    case Bip32 => if left >= n then None else Some(left)
    case Edwards => if left % n == 0 then None else Some(left % n)
  }

  datatype Walk = Walk(delta: nat, pub: Point, cc: Bytes32)

  // The left and the right half of the MAC for one index.
  function Mac(c: Curve, pub: Point, cc: Bytes32, index: u32): Option<(nat, Bytes32)>
  {
    match c.encode(pub)
    case None => None
    case Some(enc) =>
      var mac := c.hmac512(cc, enc + Ser32(index));
      var right: Bytes32 := mac[32..];
      Some((Value(Pad32(mac[..32])), right))
  }

  // One index: what it adds to the delta, and the point and chain code after it.
  function Hop(c: Curve, pub: Point, cc: Bytes32, index: u32): Result<Walk>
    requires c.group.n > 0
  {
    if index >= HARDENED then Err("hardened index not supported")
    else
      match Mac(c, pub, cc, index)
      case None => Err("identity point")
      case Some((left, right)) =>
        match Tweak(c.rule, c.group.n, left)
        case None => Err("invalid child derivation il")
        case Some(il) => Ok(Walk(il, c.group.add(pub, Times(c.group, il, c.group.gen)), right))
  }

  function Shifted(r: Result<Walk>, d: nat, n: nat): Result<Walk>
    requires n > 0
  {
    match r
    case Err(e) => Err(e)
    case Ok(w) => Ok(w.(delta := (d + w.delta) % n))
  }

  function Step(c: Curve, w: Walk, index: u32): Result<Walk>
    requires c.group.n > 0
  {
    Shifted(Hop(c, w.pub, w.cc, index), w.delta, c.group.n)
  }

  function Steps(c: Curve, w: Walk, path: seq<u32>): Result<Walk>
    requires c.group.n > 0
    decreases |path|
  {
    if path == [] then Ok(w)
    else
      match Step(c, w, path[0])
      case Err(e) => Err(e)
      case Ok(v) => Steps(c, v, path[1..])
  }

  function Derive(c: Curve, root: Point, chainCode: Bytes, path: seq<u32>): Result<Walk>
    requires c.group.n > 0
  {
    if |chainCode| < 32 then Err("32-byte chainCode required")
    else if path == [] then Err("empty path")
    else
      match Steps(c, Walk(0, root, chainCode[..32]), path)
      case Err(e) => Err(e)
      case Ok(w) => if c.encode(w.pub) == None then Err("identity point") else Ok(w)
  }

  // A root key is given as the hexadecimal text of its 32 bytes.
  function ParseEd25519(ed: Codec, pubHex: string): Result<Point> {
    match HexDecode(pubHex)
    case None => Err("invalid pub hex")
    case Some(b) =>
      if |b| != 32 then Err("invalid pub hex")
      else match ed.parse(b)
        case None => Err("parse pubkey")
        case Some(p) => Ok(p)
  }

  function DeriveEd25519(g: Group, ed: Codec, hmac512: (Bytes, Bytes) -> Bytes64,
                         rootPubHex: string, chainCode: Bytes, path: seq<u32>): Result<Walk>
    requires g.n > 0
  {
    if |chainCode| < 32 then Err("32-byte chainCode required")
    else if path == [] then Err("empty path")
    else
      match ParseEd25519(ed, rootPubHex)
      case Err(e) => Err(e)
      case Ok(root) => Derive(Ed25519(g, ed, hmac512), root, chainCode, path)
  }

  // ---- The loops ----

  lemma StepsFrom(c: Curve, w: Walk, path: seq<u32>, i: nat)
    requires c.group.n > 0 && i < |path|
    ensures Steps(c, w, path[i..]) == match Step(c, w, path[i])
                                      case Err(e) => Err(e)
                                      case Ok(v) => Steps(c, v, path[i + 1..])
  {
    assert path[i..][1..] == path[i + 1..];
  }

  // The body of the secp256k1 loop.
  method NextChild(g: Group, hmac512: (Bytes, Bytes) -> Bytes64, w: Walk, index: u32) returns (r: Result<Walk>)
    requires g.n > 0
    ensures r == Step(Secp256k1(g, hmac512), w, index)
  {
    if index >= HARDENED { return Err("hardened index not supported"); }
    var mac := hmac512(w.cc, Compressed(w.pub) + Ser32(index));
    var il := Value(Pad32(mac[..32]));
    if il >= g.n { return Err("invalid child derivation il"); }
    return Ok(Walk((w.delta + il) % g.n, g.add(w.pub, Times(g, il, g.gen)), mac[32..]));
  }

  // The body of the Ed25519 loop.
  method NextEd25519Child(g: Group, ed: Codec, hmac512: (Bytes, Bytes) -> Bytes64, w: Walk, index: u32)
      returns (r: Result<Walk>)
    requires g.n > 0
    ensures r == Step(Ed25519(g, ed, hmac512), w, index)
  {
    if index >= HARDENED { return Err("hardened index not supported"); }
    var enc := Encode(g, ed, w.pub);
    if enc == None { return Err("identity point"); }
    var mac := hmac512(w.cc, enc.value + Ser32(index));
    var il := Value(Pad32(mac[..32])) % g.n;
    if il == 0 { return Err("invalid child derivation il"); }
    return Ok(Walk((w.delta + il) % g.n, g.add(w.pub, Times(g, il, g.gen)), mac[32..]));
  }

  method DeriveChildPubFromPath(g: Group, hmac512: (Bytes, Bytes) -> Bytes64,
                                rootPub: Option<Point>, chainCode: Bytes, path: seq<u32>)
      returns (r: Result<(nat, Point)>)
    requires g.n > 0
    ensures rootPub == None ==> r.Err?
    ensures rootPub.Some? ==> r == match Derive(Secp256k1(g, hmac512), rootPub.value, chainCode, path)
                                   case Err(e) => Err(e)
                                   case Ok(w) => Ok((w.delta, w.pub))
  {
    if rootPub == None || |chainCode| < 32 { return Err("32-byte chainCode required"); }
    if |path| == 0 { return Err("empty path"); }
    ghost var c := Secp256k1(g, hmac512);
    var w := Walk(0, rootPub.value, chainCode[..32]);
    var i := 0;
    assert path[0..] == path;
    while i < |path|
      invariant 0 <= i <= |path|
      invariant Steps(c, Walk(0, rootPub.value, chainCode[..32]), path) == Steps(c, w, path[i..])
    {
      StepsFrom(c, w, path, i);
      var child := NextChild(g, hmac512, w, path[i]);
      if child.Err? { return Err(child.error); }
      w := child.value;
      i := i + 1;
    }
    return Ok((w.delta, w.pub));
  }

  method DeriveEd25519ChildPubFromPath(g: Group, ed: Codec, hmac512: (Bytes, Bytes) -> Bytes64,
                                       rootPubHex: string, chainCode: Bytes, path: seq<u32>)
      returns (r: Result<(nat, string)>)
    requires g.n > 0
    ensures r == match DeriveEd25519(g, ed, hmac512, rootPubHex, chainCode, path)
                 case Err(e) => Err(e)
                 case Ok(w) => Ok((w.delta, HexEncode(ed.serialize(w.pub))))
  {
    if |chainCode| < 32 { return Err("32-byte chainCode required"); }
    if |path| == 0 { return Err("empty path"); }
    var parsed := ParseEd25519(ed, rootPubHex);
    if parsed.Err? { return Err(parsed.error); }
    var root := parsed.value;
    ghost var c := Ed25519(g, ed, hmac512);
    var w := Walk(0, root, chainCode[..32]);
    var i := 0;
    assert path[0..] == path;
    while i < |path|
      invariant 0 <= i <= |path|
      invariant Steps(c, Walk(0, root, chainCode[..32]), path) == Steps(c, w, path[i..])
    {
      StepsFrom(c, w, path, i);
      var child := NextEd25519Child(g, ed, hmac512, w, path[i]);
      if child.Err? { return Err(child.error); }
      w := child.value;
      i := i + 1;
    }
    var childBytes := Encode(g, ed, w.pub);
    if childBytes == None { return Err("identity point"); }
    return Ok((w.delta, HexEncode(childBytes.value)));
  }

  // ---- The child is the root plus delta times the base point ----

  ghost predicate OffBy(g: Group, root: Point, w: Walk) {
    w.delta < g.n && g.has(w.pub) && w.pub == g.add(root, Times(g, w.delta, g.gen))
  }

  lemma StepKeepsOffset(c: Curve, root: Point, w: Walk, index: u32)
    requires Laws(c.group) && c.group.has(root) && OffBy(c.group, root, w) && Step(c, w, index).Ok?
    ensures OffBy(c.group, root, Step(c, w, index).value)
  {
    var g := c.group;
    var il := Hop(c, w.pub, w.cc, index).value.delta;
    TimesIn(g, w.delta, g.gen);
    TimesIn(g, il, g.gen);
    TimesIn(g, (w.delta + il) % g.n, g.gen);
    assert Associates(g, root, Times(g, w.delta, g.gen), Times(g, il, g.gen));
    TimesAdd(g, w.delta, il, g.gen);
    TimesMod(g, w.delta + il);
  }

  lemma {:induction false} StepsKeepOffset(c: Curve, root: Point, w: Walk, path: seq<u32>)
    requires Laws(c.group) && c.group.has(root) && OffBy(c.group, root, w) && Steps(c, w, path).Ok?
    ensures OffBy(c.group, root, Steps(c, w, path).value)
    decreases |path|
  {
    if path != [] {
      StepKeepsOffset(c, root, w, path[0]);
      StepsKeepOffset(c, root, Step(c, w, path[0]).value, path[1..]);
    }
  }

  lemma ChildIsRootPlusDelta(c: Curve, root: Point, chainCode: Bytes, path: seq<u32>)
    requires Laws(c.group) && c.group.has(root)
    ensures var r := Derive(c, root, chainCode, path);
      r.Ok? ==> r.value.delta < c.group.n && c.group.has(r.value.pub)
                && r.value.pub == c.group.add(root, Times(c.group, r.value.delta, c.group.gen))
  {
    if Derive(c, root, chainCode, path).Ok? {
      assert Commutes(c.group, root, c.group.zero);
      StepsKeepOffset(c, root, Walk(0, root, chainCode[..32]), path);
    }
  }

  // ---- Deriving in two parts ----

  lemma {:induction false} StepsConcat(c: Curve, w: Walk, p: seq<u32>, q: seq<u32>)
    requires c.group.n > 0
    ensures Steps(c, w, p + q) == match Steps(c, w, p)
                                  case Err(e) => Err(e)
                                  case Ok(v) => Steps(c, v, q)
    decreases |p|
  {
    if p == [] {
      assert p + q == q;
    } else {
      assert (p + q)[1..] == p[1..] + q;
      if Step(c, w, p[0]).Ok? { StepsConcat(c, Step(c, w, p[0]).value, p[1..], q); }
    }
  }

  lemma ShiftedTwice(r: Result<Walk>, d: nat, e: nat, n: nat)
    requires n > 0
    ensures Shifted(r, (e + d) % n, n) == Shifted(Shifted(r, d, n), e, n)
  {
    match r
    case Err(_) =>
    case Ok(w) =>
      AddAssociates(e, d, w.delta, n);
      var once := (d + w.delta) % n;
      assert Shifted(r, d, n) == Ok(w.(delta := once));
      assert Shifted(Ok(w.(delta := once)), e, n) == Ok(w.(delta := (e + once) % n));
  }

  // Only the delta depends on the delta a walk starts with.
  lemma {:induction false} StepsShift(c: Curve, w: Walk, e: nat, path: seq<u32>)
    requires c.group.n > 0
    ensures Steps(c, w.(delta := (e + w.delta) % c.group.n), path)
         == if path == [] then Ok(w.(delta := (e + w.delta) % c.group.n)) else Shifted(Steps(c, w, path), e, c.group.n)
    decreases |path|
  {
    if path != [] {
      ShiftedTwice(Hop(c, w.pub, w.cc, path[0]), w.delta, e, c.group.n);
      if Step(c, w, path[0]).Ok? { StepsShift(c, Step(c, w, path[0]).value, e, path[1..]); }
    }
  }

  // Deriving along p and continuing along q from the point and chain code reached is
  // deriving along p + q; the deltas add modulo n.
  lemma DeriveInTwoParts(c: Curve, root: Point, chainCode: Bytes, p: seq<u32>, q: seq<u32>)
    requires c.group.n > 0 && p != [] && q != []
    ensures var first := Derive(c, root, chainCode, p);
      var whole := Derive(c, root, chainCode, p + q);
      && (whole.Ok? <==> first.Ok? && Derive(c, first.value.pub, first.value.cc, q).Ok?)
      && (whole.Ok? ==>
            var second := Derive(c, first.value.pub, first.value.cc, q);
            whole.value == second.value.(delta := (first.value.delta + second.value.delta) % c.group.n))
  {
    if |chainCode| >= 32 {
      var start := Walk(0, root, chainCode[..32]);
      StepsConcat(c, start, p, q);
      if Steps(c, start, p).Ok? {
        var mid := Steps(c, start, p).value;
        var again := Walk(0, mid.pub, mid.cc);
        StepsDelta(c, start, p);
        Remainder(mid.delta, 0, mid.delta, c.group.n);
        StepsShift(c, again, mid.delta, q);
        assert mid.cc[..32] == mid.cc;
        assert again.(delta := (mid.delta + 0) % c.group.n) == mid;
      }
    }
  }

  lemma {:induction false} StepsDelta(c: Curve, w: Walk, path: seq<u32>)
    requires c.group.n > 0 && w.delta < c.group.n && Steps(c, w, path).Ok?
    ensures Steps(c, w, path).value.delta < c.group.n
    decreases |path|
  {
    if path != [] { StepsDelta(c, Step(c, w, path[0]).value, path[1..]); }
  }
}
