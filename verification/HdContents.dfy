/**
 What the address layers publish, told by a reader: the bytes of a key, the texts of ids and
 paths, and the indices a path stands for, each read back independently of how it is written.
 */
module HdContents {
  import opened Wrappers
  import opened Bytes
  import opened CurveGroup
  import opened Derivation
  import opened HdLayers
  import opened HdSigners
  import opened MacData
  import Decimal
  import HdPath
  import Strings

  // ---- Bytes ----

  predicate LowerHex(c: char) { '0' <= c <= '9' || 'a' <= c <= 'f' }

  // Hexadecimal text is written in lower case, two digits a byte.
  lemma {:induction false} HexIsLower(b: Bytes)
    ensures |HexEncode(b)| == 2 * |b| && forall i :: 0 <= i < |HexEncode(b)| ==> LowerHex(HexEncode(b)[i])
  {
    if b != [] {
      HexIsLower(b[1..]);
      DigitIsLower(b[0] / 16);
      DigitIsLower(b[0] % 16);
    }
  }

  lemma DigitIsLower(d: nat)
    requires d < 16
    ensures LowerHex(Digit(d))
  {
  }

  // Reading an uncompressed key: 04, then both coordinates in 32 bytes.
  function ReadUncompressed(b: Bytes): Option<Point> {
    if |b| == 65 && b[0] == 4 then Some(Point(Value(b[1..33]), Value(b[33..]))) else None
  }

  lemma UncompressedIsRead(p: Point)
    requires Fits(p)
    ensures ReadUncompressed(PubKeyBytes(p)) == Some(p)
  {
    var b := PubKeyBytes(p);
    CoordRoundTrip(p.x);
    CoordRoundTrip(p.y);
    assert b[1..33] == CoordBytes(p.x) && b[33..] == CoordBytes(p.y);
  }

  // ---- Texts in either case ----

  function Lowered(c: char): char { if 'A' <= c <= 'F' then (c as int + 32) as char else c }

  function Lower(s: string): string { seq(|s|, i requires 0 <= i < |s| => Lowered(s[i])) }

  lemma DigitEitherCase(c: char, d: nat)
    requires d < 16
    ensures DigitValue(c) == Some(d) <==> Lowered(c) == Digit(d)
  {
  }

  lemma TwoDigits(a: char, b: char, v: byte)
    ensures Lowered(a) == Digit(v / 16) && Lowered(b) == Digit(v % 16) <==>
      DigitValue(a).Some? && DigitValue(b).Some? && 16 * DigitValue(a).value + DigitValue(b).value == v
  {
    DigitEitherCase(a, v / 16);
    DigitEitherCase(b, v % 16);
    if DigitValue(a).Some? && DigitValue(b).Some? {
      var x, y := DigitValue(a).value, DigitValue(b).value;
      assert (16 * x + y) / 16 == x && (16 * x + y) % 16 == y;
    }
  }

  // A text is read as bytes exactly if, with its letters made lower case, it is what is written
  // for them.
  lemma {:induction false} HexReadsEitherCase(s: string, b: Bytes)
    ensures HexDecode(s) == Some(b) <==> Lower(s) == HexEncode(b)
    decreases |s|
  {
    if |s| <= 1 {
      HexIsLower(b);
    } else if b == [] {
      assert |Lower(s)| == |s|;
    } else {
      HexReadsEitherCase(s[2..], b[1..]);
      TwoDigits(s[0], s[1], b[0]);
      assert Lower(s) == [Lowered(s[0]), Lowered(s[1])] + Lower(s[2..]);
      assert Lower(s)[2..] == Lower(s[2..]) && HexEncode(b)[2..] == HexEncode(b[1..]);
      assert b == [b[0]] + b[1..];
    }
  }

  lemma CoordIsUnique(b: Bytes)
    requires |b| == 32
    ensures Value(b) < TWO_256 && CoordBytes(Value(b)) == b
  {
    ValueBound(b);
    Pow256Of32();
    CoordRoundTrip(Value(b));
    ValueInjective(CoordBytes(Value(b)), b);
  }

  lemma UncompressedIsExact(b: Bytes, p: Point)
    ensures ReadUncompressed(b) == Some(p) <==> Fits(p) && b == PubKeyBytes(p)
  {
    if Fits(p) { UncompressedIsRead(p); }
    if ReadUncompressed(b) == Some(p) {
      CoordIsUnique(b[1..33]);
      CoordIsUnique(b[33..]);
      assert b == [b[0]] + b[1..33] + b[33..];
    }
  }

  lemma RootIsReader(text: string, p: Point)
    ensures RootPubHexToECDSA(text) == Ok(p) <==>
      HexDecode(text).Some? && ReadUncompressed(HexDecode(text).value) == Some(p)
  {
    var b := HexDecode(text);
    if b.Some? && |b.value| == 65 { assert b.value[33..65] == b.value[33..]; }
  }

  // A root key's text is accepted exactly if it is what is published for the key, in either case.
  lemma RootTextIsExact(text: string, p: Point)
    ensures RootPubHexToECDSA(text) == Ok(p) <==> Fits(p) && Lower(text) == PubKeyToHex(p)
  {
    RootIsReader(text, p);
    HexReadsEitherCase(text, PubKeyBytes(p));
    if HexDecode(text).Some? { UncompressedIsExact(HexDecode(text).value, p); }
  }

  // The key id hashes x and then y, 32 bytes each.
  lemma KeyIdInput(lib: Library, p: Point) returns (data: Bytes)
    requires Fits(p)
    ensures |data| == 64 && Value(data[..32]) == p.x && Value(data[32..]) == p.y
    ensures KeyIDFromPubXY(lib, p) == HexEncode(lib.sha256(data))
  {
    data := CoordBytes(p.x) + CoordBytes(p.y);
    CoordRoundTrip(p.x);
    CoordRoundTrip(p.y);
    assert data[..32] == CoordBytes(p.x) && data[32..] == CoordBytes(p.y);
  }

  // Bytes beyond the thirty-second are cut off, missing ones are zeros on the left.
  lemma Pad32Shape(b: Bytes)
    ensures |b| >= 32 ==> Pad32(b) == b[..32]
    ensures |b| < 32 ==> Pad32(b)[32 - |b|..] == b && forall i :: 0 <= i < 32 - |b| ==> Pad32(b)[i] == 0
  {
  }

  // ---- Layers on secp256k1 ----

  ghost predicate IsWallet(lib: Library, w: Wallet, keyID: string, rootPubHex: string) {
    w.keyID == keyID && w.rootPubHex == rootPubHex && (keyID != "" ==> w.walletID == lib.computeKeyID(lib.utf8(keyID)))
  }

  // An account says its index and path, and hashes the very bytes it publishes; its key is
  // derived along the account index, from the root, with the hash of the key id as chain code.
  ghost predicate IsAccount(lib: Library, a: Account, index: u32, pub: Bytes) {
    && a.index == index && a.pubHex == HexEncode(pub) && a.hdPath == "m/0/" + Decimal.Print(index)
    && (pub != [] ==> a.accountID == lib.computeKeyID(pub))
  }

  lemma AccountTold(lib: Library, g: Group, rootPubHex: string, keyID: string, index: u32) returns (pub: Bytes)
    requires g.n > 0 && DeriveAccount(lib, g, rootPubHex, keyID, index).Ok?
    ensures var a := DeriveAccount(lib, g, rootPubHex, keyID, index).value;
      var root := RootPubHexToECDSA(rootPubHex);
      && root.Ok? && IsWallet(lib, a.wallet, KeyIDFromPubXY(lib, root.value), rootPubHex)
      && IsAccount(lib, a, index, pub)
      && var walk := Derive(Secp256k1(g, lib.hmac512), root.value, lib.sha256(lib.utf8(a.wallet.keyID)), [index]);
        walk.Ok? && (Fits(walk.value.pub) ==> ReadUncompressed(pub) == Some(walk.value.pub))
  {
    var root := RootPubHexToECDSA(rootPubHex).value;
    var id := KeyIDFromPubXY(lib, root);
    var walk := Derive(Secp256k1(g, lib.hmac512), root, lib.sha256(lib.utf8(id)), [index]).value;
    pub := PubKeyBytes(walk.pub);
    if Fits(walk.pub) { UncompressedIsRead(walk.pub); }
  }

  // An address says its change and address index and the whole path; its key is derived along
  // account, change and address index, in this order.
  lemma AddressTold(lib: Library, g: Group, rootPubHex: string, keyID: string, path: Path) returns (pub: Bytes)
    requires g.n > 0 && DeriveAddress(lib, g, rootPubHex, keyID, path).Ok?
    ensures var a := DeriveAddress(lib, g, rootPubHex, keyID, path).value;
      var root := RootPubHexToECDSA(rootPubHex);
      && DeriveAccount(lib, g, rootPubHex, keyID, path.account) == Ok(a.account) && root.Ok?
      && a.change == path.change && a.index == path.address && a.pubHex == HexEncode(pub)
      && a.hdPath == Strings.Join(["m", "0", Decimal.Print(path.account), Decimal.Print(path.change),
                                   Decimal.Print(path.address)], '/')
      && var indices: seq<u32> := [path.account, path.change, path.address];
        var chainCode := lib.sha256(lib.utf8(a.account.wallet.keyID));
        var walk := Derive(Secp256k1(g, lib.hmac512), root.value, chainCode, indices);
        walk.Ok? && (Fits(walk.value.pub) ==> ReadUncompressed(pub) == Some(walk.value.pub))
  {
    var root := RootPubHexToECDSA(rootPubHex).value;
    var a := DeriveAddress(lib, g, rootPubHex, keyID, path).value;
    var indices: seq<u32> := [path.account, path.change, path.address];
    var walk := Derive(Secp256k1(g, lib.hmac512), root, lib.sha256(lib.utf8(a.account.wallet.keyID)), indices).value;
    pub := PubKeyBytes(walk.pub);
    if Fits(walk.pub) { UncompressedIsRead(walk.pub); }
    AddressText(path);
  }

  lemma AddressText(path: Path)
    ensures HdPath.FormatAddress(path)
         == Strings.Join(["m", "0", Decimal.Print(path.account), Decimal.Print(path.change),
                          Decimal.Print(path.address)], '/')
  {
    var a, c, i := Decimal.Print(path.account), Decimal.Print(path.change), Decimal.Print(path.address);
    var parts := ["m", "0", a, c, i];
    assert parts[1..] == ["0", a, c, i] && parts[1..][1..] == [a, c, i];
    assert parts[1..][1..][1..] == [c, i] && parts[1..][1..][1..][1..] == [i];
    assert Strings.Join([c, i], '/') == c + "/" + i;
    assert Strings.Join([a, c, i], '/') == a + "/" + (c + "/" + i);
    assert Strings.Join(["0", a, c, i], '/') == "0" + "/" + (a + "/" + (c + "/" + i));
    assert "m" + "/" + ("0" + "/" + (a + "/" + (c + "/" + i))) == "m/0/" + a + "/" + c + "/" + i;
  }

  // ---- Layers on Ed25519 ----

  // The key id hashes the 32 bytes the root text stands for.
  lemma KeyIdInputEd25519(lib: Library, rootPubHex: string)
    requires KeyIDFromEd25519PubHex(lib, rootPubHex).Ok?
    ensures var b := HexDecode(rootPubHex);
      b.Some? && |b.value| == 32 && KeyIDFromEd25519PubHex(lib, rootPubHex).value == HexEncode(lib.sha256(b.value))
  {
  }

  lemma AccountEd25519Told(lib: Library, g: Group, ed: Codec, rootPubHex: string, keyID: string, index: u32)
    requires g.n > 0 && DeriveAccountEd25519(lib, g, ed, rootPubHex, keyID, index).Ok?
    ensures var a := DeriveAccountEd25519(lib, g, ed, rootPubHex, keyID, index).value;
      var walk := DeriveEd25519(g, ed, lib.hmac512, rootPubHex, lib.sha256(lib.utf8(a.wallet.keyID)), [index]);
      && walk.Ok? && IsWallet(lib, a.wallet, a.wallet.keyID, rootPubHex)
      && IsAccount(lib, a, index, ed.serialize(walk.value.pub))
  {
  }

  lemma AddressEd25519Told(lib: Library, g: Group, ed: Codec, rootPubHex: string, keyID: string, path: Path)
    requires g.n > 0 && DeriveAddressEd25519(lib, g, ed, rootPubHex, keyID, path).Ok?
    ensures var a := DeriveAddressEd25519(lib, g, ed, rootPubHex, keyID, path).value;
      var indices: seq<u32> := [path.account, path.change, path.address];
      var walk := DeriveEd25519(g, ed, lib.hmac512, rootPubHex, lib.sha256(lib.utf8(a.account.wallet.keyID)), indices);
      && DeriveAccountEd25519(lib, g, ed, rootPubHex, keyID, path.account) == Ok(a.account)
      && walk.Ok? && a.pubHex == HexEncode(ed.serialize(walk.value.pub))
      && a.change == path.change && a.index == path.address
      && a.hdPath == Strings.Join(["m", "0", Decimal.Print(path.account), Decimal.Print(path.change),
                                   Decimal.Print(path.address)], '/')
  {
    AddressText(path);
  }

  // No single-key signer ever gets the key zero.
  lemma NeverTheZeroKey(lib: Library, g: Group, ed: Codec, rootSk: Option<int>, rootPubHex: string, keyID: string,
                        path: Path)
    requires g.n > 0
    ensures ChildPrivateKeyECDSA(lib, g, rootSk, rootPubHex, keyID, path) != Ok(0)
    ensures ChildPrivateKeyEd25519(lib, g, ed, rootSk, rootPubHex, keyID, path) != Ok(0)
  {
  }
}
