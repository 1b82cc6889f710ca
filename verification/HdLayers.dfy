/**
 The wallet, account and address layers that publish keys for a root key, on both curves.
 The key ID is a hash of the root key and the chain code a hash of the key ID, so a layer
 needs nothing but the root key.
 */
module HdLayers {
  import opened Wrappers
  import opened Bytes
  import opened CurveGroup
  import opened Derivation
  import HdPath

  // Hash functions and the chain's ID encoding.
  datatype Library = Library(
    sha256: Bytes -> Bytes32, hmac512: (Bytes, Bytes) -> Bytes64, utf8: string -> Bytes, computeKeyID: Bytes -> string)

  datatype Wallet = Wallet(keyID: string, walletID: string, rootPubHex: string)
  datatype Account = Account(wallet: Wallet, index: u32, accountID: string, pubHex: string, hdPath: string)
  datatype Address = Address(account: Account, change: u32, index: u32, pubHex: string, hdPath: string)

  type Path = p: HdPath.Path | HdPath.Uint32s(p) witness HdPath.Path(0, 0, 0)

  function ChainCodeFromKeyID(lib: Library, keyID: string): Bytes32 { lib.sha256(lib.utf8(keyID)) }

  function WalletIDFromKeyID(lib: Library, keyID: string): string {
    if keyID == "" then "" else lib.computeKeyID(lib.utf8(keyID))
  }

  function AccountIDFromPubBytes(lib: Library, pub: Bytes): string {
    if pub == [] then "" else lib.computeKeyID(pub)
  }

  function PathFromAccountAndAddress(p: Path): seq<u32> {
    var account: u32, change: u32, address: u32 := p.account, p.change, p.address;
    [account, change, address]
  }

  // ---- secp256k1 ----

  function PubKeyBytes(p: Point): Bytes { [4] + CoordBytes(p.x) + CoordBytes(p.y) }

  function PubKeyToHex(p: Point): string { HexEncode(PubKeyBytes(p)) }

  function RootPubHexToECDSA(rootPubHex: string): Result<Point> {
    match HexDecode(rootPubHex)
    case None => Err("invalid hex")
    case Some(b) =>
      if |b| != 65 || b[0] != 4 then Err("invalid rootPubHex")
      else Ok(Point(Value(b[1..33]), Value(b[33..65])))
  }

  function KeyIDFromPubXY(lib: Library, p: Point): string {
    HexEncode(lib.sha256(CoordBytes(p.x) + CoordBytes(p.y)))
  }

  function DeriveWalletLayer(lib: Library, rootPubHex: string, keyID: string): Result<Wallet> {
    if keyID != "" && rootPubHex == "" then Err("rootPubHex required when keyID is set")
    else
      match RootPubHexToECDSA(rootPubHex)
      case Err(e) => Err(e)
      case Ok(root) =>
        var expected := KeyIDFromPubXY(lib, root);
        if keyID != "" && keyID != expected then Err("keyID mismatch with rootPubHex")
        else Ok(Wallet(expected, WalletIDFromKeyID(lib, expected), rootPubHex))
  }

  function DeriveAccount(lib: Library, g: Group, rootPubHex: string, keyID: string, index: u32): Result<Account>
    requires g.n > 0
  {
    match DeriveWalletLayer(lib, rootPubHex, keyID)
    case Err(e) => Err(e)
    case Ok(wallet) =>
      match RootPubHexToECDSA(wallet.rootPubHex)
      case Err(e) => Err(e)
      case Ok(root) =>
        match Derive(Secp256k1(g, lib.hmac512), root, ChainCodeFromKeyID(lib, wallet.keyID), [index])
        case Err(e) => Err(e)
        case Ok(child) =>
          Ok(Account(wallet, index, AccountIDFromPubBytes(lib, PubKeyBytes(child.pub)), PubKeyToHex(child.pub),
                     HdPath.FormatAccount(index)))
  }

  function DeriveAddress(lib: Library, g: Group, rootPubHex: string, keyID: string, path: Path): Result<Address>
    requires g.n > 0
  {
    match DeriveAccount(lib, g, rootPubHex, keyID, path.account)
    case Err(e) => Err(e)
    case Ok(account) =>
      match RootPubHexToECDSA(account.wallet.rootPubHex)
      case Err(e) => Err(e)
      case Ok(root) =>
        match Derive(Secp256k1(g, lib.hmac512), root, ChainCodeFromKeyID(lib, account.wallet.keyID),
                     PathFromAccountAndAddress(path))
        case Err(e) => Err(e)
        case Ok(child) =>
          Ok(Address(account, path.change, path.address, PubKeyToHex(child.pub), HdPath.FormatAddress(path)))
  }

  // ---- Ed25519 ----

  function KeyIDFromEd25519PubHex(lib: Library, pubHex: string): Result<string> {
    match HexDecode(pubHex)
    case None => Err("invalid pub hex")
    case Some(b) => if |b| != 32 then Err("invalid pub hex") else Ok(HexEncode(lib.sha256(b)))
  }

  function DeriveAccountEd25519(lib: Library, g: Group, ed: Codec, rootPubHex: string, keyID: string, index: u32)
      : Result<Account>
    requires g.n > 0
  {
    var expected := KeyIDFromEd25519PubHex(lib, rootPubHex);
    if keyID == "" && expected.Err? then Err(expected.error)
    else if keyID != "" && expected.Ok? && keyID != expected.value then Err("keyID mismatch with rootPubHex")
    else
      var resolved := if keyID == "" then expected.value else keyID;
      match DeriveEd25519(g, ed, lib.hmac512, rootPubHex, ChainCodeFromKeyID(lib, resolved), [index])
      case Err(e) => Err(e)
      case Ok(child) =>
        Ok(Account(Wallet(resolved, WalletIDFromKeyID(lib, resolved), rootPubHex), index,
                   AccountIDFromPubBytes(lib, ed.serialize(child.pub)), HexEncode(ed.serialize(child.pub)),
                   HdPath.FormatAccount(index)))
  }

  function DeriveAddressEd25519(lib: Library, g: Group, ed: Codec, rootPubHex: string, keyID: string, path: Path)
      : Result<Address>
    requires g.n > 0
  {
    match DeriveAccountEd25519(lib, g, ed, rootPubHex, keyID, path.account)
    case Err(e) => Err(e)
    case Ok(account) =>
      match DeriveEd25519(g, ed, lib.hmac512, rootPubHex, ChainCodeFromKeyID(lib, account.wallet.keyID),
                          PathFromAccountAndAddress(path))
      case Err(e) => Err(e)
      case Ok(child) =>
        Ok(Address(account, path.change, path.address, HexEncode(ed.serialize(child.pub)), HdPath.FormatAddress(path)))
  }

  // ---- Round trips of the published form ----

  lemma CoordRoundTrip(v: int)
    requires 0 <= v < TWO_256
    ensures Value(CoordBytes(v)) == v
  {
    Pad32Value(v);
  }

  // A published key is read back, if its coordinates fit 32 bytes.
  lemma PubHexRoundTrip(p: Point)
    requires 0 <= p.x < TWO_256 && 0 <= p.y < TWO_256
    ensures RootPubHexToECDSA(PubKeyToHex(p)) == Ok(p)
  {
    var b := PubKeyBytes(p);
    HexRoundTrip(b);
    CoordRoundTrip(p.x);
    CoordRoundTrip(p.y);
    assert b[1..33] == CoordBytes(p.x) && b[33..65] == CoordBytes(p.y);
  }

  // ---- What the address layers publish ----

  function AccountWalk(lib: Library, c: Curve, root: Point, keyID: string, account: u32): Result<Walk>
    requires c.group.n > 0
  {
    Derive(c, root, ChainCodeFromKeyID(lib, keyID), [account])
  }

  function AddressWalk(lib: Library, c: Curve, root: Point, keyID: string, path: Path): Result<Walk>
    requires c.group.n > 0
  {
    Derive(c, root, ChainCodeFromKeyID(lib, keyID), PathFromAccountAndAddress(path))
  }

  // The address key is the account key derived further by the last two indexes.
  lemma AccountIsParent(lib: Library, c: Curve, root: Point, keyID: string, path: Path)
    requires c.group.n > 0
    ensures var address := AddressWalk(lib, c, root, keyID, path);
      var account := AccountWalk(lib, c, root, keyID, path.account);
      address.Ok? ==>
        && account.Ok?
        && var rest := Derive(c, account.value.pub, account.value.cc, [path.change, path.address]);
        rest.Ok? && rest.value.pub == address.value.pub
        && (account.value.delta + rest.value.delta) % c.group.n == address.value.delta
  {
    var q: seq<u32> := [path.change, path.address];
    assert PathFromAccountAndAddress(path) == [path.account] + q;
    DeriveInTwoParts(c, root, ChainCodeFromKeyID(lib, keyID), [path.account], q);
  }

  // An address is published exactly when the root key parses, the key ID is empty or the
  // root's, and the whole path can be derived; its textual path parses to the path.
  lemma AddressPublishedIff(lib: Library, g: Group, rootPubHex: string, keyID: string, path: Path)
    requires g.n > 0
    ensures var r := DeriveAddress(lib, g, rootPubHex, keyID, path);
      var root := RootPubHexToECDSA(rootPubHex);
      var c := Secp256k1(g, lib.hmac512);
      && (r.Ok? <==> root.Ok? && keyID in {"", KeyIDFromPubXY(lib, root.value)}
                     && AddressWalk(lib, c, root.value, KeyIDFromPubXY(lib, root.value), path).Ok?)
      && (r.Ok? ==>
            var id := KeyIDFromPubXY(lib, root.value);
            && AccountWalk(lib, c, root.value, id, path.account).Ok?
            && r.value.pubHex == PubKeyToHex(AddressWalk(lib, c, root.value, id, path).value.pub)
            && r.value.account.pubHex == PubKeyToHex(AccountWalk(lib, c, root.value, id, path.account).value.pub)
            && r.value.account.wallet.keyID == id && HdPath.Parse(r.value.hdPath) == Ok(path))
  {
    HdPath.ParseFormat(path);
    if RootPubHexToECDSA(rootPubHex).Ok? {
      var root := RootPubHexToECDSA(rootPubHex).value;
      AccountIsParent(lib, Secp256k1(g, lib.hmac512), root, KeyIDFromPubXY(lib, root), path);
      assert rootPubHex != "";
    }
  }

  lemma AddressEd25519PublishedIff(lib: Library, g: Group, ed: Codec, rootPubHex: string, keyID: string, path: Path)
    requires g.n > 0
    ensures var r := DeriveAddressEd25519(lib, g, ed, rootPubHex, keyID, path);
      var root := ParseEd25519(ed, rootPubHex);
      var id := KeyIDFromEd25519PubHex(lib, rootPubHex);
      var c := Ed25519(g, ed, lib.hmac512);
      && (r.Ok? <==> root.Ok? && id.Ok? && keyID in {"", id.value}
                     && AddressWalk(lib, c, root.value, id.value, path).Ok?)
      && (r.Ok? ==>
            && AccountWalk(lib, c, root.value, id.value, path.account).Ok?
            && r.value.pubHex == HexEncode(ed.serialize(AddressWalk(lib, c, root.value, id.value, path).value.pub))
            && r.value.account.pubHex
               == HexEncode(ed.serialize(AccountWalk(lib, c, root.value, id.value, path.account).value.pub))
            && r.value.account.wallet.keyID == id.value && HdPath.Parse(r.value.hdPath) == Ok(path))
  {
    HdPath.ParseFormat(path);
    var id := KeyIDFromEd25519PubHex(lib, rootPubHex);
    if ParseEd25519(ed, rootPubHex).Ok? && id.Ok? {
      AccountIsParent(lib, Ed25519(g, ed, lib.hmac512), ParseEd25519(ed, rootPubHex).value, id.value, path);
    }
  }
}
