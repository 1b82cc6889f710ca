/**
 What the MAC of a derivation step is given, told by a reader of the bytes: the parent's point
 and the index.  The point is read as BIP 32 writes it, independently of how it is written.
 */
module MacData {
  import opened Wrappers
  import opened Bytes
  import opened CurveGroup
  import opened Derivation

  // Reading a compressed point as BIP 32 writes it (section "Conventions", serP): its x
  // coordinate, and whether y is even.
  function ReadPoint(b: Bytes): Option<(nat, bool)> {
    if |b| != 33 then None
    else if b[0] == 2 then Some((Value(b[1..]), true))
    else if b[0] == 3 then Some((Value(b[1..]), false))
    else None
  }

  predicate Fits(p: Point) { 0 <= p.x < TWO_256 && 0 <= p.y < TWO_256 }

  // A point is read back from its compressed form up to the sign of y.
  lemma CompressedIsRead(p: Point)
    requires Fits(p)
    ensures |Compressed(p)| == 33 && ReadPoint(Compressed(p)) == Some((p.x, p.y % 2 == 0))
  {
    Pad32Value(p.x);
    assert Compressed(p)[1..] == CoordBytes(p.x);
  }

  lemma CompressedAlike(p: Point, q: Point)
    requires Fits(p) && Fits(q)
    ensures Compressed(p) == Compressed(q) <==> p.x == q.x && p.y % 2 == q.y % 2
  {
    CompressedIsRead(p);
    CompressedIsRead(q);
  }

  lemma Ser32Length(i: u32)
    ensures |Ser32(i)| == 4
  {
  }

  // On secp256k1 the MAC of an index is taken over 37 bytes: the parent's compressed point,
  // and the index in four bytes; its left half is read as a number, and its right half is the
  // next chain code.
  lemma MacInput(g: Group, hmac512: (Bytes, Bytes) -> Bytes64, pub: Point, cc: Bytes32, index: u32)
      returns (data: Bytes)
    requires Fits(pub)
    ensures |data| == 37 && ReadPoint(data[..33]) == Some((pub.x, pub.y % 2 == 0)) && Value(data[33..]) == index
    ensures Mac(Secp256k1(g, hmac512), pub, cc, index)
      == Some((Value(hmac512(cc, data)[..32]), hmac512(cc, data)[32..]))
  {
    data := Compressed(pub) + Ser32(index);
    CompressedIsRead(pub);
    Ser32Length(index);
    ValueSer32(index);
    assert data[..33] == Compressed(pub) && data[33..] == Ser32(index);
    assert Pad32(hmac512(cc, data)[..32]) == hmac512(cc, data)[..32];
  }

  // On Ed25519 over 36: the library's 32 bytes of the point, and the index.
  lemma MacInputEd25519(g: Group, ed: Codec, hmac512: (Bytes, Bytes) -> Bytes64, pub: Point, cc: Bytes32, index: u32)
      returns (data: Bytes)
    requires pub != g.zero
    ensures |data| == 36 && data[..32] == ed.serialize(pub) && Value(data[32..]) == index
    ensures Mac(Ed25519(g, ed, hmac512), pub, cc, index)
      == Some((Value(hmac512(cc, data)[..32]), hmac512(cc, data)[32..]))
  {
    data := ed.serialize(pub) + Ser32(index);
    Ser32Length(index);
    ValueSer32(index);
    assert data[..32] == ed.serialize(pub) && data[32..] == Ser32(index);
    assert Pad32(hmac512(cc, data)[..32]) == hmac512(cc, data)[..32];
  }
}
