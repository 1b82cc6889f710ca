/**
 Refresh results as objects: big integers are mutable and shared by pointer, curve points
 and Pedersen parameters are values.  Cloning goes through a persisted form of decimal
 strings; zeroing overwrites the big integers in place.  What the crypto library checks
 when it rebuilds a point or a Paillier key is a parameter (`Library`).
 */
module RefreshMaterial {
  import opened Wrappers
  import opened CurveGroup
  import opened Decimal

  datatype Ped = Ped(n: int, s: int, t: int)

  datatype Library = Library(onCurve: Point -> bool, validPrimes: (int, int) -> bool)

  datatype PubJSON = PubJSON(x: string, y: string)
  datatype PedJSON = PedJSON(n: string, s: string, t: string)
  datatype RefreshPersist = RefreshPersist(
    share: string, p: string, q: string, partialPub: map<string, PubJSON>, ped: map<string, PedJSON>)

  // ---- The persisted form of the values ----

  // What a refresh result is worth to a signer.
  datatype Material = Material(share: int, p: int, q: int, partialPub: map<string, Point>, ped: map<string, Ped>)

  predicate Acceptable(lib: Library, m: Material) {
    lib.validPrimes(m.p, m.q) && forall id :: id in m.partialPub ==> lib.onCurve(m.partialPub[id])
  }

  function PubToJSON(p: Point): PubJSON { PubJSON(PrintInt(p.x), PrintInt(p.y)) }

  function PubFromJSON(lib: Library, j: PubJSON): Option<Point> {
    if ParseInt(j.x).None? || ParseInt(j.y).None? then None
    else
      var p := Point(ParseInt(j.x).value, ParseInt(j.y).value);
      if lib.onCurve(p) then Some(p) else None
  }

  function PedToJSON(p: Ped): PedJSON { PedJSON(PrintInt(p.n), PrintInt(p.s), PrintInt(p.t)) }

  function PedFromJSON(j: PedJSON): Option<Ped> {
    if ParseInt(j.n).None? || ParseInt(j.s).None? || ParseInt(j.t).None? then None
    else Some(Ped(ParseInt(j.n).value, ParseInt(j.s).value, ParseInt(j.t).value))
  }

  function ToPersist(m: Material): RefreshPersist {
    RefreshPersist(PrintInt(m.share), PrintInt(m.p), PrintInt(m.q),
                   map id | id in m.partialPub :: PubToJSON(m.partialPub[id]),
                   map id | id in m.ped :: PedToJSON(m.ped[id]))
  }

  // The persisted form is read back iff every numeral parses and the library accepts it.
  predicate Readable(lib: Library, j: RefreshPersist) {
    && ParseInt(j.share).Some? && ParseInt(j.p).Some? && ParseInt(j.q).Some?
    && lib.validPrimes(ParseInt(j.p).value, ParseInt(j.q).value)
    && (forall id :: id in j.partialPub ==> PubFromJSON(lib, j.partialPub[id]).Some?)
    && (forall id :: id in j.ped ==> PedFromJSON(j.ped[id]).Some?)
  }

  function Read(lib: Library, j: RefreshPersist): Material
    requires Readable(lib, j)
  {
    Material(ParseInt(j.share).value, ParseInt(j.p).value, ParseInt(j.q).value,
             map id | id in j.partialPub :: PubFromJSON(lib, j.partialPub[id]).value,
             map id | id in j.ped :: PedFromJSON(j.ped[id]).value)
  }

  lemma PubRoundTrip(lib: Library, p: Point)
    ensures PubFromJSON(lib, PubToJSON(p)) == if lib.onCurve(p) then Some(p) else None
  {
    ParsePrintInt(p.x); ParsePrintInt(p.y);
  }

  lemma PedRoundTrip(p: Ped)
    ensures PedFromJSON(PedToJSON(p)) == Some(p)
  {
    ParsePrintInt(p.n); ParsePrintInt(p.s); ParsePrintInt(p.t);
  }

  lemma PubMapRoundTrip(lib: Library, m: Material)
    requires forall id :: id in m.partialPub ==> lib.onCurve(m.partialPub[id])
    ensures var j := ToPersist(m).partialPub;
      && (forall id :: id in j ==> PubFromJSON(lib, j[id]).Some?)
      && (map id | id in j :: PubFromJSON(lib, j[id]).value) == m.partialPub
  {
    var j := ToPersist(m).partialPub;
    forall id | id in j ensures PubFromJSON(lib, j[id]) == Some(m.partialPub[id]) {
      PubRoundTrip(lib, m.partialPub[id]);
    }
  }

  lemma PedMapRoundTrip(m: Material)
    ensures var j := ToPersist(m).ped;
      && (forall id :: id in j ==> PedFromJSON(j[id]).Some?)
      && (map id | id in j :: PedFromJSON(j[id]).value) == m.ped
  {
    var j := ToPersist(m).ped;
    forall id | id in j ensures PedFromJSON(j[id]) == Some(m.ped[id]) {
      PedRoundTrip(m.ped[id]);
    }
  }

  // Material survives the trip through decimal strings unchanged, exactly when the library
  // accepts it.
  lemma PersistRoundTrip(lib: Library, m: Material)
    ensures Readable(lib, ToPersist(m)) <==> Acceptable(lib, m)
    ensures Acceptable(lib, m) ==> Read(lib, ToPersist(m)) == m
  {
    ParsePrintInt(m.share); ParsePrintInt(m.p); ParsePrintInt(m.q);
    PedMapRoundTrip(m);
    if Acceptable(lib, m) {
      PubMapRoundTrip(lib, m);
    } else if lib.validPrimes(m.p, m.q) {
      var id :| id in m.partialPub && !lib.onCurve(m.partialPub[id]);
      PubRoundTrip(lib, m.partialPub[id]);
      assert PubFromJSON(lib, ToPersist(m).partialPub[id]).None?;
    }
  }

  // Each number stands under its own name in the persisted form.
  lemma PersistedUnderItsName(m: Material, id: string)
    ensures var j := ToPersist(m);
      && ParseInt(j.share) == Some(m.share) && ParseInt(j.p) == Some(m.p) && ParseInt(j.q) == Some(m.q)
      && (id in m.partialPub ==> id in j.partialPub && ParseInt(j.partialPub[id].x) == Some(m.partialPub[id].x)
                                 && ParseInt(j.partialPub[id].y) == Some(m.partialPub[id].y))
      && (id in m.ped ==> id in j.ped && ParseInt(j.ped[id].n) == Some(m.ped[id].n)
                          && ParseInt(j.ped[id].s) == Some(m.ped[id].s) && ParseInt(j.ped[id].t) == Some(m.ped[id].t))
  {
    ParsePrintInt(m.share); ParsePrintInt(m.p); ParsePrintInt(m.q);
    if id in m.partialPub { ParsePrintInt(m.partialPub[id].x); ParsePrintInt(m.partialPub[id].y); }
    if id in m.ped { ParsePrintInt(m.ped[id].n); ParsePrintInt(m.ped[id].s); ParsePrintInt(m.ped[id].t); }
  }

  // ---- The objects ----

  class BigInt {
    var v: int

    constructor (v: int)
      ensures this.v == v
    {
      this.v := v;
    }
  }

  class PaillierKey {
    const p: BigInt?
    const q: BigInt?

    constructor (p: BigInt?, q: BigInt?)
      ensures this.p == p && this.q == q
    {
      this.p, this.q := p, q;
    }
  }

  // A nil point or parameter is None.
  class RefreshResult {
    const share: BigInt?
    const ySecret: BigInt?
    const key: PaillierKey?
    const partialPub: map<string, Option<Point>>
    const ped: map<string, Option<Ped>>

    constructor (share: BigInt?, ySecret: BigInt?, key: PaillierKey?,
                 partialPub: map<string, Option<Point>>, ped: map<string, Option<Ped>>)
      ensures this.share == share && this.ySecret == ySecret && this.key == key
      ensures this.partialPub == partialPub && this.ped == ped
    {
      this.share, this.ySecret, this.key, this.partialPub, this.ped := share, ySecret, key, partialPub, ped;
    }
  }

  function OneSecret(x: BigInt?): set<BigInt> { if x == null then {} else {x} }

  // The mutable objects a result points to.
  function Secrets(r: RefreshResult): set<BigInt> {
    OneSecret(r.share) + OneSecret(r.ySecret)
    + (if r.key == null then {} else OneSecret(r.key.p) + OneSecret(r.key.q))
  }

  // Everything a clone needs is there.
  predicate Complete(r: RefreshResult) {
    && r.share != null && r.key != null && r.key.p != null && r.key.q != null
    && forall id :: id in r.partialPub ==> r.partialPub[id].Some?
  }

  ghost function ValueOf(r: RefreshResult): Material
    requires Complete(r)
    reads Secrets(r)
  {
    Material(r.share.v, r.key.p.v, r.key.q.v,
             map id | id in r.partialPub :: r.partialPub[id].value,
             map id | id in r.ped && r.ped[id].Some? :: r.ped[id].value)
  }

  ghost predicate Clonable(lib: Library, r: RefreshResult)
    reads Secrets(r)
  {
    Complete(r) && Acceptable(lib, ValueOf(r))
  }

  // ---- Zeroing ----

  // x.Bytes() is a copy, so clearing it leaves x alone; SetInt64(0) then clears the value.
  method ZeroBigInt(x: BigInt?)
    modifies if x == null then {} else {x}
    ensures x != null ==> x.v == 0
  {
    if x == null { return; }
    x.v := 0;
  }

  method ZeroRefreshResult(r: RefreshResult?)
    modifies if r == null then {} else Secrets(r)
    ensures r != null ==> forall x :: x in Secrets(r) ==> x.v == 0
  {
    if r == null { return; }
    ZeroBigInt(r.share);
    ZeroBigInt(r.ySecret);
    if r.key != null {
      ZeroBigInt(r.key.p);
      ZeroBigInt(r.key.q);
    }
  }

  // ---- Cloning ----

  // big.Int.String of a nil pointer prints "<nil>".
  function PrintRef(x: BigInt?): string
    reads OneSecret(x)
  {
    if x == null then "<nil>" else PrintInt(x.v)
  }

  function PubRefToJSON(p: Option<Point>): PubJSON {
    match p case Some(point) => PubToJSON(point) case None => PubJSON("", "")
  }

  method PubMapToJSON(m: map<string, Option<Point>>) returns (out: map<string, PubJSON>)
    ensures out.Keys == m.Keys
    ensures forall id :: id in m ==>
      out[id] == PubRefToJSON(m[id])
  {
    out := map[];
    var ids := m.Keys;
    while ids != {}
      invariant ids <= m.Keys && out.Keys == m.Keys - ids
      invariant forall id :: id in out ==>
        out[id] == PubRefToJSON(m[id])
      decreases |ids|
    {
      var id :| id in ids;
      ids := ids - {id};
      out := out[id := PubRefToJSON(m[id])];
    }
  }

  method PubMapFromJSON(lib: Library, m: map<string, PubJSON>) returns (out: Option<map<string, Option<Point>>>)
    ensures out.Some? <==> forall id :: id in m ==> PubFromJSON(lib, m[id]).Some?
    ensures out.Some? ==> out.value.Keys == m.Keys
    ensures out.Some? ==> forall id :: id in m ==> out.value[id] == PubFromJSON(lib, m[id])
  {
    var built: map<string, Option<Point>> := map[];
    var ids := m.Keys;
    while ids != {}
      invariant ids <= m.Keys && built.Keys == m.Keys - ids
      invariant forall id :: id in built ==> built[id] == PubFromJSON(lib, m[id]) && built[id].Some?
      decreases |ids|
    {
      var id :| id in ids;
      ids := ids - {id};
      var p := PubFromJSON(lib, m[id]);
      if p.None? { return None; }
      built := built[id := p];
    }
    return Some(built);
  }

  // The persisted form of a result that may lack a share or partial keys.
  ghost function PersistedForm(r: RefreshResult): RefreshPersist
    requires r.key != null && r.key.p != null && r.key.q != null
    reads Secrets(r)
  {
    RefreshPersist(
      PrintRef(r.share), PrintInt(r.key.p.v), PrintInt(r.key.q.v),
      map id | id in r.partialPub :: PubRefToJSON(r.partialPub[id]),
      map id | id in r.ped && r.ped[id].Some? :: PedToJSON(r.ped[id].value))
  }

  lemma CompleteForm(r: RefreshResult)
    requires Complete(r)
    ensures PersistedForm(r) == ToPersist(ValueOf(r))
  {
    assert PersistedForm(r).partialPub == ToPersist(ValueOf(r)).partialPub;
    assert PersistedForm(r).ped == ToPersist(ValueOf(r)).ped;
  }

  lemma IncompleteForm(lib: Library, r: RefreshResult)
    requires r.key != null && r.key.p != null && r.key.q != null && !Complete(r)
    ensures !Readable(lib, PersistedForm(r))
  {
    if r.share != null {
      var id :| id in r.partialPub && r.partialPub[id].None?;
      assert PubFromJSON(lib, PersistedForm(r).partialPub[id]).None?;
    }
  }

  method RefreshResultToPersist(r: RefreshResult?) returns (out: Option<RefreshPersist>)
    ensures out.Some? <==> r != null && r.key != null && r.key.p != null && r.key.q != null
    ensures out.Some? ==> out.value == PersistedForm(r)
  {
    if r == null || r.key == null || r.key.p == null || r.key.q == null { return None; }
    var ped: map<string, PedJSON> := map[];
    var ids := r.ped.Keys;
    while ids != {}
      invariant ids <= r.ped.Keys
      invariant ped.Keys == set id | id in r.ped && id !in ids && r.ped[id].Some?
      invariant forall id :: id in ped ==> ped[id] == PedToJSON(r.ped[id].value)
      decreases |ids|
    {
      var id :| id in ids;
      ids := ids - {id};
      if r.ped[id].Some? {
        ped := ped[id := PedToJSON(r.ped[id].value)];
      }
    }
    var partialPub := PubMapToJSON(r.partialPub);
    return Some(RefreshPersist(PrintRef(r.share), PrintRef(r.key.p), PrintRef(r.key.q), partialPub, ped));
  }

  method PedMapFromJSON(m: map<string, PedJSON>) returns (out: Option<map<string, Option<Ped>>>)
    ensures out.Some? <==> forall id :: id in m ==> PedFromJSON(m[id]).Some?
    ensures out.Some? ==> out.value.Keys == m.Keys
    ensures out.Some? ==> forall id :: id in m ==> out.value[id] == PedFromJSON(m[id])
  {
    var built: map<string, Option<Ped>> := map[];
    var ids := m.Keys;
    while ids != {}
      invariant ids <= m.Keys && built.Keys == m.Keys - ids
      invariant forall id :: id in built ==> built[id] == PedFromJSON(m[id]) && built[id].Some?
      decreases |ids|
    {
      var id :| id in ids;
      ids := ids - {id};
      var parsed := PedFromJSON(m[id]);
      if parsed.None? { return None; }
      built := built[id := parsed];
    }
    return Some(built);
  }

  lemma ConvertedMaps(lib: Library, j: RefreshPersist, pubs: map<string, Option<Point>>, peds: map<string, Option<Ped>>)
    requires Readable(lib, j) && pubs.Keys == j.partialPub.Keys && peds.Keys == j.ped.Keys
    requires forall id :: id in pubs ==> pubs[id] == PubFromJSON(lib, j.partialPub[id])
    requires forall id :: id in peds ==> peds[id] == PedFromJSON(j.ped[id])
    ensures (map id | id in pubs :: pubs[id].value) == Read(lib, j).partialPub
    ensures (map id | id in peds :: peds[id].value) == Read(lib, j).ped
  {
  }

  method RefreshResultFromPersist(lib: Library, j: RefreshPersist) returns (r: RefreshResult?)
    ensures r != null <==> Readable(lib, j)
    ensures r != null ==> fresh(r) && fresh(r.key) && fresh(Secrets(r)) && r.ySecret == null
    ensures r != null ==> Complete(r) && ValueOf(r) == Read(lib, j)
  {
    var share, p, q := ParseInt(j.share), ParseInt(j.p), ParseInt(j.q);
    if share.None? || p.None? || q.None? { return null; }
    if !lib.validPrimes(p.value, q.value) { return null; }
    var partialPub := PubMapFromJSON(lib, j.partialPub);
    if partialPub.None? { return null; }
    var ped := PedMapFromJSON(j.ped);
    if ped.None? { return null; }
    ConvertedMaps(lib, j, partialPub.value, ped.value);
    r := NewResult(share.value, p.value, q.value, partialPub.value, ped.value);
  }

  method NewResult(share: int, p: int, q: int, partialPub: map<string, Option<Point>>, ped: map<string, Option<Ped>>)
      returns (r: RefreshResult)
    requires (forall id :: id in partialPub ==> partialPub[id].Some?) && (forall id :: id in ped ==> ped[id].Some?)
    ensures fresh(r) && fresh(Secrets(r)) && Complete(r) && fresh(r.key) && r.ySecret == null
    ensures ValueOf(r) == Material(share, p, q, map id | id in partialPub :: partialPub[id].value,
                                   map id | id in ped :: ped[id].value)
  {
    var shareRef := new BigInt(share);
    var pRef := new BigInt(p);
    var qRef := new BigInt(q);
    var key := new PaillierKey(pRef, qRef);
    r := new RefreshResult(shareRef, null, key, partialPub, ped);
    assert ValueOf(r).ped == map id | id in ped :: ped[id].value;
  }

  // A clone is made exactly of what the library accepts, has the same value, is clonable
  // again, and consists of new objects.
  method CloneRefreshResult(lib: Library, r: RefreshResult?) returns (c: RefreshResult?)
    ensures c != null <==> r != null && Clonable(lib, r)
    ensures c != null ==> fresh(c) && fresh(c.key) && fresh(Secrets(c))
    ensures c != null ==> Clonable(lib, c) && ValueOf(c) == ValueOf(r)
  {
    var j := RefreshResultToPersist(r);
    if j.None? { return null; }
    if Complete(r) {
      CompleteForm(r);
      PersistRoundTrip(lib, ValueOf(r));
    } else {
      IncompleteForm(lib, r);
    }
    c := RefreshResultFromPersist(lib, j.value);
  }
}
