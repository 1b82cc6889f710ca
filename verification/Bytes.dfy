/** Big-endian byte strings and their hexadecimal text. */
module Bytes {
  import opened Wrappers

  type byte = x: nat | x < 256
  type Bytes = seq<byte>
  type Bytes32 = b: Bytes | |b| == 32 witness seq(32, _ => 0)
  type Bytes64 = b: Bytes | |b| == 64 witness seq(64, _ => 0)
  type u32 = x: nat | x < 0x1_0000_0000

  function Pow256(m: nat): nat { if m == 0 then 1 else 256 * Pow256(m - 1) }

  const TWO_256: nat := 0x1_0000_0000_0000_0000_0000_0000_0000_0000_0000_0000_0000_0000_0000_0000_0000_0000

  lemma Pow256Of32()
    ensures Pow256(32) == TWO_256
  {
    assert Pow256(8) == 0x1_0000_0000_0000_0000;
    assert Pow256(16) == 0x1_0000_0000_0000_0000_0000_0000_0000_0000;
    assert Pow256(24) == 0x1_0000_0000_0000_0000_0000_0000_0000_0000_0000_0000_0000_0000;
  }

  // big.Int.SetBytes
  function Value(b: Bytes): nat {
    if b == [] then 0 else 256 * Value(b[..|b| - 1]) + b[|b| - 1]
  }

  // big.Int.Bytes: no leading zeros.
  function ToBytes(v: nat): Bytes {
    if v == 0 then [] else ToBytes(v / 256) + [v % 256]
  }

  function Zeros(k: nat): (z: Bytes)
    ensures |z| == k
  {
    seq(k, _ => 0)
  }

  // Shorter strings are filled on the left, longer ones lose their end.
  function Pad32(b: Bytes): Bytes32 {
    if |b| >= 32 then b[..32] else Zeros(32 - |b|) + b
  }

  function Ser32(i: u32): Bytes {
    [i / 0x100_0000, i / 0x1_0000 % 256, i / 0x100 % 256, i % 256]
  }

  lemma {:induction false} ValueToBytes(v: nat)
    ensures Value(ToBytes(v)) == v
  {
    if v > 0 {
      ValueToBytes(v / 256);
      assert ToBytes(v)[..|ToBytes(v)| - 1] == ToBytes(v / 256);
    }
  }

  lemma {:induction false} ToBytesLength(v: nat, m: nat)
    requires v < Pow256(m)
    ensures |ToBytes(v)| <= m
  {
    if v > 0 { ToBytesLength(v / 256, m - 1); }
  }

  lemma {:induction false} ValueBound(b: Bytes)
    ensures Value(b) < Pow256(|b|)
  {
    if b != [] { ValueBound(b[..|b| - 1]); }
  }

  lemma {:induction false} ValueOfPadded(k: nat, b: Bytes)
    ensures Value(Zeros(k) + b) == Value(b)
  {
    var padded := Zeros(k) + b;
    if b != [] {
      ValueOfPadded(k, b[..|b| - 1]);
      assert padded[..|padded| - 1] == Zeros(k) + b[..|b| - 1];
    } else if k > 0 {
      ValueOfPadded(k - 1, b);
      assert padded[..k - 1] == Zeros(k - 1) + b;
    } else {
      assert padded == b;
    }
  }

  // A number below 2^256 survives the 32-byte form.
  lemma Pad32Value(v: nat)
    requires v < TWO_256
    ensures Value(Pad32(ToBytes(v))) == v
  {
    Pow256Of32();
    ToBytesLength(v, 32);
    ValueToBytes(v);
    var b := ToBytes(v);
    ValueOfPadded(32 - |b|, b);
    if |b| == 32 { assert b[..32] == Zeros(0) + b; }
  }

  lemma {:induction false} ValueInjective(a: Bytes, b: Bytes)
    requires |a| == |b| && Value(a) == Value(b)
    ensures a == b
  {
    if a != [] {
      var x, y := a[|a| - 1], b[|b| - 1];
      assert x == Value(a) % 256 && y == Value(b) % 256;
      ValueInjective(a[..|a| - 1], b[..|b| - 1]);
      assert a == a[..|a| - 1] + [x] && b == b[..|b| - 1] + [y];
    }
  }

  // The index is read back from its four bytes.
  lemma ValueSer32(i: u32)
    ensures Value(Ser32(i)) == i
  {
    var b := Ser32(i);
    var b0: nat, b1: nat, b2: nat := b[0], b[1], b[2];
    assert b[..3][..2][..1][..0] == [];
    assert b[..3][..2][..1] == [b[0]] && b[..3][..2] == [b[0], b[1]] && b[..3] == [b[0], b[1], b[2]];
    assert Value(b[..3][..2][..1]) == b0;
    assert Value(b[..3][..2]) == 256 * b0 + b1;
    assert Value(b[..3]) == 256 * (256 * b0 + b1) + b2;
  }

  // ---- Hexadecimal text ----

  function Digit(d: nat): char
    requires d < 16
  {
    "0123456789abcdef"[d]
  }

  function DigitValue(c: char): (d: Option<nat>)
    ensures d.Some? ==> d.value < 16
  {
    if '0' <= c <= '9' then Some(c as nat - '0' as nat)
    else if 'a' <= c <= 'f' then Some(c as nat - 'a' as nat + 10)
    else if 'A' <= c <= 'F' then Some(c as nat - 'A' as nat + 10)
    else None
  }

  function HexEncode(b: Bytes): string {
    if b == [] then "" else [Digit(b[0] / 16), Digit(b[0] % 16)] + HexEncode(b[1..])
  }

  function HexDecode(s: string): Option<Bytes> {
    if s == "" then Some([])
    else if |s| == 1 || DigitValue(s[0]) == None || DigitValue(s[1]) == None || HexDecode(s[2..]) == None then None
    else
      Some([16 * DigitValue(s[0]).value + DigitValue(s[1]).value] + HexDecode(s[2..]).value)
  }

  lemma DigitRoundTrip(d: nat)
    requires d < 16
    ensures DigitValue(Digit(d)) == Some(d)
  {
  }

  lemma {:induction false} HexRoundTrip(b: Bytes)
    ensures HexDecode(HexEncode(b)) == Some(b)
  {
    if b != [] {
      var s := HexEncode(b);
      DigitRoundTrip(b[0] / 16);
      DigitRoundTrip(b[0] % 16);
      HexRoundTrip(b[1..]);
      assert s[0] == Digit(b[0] / 16) && s[1] == Digit(b[0] % 16) && s[2..] == HexEncode(b[1..]);
      assert [b[0]] + b[1..] == b;
    }
  }
}
