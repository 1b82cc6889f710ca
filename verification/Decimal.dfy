/** Decimal numerals: how big.Int and the path formatter print, and what their parsers accept. */
module Decimal {
  import opened Wrappers

  predicate IsDigit(c: char) { '0' <= c <= '9' }

  predicate AllDigits(s: string) { forall i :: 0 <= i < |s| ==> IsDigit(s[i]) }

  function DigitOf(d: nat): char
    requires d < 10
  {
    ('0' as int + d) as char
  }

  function ValueOf(c: char): nat
    requires IsDigit(c)
  {
    c as int - '0' as int
  }

  function Print(n: nat): string {
    if n < 10 then [DigitOf(n)] else Print(n / 10) + [DigitOf(n % 10)]
  }

  // The value of a string of digits, leading zeros allowed.
  function Value(s: string): nat
    requires AllDigits(s)
  {
    if s == "" then 0 else 10 * Value(s[..|s| - 1]) + ValueOf(s[|s| - 1])
  }

  lemma {:induction false} PrintsDigits(n: nat)
    ensures Print(n) != "" && AllDigits(Print(n)) && Value(Print(n)) == n
    ensures n > 0 ==> Print(n)[0] != '0'
  {
    if n < 10 {
      assert Print(n)[..0] == "";
    } else {
      PrintsDigits(n / 10);
      var s := Print(n);
      assert s[..|s| - 1] == Print(n / 10);
    }
  }

  // ---- Integers: big.Int.String and SetString(_, 10) ----

  function PrintInt(v: int): string {
    if v < 0 then "-" + Print(-v) else Print(v)
  }

  function ParseInt(s: string): Option<int> {
    if s != "" && (s[0] == '-' || s[0] == '+') then
      if s[1..] != "" && AllDigits(s[1..])
      then
        var v: int := Value(s[1..]);
        Some(if s[0] == '-' then -v else v)
      else None
    else if s != "" && AllDigits(s) then Some(Value(s)) else None
  }

  lemma ParsePrintInt(v: int)
    ensures ParseInt(PrintInt(v)) == Some(v)
  {
    PrintsDigits(if v < 0 then -v else v);
    assert v < 0 ==> PrintInt(v)[1..] == Print(-v);
    assert v >= 0 ==> IsDigit(PrintInt(v)[0]);
  }

  predicate Signed(s: string) { s != "" && (s[0] == '-' || s[0] == '+') }

  // A sign may stand in front of any unsigned text: plus changes nothing, minus negates.
  lemma SignsAreRead(s: string)
    requires !Signed(s)
    ensures ParseInt("+" + s) == ParseInt(s)
    ensures ParseInt("-" + s) == match ParseInt(s) case None => None case Some(v) => Some(-v)
    ensures ParseInt(s).Some? <==> s != "" && AllDigits(s)
  {
    assert ("+" + s)[1..] == s && ("-" + s)[1..] == s;
  }

  // ---- strconv.ParseUint(s, 10, 32) ----

  const MAX_U32 := 0xFFFF_FFFF

  function ParseU32(s: string): Option<nat> {
    if s != "" && AllDigits(s) && Value(s) <= MAX_U32 then Some(Value(s)) else None
  }

  // A longer numeral is at least as large, so stopping at the first overflow loses nothing.
  lemma {:induction false} ValueGrows(s: string, i: nat)
    requires AllDigits(s) && i <= |s|
    ensures Value(s[..i]) <= Value(s)
    decreases |s|
  {
    if i < |s| {
      assert s[..|s| - 1][..i] == s[..i];
      ValueGrows(s[..|s| - 1], i);
    } else {
      assert s[..i] == s;
    }
  }

  // The parser's loop: digit by digit, giving up at the first character that is no digit or
  // when the value leaves 32 bits.
  method ParseUint32(s: string) returns (r: Option<nat>)
    ensures r == ParseU32(s)
  {
    if s == "" { return None; }
    var n, i := 0, 0;
    while i < |s|
      invariant 0 <= i <= |s|
      invariant AllDigits(s[..i]) && n == Value(s[..i]) <= MAX_U32
    {
      if !IsDigit(s[i]) {
        return None;
      }
      assert s[..i + 1][..i] == s[..i] && AllDigits(s[..i + 1]);
      n := 10 * n + ValueOf(s[i]);
      i := i + 1;
      if n > MAX_U32 {
        if AllDigits(s) { ValueGrows(s, i); }
        return None;
      }
    }
    assert s[..i] == s;
    return Some(n);
  }
}
