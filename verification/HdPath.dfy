/**
 The textual HD path m/0/account/change/address.  The parser accepts white space around
 it, an optional leading slash, an optional "m/" and leading zeros; it is shown to accept
 exactly these spellings and to read each as the triple its numerals denote.
 */
module HdPath {
  import opened Wrappers
  import opened Decimal
  import opened Strings

  datatype Path = Path(account: nat, change: nat, address: nat)

  predicate Uint32s(p: Path) { p.account <= MAX_U32 && p.change <= MAX_U32 && p.address <= MAX_U32 }

  function FormatAccount(account: nat): string { "m/0/" + Print(account) }

  function FormatAddress(p: Path): string {
    "m/0/" + Print(p.account) + "/" + Print(p.change) + "/" + Print(p.address)
  }

  // What is left of the text once the optional parts around it are gone.
  function Trimmed(text: string): string {
    TrimPrefix(TrimPrefix(TrimSpace(text), "/"), "m/")
  }

  function ParseParts(parts: seq<string>): Result<Path> {
    if |parts| != 4 then Err("invalid path length")
    else if parts[0] != "0" then Err("invalid purpose in path")
    else if ParseU32(parts[1]) == None then Err("invalid account index")
    else if ParseU32(parts[2]) == None then Err("invalid change index")
    else if ParseU32(parts[3]) == None then Err("invalid address index")
    else Ok(Path(ParseU32(parts[1]).value, ParseU32(parts[2]).value, ParseU32(parts[3]).value))
  }

  function Parse(text: string): Result<Path> {
    if Trimmed(text) == "" then Err("empty path") else ParseParts(Split(Trimmed(text), '/'))
  }

  // ---- The spellings of a path ----

  datatype Spelling = Spelling(left: string, slash: bool, em: bool, a: string, c: string, i: string, right: string)

  predicate Numeral(s: string) { s != "" && AllDigits(s) && Value(s) <= MAX_U32 }

  ghost predicate Legal(w: Spelling) {
    AllSpace(w.left) && AllSpace(w.right) && Numeral(w.a) && Numeral(w.c) && Numeral(w.i)
  }

  ghost function Body(w: Spelling): string { Join(["0", w.a, w.c, w.i], '/') }

  ghost function Core(w: Spelling): string {
    (if w.slash then "/" else "") + ((if w.em then "m/" else "") + Body(w))
  }

  ghost function Text(w: Spelling): string { w.left + Core(w) + w.right }

  ghost function Meaning(w: Spelling): Path
    requires Legal(w)
  {
    Path(Value(w.a), Value(w.c), Value(w.i))
  }

  lemma BodyShape(w: Spelling)
    ensures Body(w) == "0/" + w.a + "/" + w.c + "/" + w.i
  {
    var parts := ["0", w.a, w.c, w.i];
    assert parts[1..] == [w.a, w.c, w.i] && parts[1..][1..] == [w.c, w.i] && parts[1..][1..][1..] == [w.i];
    assert Join(parts[1..][1..], '/') == w.c + "/" + w.i;
    assert Join(parts[1..], '/') == w.a + "/" + (w.c + "/" + w.i);
  }

  lemma CoreIsTrimmed(w: Spelling)
    requires Legal(w)
    ensures TrimSpace(Text(w)) == Core(w)
  {
    BodyShape(w);
    var core := Core(w);
    assert core != "" && core[|core| - 1] == w.i[|w.i| - 1] && core[0] in {'/', 'm', '0'};
    TrimsSpace(w.left, core, w.right);
  }

  lemma CutsPrefix(present: bool, prefix: string, rest: string)
    requires prefix != "" && (!present ==> rest != "" && rest[0] != prefix[0])
    ensures TrimPrefix((if present then prefix else "") + rest, prefix) == rest
  {
    if present { assert (prefix + rest)[|prefix|..] == rest; } else { assert "" + rest == rest; }
  }

  lemma BodyIsTrimmed(w: Spelling)
    requires Legal(w)
    ensures Trimmed(Text(w)) == Body(w) && Body(w) != ""
  {
    CoreIsTrimmed(w);
    BodyShape(w);
    CutsPrefix(w.slash, "/", (if w.em then "m/" else "") + Body(w));
    CutsPrefix(w.em, "m/", Body(w));
  }

  lemma DigitsFree(s: string)
    requires AllDigits(s)
    ensures Free(s, '/')
  {
  }

  lemma BodySplits(w: Spelling)
    requires Legal(w)
    ensures Split(Body(w), '/') == ["0", w.a, w.c, w.i]
  {
    DigitsFree(w.a); DigitsFree(w.c); DigitsFree(w.i); DigitsFree("0");
    SplitJoin(["0", w.a, w.c, w.i], '/');
  }

  // Every spelling is accepted and read as the triple its numerals denote.
  lemma SpellingsAccepted(w: Spelling)
    requires Legal(w)
    ensures Parse(Text(w)) == Ok(Meaning(w))
  {
    BodyIsTrimmed(w);
    BodySplits(w);
  }

  lemma PrefixGoesBack(s: string, prefix: string)
    ensures s == (if prefix <= s then prefix else "") + TrimPrefix(s, prefix)
  {
  }

  // The spelling of an accepted text.
  lemma AcceptedIsSpelling(text: string) returns (w: Spelling)
    requires Parse(text).Ok?
    ensures Legal(w) && Text(w) == text && Meaning(w) == Parse(text).value
  {
    TrimSpaceSplits(text);
    var left, right :| AllSpace(left) && AllSpace(right) && text == left + TrimSpace(text) + right;
    var unslashed := TrimPrefix(TrimSpace(text), "/");
    var parts := Split(Trimmed(text), '/');
    w := Spelling(left, "/" <= TrimSpace(text), "m/" <= unslashed, parts[1], parts[2], parts[3], right);
    JoinSplit(Trimmed(text), '/');
    assert parts == ["0", w.a, w.c, w.i];
    PrefixGoesBack(unslashed, "m/");
    PrefixGoesBack(TrimSpace(text), "/");
  }

  // The parser accepts exactly the legal spellings of a triple.
  lemma ParseAcceptsExactly(text: string, p: Path)
    ensures Parse(text) == Ok(p) <==> exists w :: Legal(w) && Text(w) == text && Meaning(w) == p
  {
    if Parse(text) == Ok(p) {
      var w := AcceptedIsSpelling(text);
    }
    forall w | Legal(w) && Text(w) == text && Meaning(w) == p ensures Parse(text) == Ok(p) {
      SpellingsAccepted(w);
    }
  }

  // Parsing the printed form of a triple of 32-bit indices gives the triple back.
  lemma ParseFormat(p: Path)
    requires Uint32s(p)
    ensures Parse(FormatAddress(p)) == Ok(p)
  {
    PrintsDigits(p.account); PrintsDigits(p.change); PrintsDigits(p.address);
    var w := Spelling("", false, true, Print(p.account), Print(p.change), Print(p.address), "");
    PlainText(w);
    SpellingsAccepted(w);
  }

  lemma Glue(p: string, rest: string)
    ensures "m/" + (p + rest) == ("m/" + p) + rest
  {
  }

  lemma PlainText(w: Spelling)
    requires w.left == "" && !w.slash && w.em && w.right == ""
    ensures Text(w) == "m/0/" + w.a + "/" + w.c + "/" + w.i
  {
    BodyShape(w);
    Glue("0/" + w.a + "/" + w.c + "/", w.i);
    Glue("0/" + w.a + "/" + w.c, "/");
    Glue("0/" + w.a + "/", w.c);
    Glue("0/" + w.a, "/");
    Glue("0/", w.a);
    assert "m/" + "0/" == "m/0/";
    assert Core(w) == "m/" + Body(w);
  }

  // For every accepted text, printing what was read and parsing again gives the same triple.
  lemma FormatIsCanonical(text: string)
    requires Parse(text).Ok?
    ensures Uint32s(Parse(text).value) && Parse(FormatAddress(Parse(text).value)) == Parse(text)
  {
    var w := AcceptedIsSpelling(text);
    ParseFormat(Parse(text).value);
  }

  // The account layer's path is the address path without its last two indices.
  lemma AccountPathIsPrefix(p: Path)
    ensures FormatAccount(p.account) + "/" + Print(p.change) + "/" + Print(p.address) == FormatAddress(p)
  {
  }
}
