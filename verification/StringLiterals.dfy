// The encoding of string literals, which are sequences of UTF-16 code units, into text
// (compiler-backend/javascript/src/tree.rs). Surrogates that are not paired as section 2.2 of
// RFC 2781 requires have no place in text, and are spelled out.
module StringLiterals {

  // ---------------------------------------------------------------- code units and characters

  type CodeUnit = u: nat | u < 0x1_0000

  type Scalar = c: nat | c < 0xD800 || 0xE000 <= c < 0x11_0000

  type Text = seq<Scalar>

  const REPLACEMENT: Scalar := 0xFFFD

  predicate IsHigh(u: CodeUnit) {
    0xD800 <= u < 0xDC00
  }

  predicate IsLow(u: CodeUnit) {
    0xDC00 <= u < 0xE000
  }

  // What a stretch of code units stands for.
  datatype Item = Character(character: Scalar) | Unpaired(surrogate: CodeUnit)

  function Pair(high: CodeUnit, low: CodeUnit): Scalar
    requires IsHigh(high) && IsLow(low)
  {
    0x1_0000 + (high - 0xD800) * 0x400 + (low - 0xDC00)
  }

  // Reads code units, a pair of surrogates as one character.
  function DecodeUnits(units: seq<CodeUnit>): seq<Item> {
    if units == [] then []
    else if IsHigh(units[0]) && |units| > 1 && IsLow(units[1]) then
      [Character(Pair(units[0], units[1]))] + DecodeUnits(units[2..])
    else if IsHigh(units[0]) || IsLow(units[0]) then [Unpaired(units[0])] + DecodeUnits(units[1..])
    else [Character(units[0])] + DecodeUnits(units[1..])
  }

  function EncodeCharacter(c: Scalar): seq<CodeUnit> {
    if c < 0x1_0000 then [c]
    else [0xD800 + (c - 0x1_0000) / 0x400, 0xDC00 + (c - 0x1_0000) % 0x400]
  }

  // The code units of text.
  function EncodeText(text: Text): seq<CodeUnit> {
    if text == [] then [] else EncodeCharacter(text[0]) + EncodeText(text[1..])
  }

  ghost predicate IsUtf16(units: seq<CodeUnit>) {
    exists text: Text :: EncodeText(text) == units
  }

  // ---------------------------------------------------------------- spelling out surrogates

  function Digit(d: nat): Scalar
    requires d < 16
  {
    if d < 10 then 0x30 + d else 0x61 + (d - 10)
  }

  function DigitValue(c: Scalar): nat {
    if 0x30 <= c < 0x3A then c - 0x30 else if 0x61 <= c < 0x67 then c - 0x61 + 10 else 0
  }

  // Four hexadecimal digits, in lower case.
  function Hexadecimal(u: CodeUnit): Text {
    [Digit(u / 0x1000), Digit(u / 0x100 % 0x10), Digit(u / 0x10 % 0x10), Digit(u % 0x10)]
  }

  // A replacement character announces a code unit that is spelled out, itself included.
  function Spelled(item: Item): Text {
    match item
    case Character(c) => if c == REPLACEMENT then [REPLACEMENT] + Hexadecimal(REPLACEMENT) else [c]
    case Unpaired(u) => [REPLACEMENT] + Hexadecimal(u)
  }

  function SpelledAll(items: seq<Item>): Text {
    if items == [] then [] else Spelled(items[0]) + SpelledAll(items[1..])
  }

  // ---------------------------------------------------------------- reading the text back

  function CodeUnitOf(digits: Text): CodeUnit
    requires |digits| == 4
  {
    DigitValue(digits[0]) * 0x1000 + DigitValue(digits[1]) * 0x100 + DigitValue(digits[2]) * 0x10 + DigitValue(digits[3])
  }

  // The code units of text in which surrogates are spelled out.
  function DecodeSpelled(text: Text): seq<CodeUnit> {
    if text == [] then []
    else if text[0] == REPLACEMENT && |text| >= 5 then [CodeUnitOf(text[1..5])] + DecodeSpelled(text[5..])
    else EncodeCharacter(text[0]) + DecodeSpelled(text[1..])
  }

  function DecodeText(text: Text, spelled: bool): seq<CodeUnit> {
    if spelled then DecodeSpelled(text) else EncodeText(text)
  }

  // ---------------------------------------------------------------- encoding

  predicate HasUnpaired(items: seq<Item>) {
    exists k :: 0 <= k < |items| && items[k].Unpaired?
  }

  function ItemUnits(item: Item): seq<CodeUnit> {
    match item
    case Character(c) => EncodeCharacter(c)
    case Unpaired(u) => [u]
  }

  function AllUnits(items: seq<Item>): seq<CodeUnit> {
    if items == [] then [] else ItemUnits(items[0]) + AllUnits(items[1..])
  }

  lemma PairEncodes(high: CodeUnit, low: CodeUnit)
    requires IsHigh(high) && IsLow(low)
    ensures EncodeCharacter(Pair(high, low)) == [high, low]
  {
  }

  // Decoding loses nothing.
  lemma {:induction false} DecodedUnits(units: seq<CodeUnit>)
    ensures AllUnits(DecodeUnits(units)) == units
  {
    if units != [] {
      if IsHigh(units[0]) && |units| > 1 && IsLow(units[1]) {
        PairEncodes(units[0], units[1]);
        DecodedUnits(units[2..]);
        assert units == [units[0], units[1]] + units[2..];
      } else {
        DecodedUnits(units[1..]);
      }
    }
  }

  lemma HexadecimalReadsBack(u: CodeUnit)
    ensures CodeUnitOf(Hexadecimal(u)) == u
  {
    DigitsOf(u);
    assert forall d: nat :: d < 16 ==> DigitValue(Digit(d)) == d;
  }

  lemma DigitsOf(u: CodeUnit)
    ensures u / 0x1000 < 16
    ensures u / 0x1000 * 0x1000 + u / 0x100 % 0x10 * 0x100 + u / 0x10 % 0x10 * 0x10 + u % 0x10 == u
  {
    assert u / 0x100 == u / 0x1000 * 0x10 + u / 0x100 % 0x10;
    assert u / 0x10 == u / 0x100 * 0x10 + u / 0x10 % 0x10;
    assert u == u / 0x10 * 0x10 + u % 0x10;
  }

  // A spelled item is read back as its code units, whatever follows.
  lemma SpelledReadsBack(item: Item, rest: Text)
    ensures DecodeSpelled(Spelled(item) + rest) == ItemUnits(item) + DecodeSpelled(rest)
  {
    var text := Spelled(item) + rest;
    if item.Character? && item.character != REPLACEMENT {
      assert text[1..] == rest;
    } else {
      var u := if item.Unpaired? then item.surrogate else REPLACEMENT;
      assert text[1..5] == Hexadecimal(u) && text[5..] == rest;
      HexadecimalReadsBack(u);
    }
  }

  lemma {:induction false} SpelledAllReadsBack(items: seq<Item>)
    ensures DecodeSpelled(SpelledAll(items)) == AllUnits(items)
  {
    if items != [] {
      SpelledReadsBack(items[0], SpelledAll(items[1..]));
      SpelledAllReadsBack(items[1..]);
    }
  }

  function Characters(items: seq<Item>): Text
    requires !HasUnpaired(items)
  {
    if items == [] then []
    else
      assert items[0].Character?;
      assert forall k :: 0 <= k < |items[1..]| ==> items[1..][k] == items[k + 1];
      [items[0].character] + Characters(items[1..])
  }

  lemma {:induction false} CharactersEncode(items: seq<Item>)
    requires !HasUnpaired(items)
    ensures EncodeText(Characters(items)) == AllUnits(items)
  {
    if items != [] {
      assert items[0].Character?;
      assert forall k :: 0 <= k < |items[1..]| ==> items[1..][k] == items[k + 1];
      CharactersEncode(items[1..]);
      assert Characters(items)[1..] == Characters(items[1..]);
    }
  }

  // Text is decoded to its characters.
  lemma {:induction false} EncodedTextDecodes(text: Text)
    ensures !HasUnpaired(DecodeUnits(EncodeText(text)))
  {
    if text != [] {
      var c, rest := text[0], EncodeText(text[1..]);
      EncodedTextDecodes(text[1..]);
      var units := EncodeCharacter(c) + rest;
      if c < 0x1_0000 {
        assert units[1..] == rest;
      } else {
        assert IsHigh(units[0]) && IsLow(units[1]) && units[2..] == rest;
      }
      var items := DecodeUnits(units);
      assert items[0].Character? && items[1..] == DecodeUnits(rest);
      assert forall k :: 1 <= k < |items| ==> items[k] == items[1..][k - 1];
    }
  }

  lemma {:induction false} SpelledNext(items: seq<Item>, k: nat)
    requires k < |items|
    ensures SpelledAll(items[..k + 1]) == SpelledAll(items[..k]) + Spelled(items[k])
  {
    hide Spelled;
    if k == 0 {
      assert items[..1] == [items[0]] && items[..1][1..] == [];
    } else {
      SpelledNext(items[1..], k - 1);
      assert items[..k + 1][1..] == items[1..][..k];
      assert items[..k][1..] == items[1..][..k - 1];
    }
  }

  // Encodes a string literal. Reading the text back gives the very same code units, and
  // surrogates are spelled out only where the literal is not UTF-16.
  method EncodeLiteral(units: seq<CodeUnit>) returns (text: Text, spelled: bool)
    ensures DecodeText(text, spelled) == units
    ensures !spelled <==> IsUtf16(units)
  {
    var items := DecodeUnits(units);
    DecodedUnits(units);
    spelled := HasUnpaired(items);
    if IsUtf16(units) {
      var source: Text :| EncodeText(source) == units;
      EncodedTextDecodes(source);
    }
    if !spelled {
      text := Characters(items);
      CharactersEncode(items);
      return;
    }
    text := [];
    for k := 0 to |items|
      invariant text == SpelledAll(items[..k])
    {
      SpelledNext(items, k);
      match items[k] {
        case Character(c) =>
          if c == REPLACEMENT {
            text := text + ([REPLACEMENT] + Hexadecimal(REPLACEMENT));
          } else {
            text := text + [c];
          }
        case Unpaired(u) =>
          text := text + ([REPLACEMENT] + Hexadecimal(u));
      }
    }
    assert items[..|items|] == items;
    SpelledAllReadsBack(items);
  }
}
