/**
 Strings as JavaScript holds them, sequences of UTF-16 units, and what they weigh once they
 are UTF-8 (RFC 3629, section 3) or a JSON string in UTF-8 (RFC 8259, section 7).
 */
module JsonText {

  type Unit = n: int | 0 <= n < 0x1_0000

  type Text = seq<Unit>

  predicate High(unit: Unit) {
    0xd800 <= unit <= 0xdbff
  }

  predicate Low(unit: Unit) {
    0xdc00 <= unit <= 0xdfff
  }

  /** A surrogate pair starts here. */
  predicate PairAt(text: Text, at: int) {
    0 <= at < |text| - 1 && High(text[at]) && Low(text[at + 1])
  }

  /** The bytes of one unit that is not half of a pair: a lone surrogate becomes U+FFFD. */
  function Utf8Unit(unit: Unit): (bytes: nat)
    ensures 1 <= bytes <= 3
  {
    if unit < 0x80 then 1 else if unit < 0x800 then 2 else 3
  }

  function Utf8Length(text: Text): (bytes: nat)
    ensures |text| <= bytes <= 3 * |text|
  {
    if text == [] then 0
    else if PairAt(text, 0) then 4 + Utf8Length(text[2..])
    else Utf8Unit(text[0]) + Utf8Length(text[1..])
  }

  /** The bytes of one unit inside a JSON string: short escapes, \u escapes and plain UTF-8. */
  function EscapedUnit(unit: Unit): (bytes: nat)
    ensures 1 <= bytes <= 6
  {
    if unit in {0x22, 0x5c, 0x08, 0x09, 0x0a, 0x0c, 0x0d} then 2
    else if unit < 0x20 || High(unit) || Low(unit) then 6
    else Utf8Unit(unit)
  }

  function EscapedLength(text: Text): (bytes: nat)
    ensures bytes <= 6 * |text|
  {
    if text == [] then 0
    else if PairAt(text, 0) then 4 + EscapedLength(text[2..])
    else EscapedUnit(text[0]) + EscapedLength(text[1..])
  }

  /** The size of a text as a JSON string, quotes included. */
  function EncodedBytes(text: Text): nat {
    2 + EscapedLength(text)
  }

  /** Dropping a last unit that does not end a pair makes a text that much lighter. */
  lemma {:induction false} DropLast(text: Text)
    requires text != [] && !PairAt(text, |text| - 2)
    ensures EscapedLength(text) == EscapedLength(text[..|text| - 1]) + EscapedUnit(text[|text| - 1])
  {
    var front := text[..|text| - 1];
    if |text| == 1 {
      assert text[1..] == [];
    } else if PairAt(text, 0) {
      assert text[2..][..|text| - 3] == front[2..];
      assert PairAt(text[2..], |text| - 4) ==> PairAt(text, |text| - 2);
      DropLast(text[2..]);
      assert PairAt(front, 0);
    } else {
      assert text[1..][..|text| - 2] == front[1..];
      assert PairAt(text[1..], |text| - 3) ==> PairAt(text, |text| - 2);
      DropLast(text[1..]);
    }
  }
}
