/** Bytes, ASCII, and strict UTF-8 decoding (RFC 3629, section 4). */
module Utf8 {
  import opened Wrappers

  type Byte = n: int | 0 <= n < 0x100

  type Bytes = seq<Byte>

  predicate Tail(byte: Byte) {
    0x80 <= byte <= 0xbf
  }

  /** The bits a byte adds to a code point, above the marker bits of its kind. */
  function Bits(byte: Byte, marker: int): int {
    byte - marker
  }

  /** The code point at the front and its length in bytes, if the bytes are well formed there. */
  function First(bytes: Bytes): (first: Option<(char, nat)>)
    requires bytes != []
    ensures first.Some? ==> 1 <= first.value.1 <= |bytes|
  {
    var b := bytes[0];
    if b < 0x80 then Some((b as char, 1))
    else if |bytes| >= 2 && 0xc2 <= b <= 0xdf && Tail(bytes[1]) then
      Some(((Bits(b, 0xc0) * 0x40 + Bits(bytes[1], 0x80)) as char, 2))
    else if |bytes| >= 3 && 0xe0 <= b <= 0xef && Tail(bytes[1]) && Tail(bytes[2])
            && (b == 0xe0 ==> bytes[1] >= 0xa0) && (b == 0xed ==> bytes[1] <= 0x9f) then
      Some(((Bits(b, 0xe0) * 0x1000 + Bits(bytes[1], 0x80) * 0x40 + Bits(bytes[2], 0x80)) as char, 3))
    else if |bytes| >= 4 && 0xf0 <= b <= 0xf4 && Tail(bytes[1]) && Tail(bytes[2]) && Tail(bytes[3])
            && (b == 0xf0 ==> bytes[1] >= 0x90) && (b == 0xf4 ==> bytes[1] <= 0x8f) then
      Some(((Bits(b, 0xf0) * 0x4_0000 + Bits(bytes[1], 0x80) * 0x1000 + Bits(bytes[2], 0x80) * 0x40 + Bits(bytes[3], 0x80)) as char, 4))
    else None
  }

  function DecodeUtf8(bytes: Bytes): Option<string> {
    if bytes == [] then Some("")
    else
      var first := First(bytes);
      if first.None? then None
      else
        var rest := DecodeUtf8(bytes[first.value.1..]);
        if rest.None? then None else Some([first.value.0] + rest.value)
  }

  predicate IsAscii(text: string) {
    forall i :: 0 <= i < |text| ==> text[i] < '\U{0080}'
  }

  function Ascii(text: string): (bytes: Bytes)
    requires IsAscii(text)
    ensures |bytes| == |text|
    ensures forall i :: 0 <= i < |text| ==> bytes[i] == text[i] as int
  {
    seq(|text|, i requires 0 <= i < |text| => text[i] as int)
  }

  lemma {:induction false} AsciiDecodes(text: string)
    requires IsAscii(text)
    ensures DecodeUtf8(Ascii(text)) == Some(text)
  {
    if text != "" {
      AsciiDecodes(text[1..]);
      assert Ascii(text)[1..] == Ascii(text[1..]);
      assert First(Ascii(text)) == Some((text[0], 1));
      assert text == [text[0]] + text[1..];
    }
  }
}
