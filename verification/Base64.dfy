/** Base 64 (RFC 4648, section 4). */
module Base64 {
  import opened Seqs
  import opened Utf8

  type Sextet = n: int | 0 <= n < 64

  function Letter(n: Sextet): char {
    if n < 26 then (n + 'A' as int) as char
    else if n < 52 then (n - 26 + 'a' as int) as char
    else if n < 62 then (n - 52 + '0' as int) as char
    else if n == 62 then '+' else '/'
  }

  predicate IsLetter(c: char) {
    'A' <= c <= 'Z' || 'a' <= c <= 'z' || '0' <= c <= '9' || c == '+' || c == '/'
  }

  function Value(c: char): (n: Sextet)
    requires IsLetter(c)
  {
    if 'A' <= c <= 'Z' then c as int - 'A' as int
    else if 'a' <= c <= 'z' then 26 + c as int - 'a' as int
    else if '0' <= c <= '9' then 52 + c as int - '0' as int
    else if c == '+' then 62 else 63
  }

  lemma LetterHasValue(n: Sextet)
    ensures IsLetter(Letter(n)) && Value(Letter(n)) == n
  {
  }

  function First6(a: Byte): Sextet { a / 4 }
  function Second6(a: Byte, b: Byte): Sextet { a % 4 * 16 + b / 16 }
  function Third6(b: Byte, c: Byte): Sextet { b % 16 * 4 + c / 64 }
  function Fourth6(c: Byte): Sextet { c % 64 }

  /** Four letters for three bytes, and padding at the end. */
  function Encode(bytes: Bytes): (text: string)
    ensures |text| % 4 == 0
  {
    if bytes == [] then ""
    else if |bytes| == 1 then [Letter(First6(bytes[0])), Letter(Second6(bytes[0], 0)), '=', '=']
    else if |bytes| == 2 then
      [Letter(First6(bytes[0])), Letter(Second6(bytes[0], bytes[1])), Letter(Third6(bytes[1], 0)), '=']
    else
      [Letter(First6(bytes[0])), Letter(Second6(bytes[0], bytes[1])), Letter(Third6(bytes[1], bytes[2])),
       Letter(Fourth6(bytes[2]))] + Encode(bytes[3..])
  }

  function FirstByte(a: Sextet, b: Sextet): Byte { a * 4 + b / 16 }
  function SecondByte(b: Sextet, c: Sextet): Byte { b % 16 * 16 + c / 4 }
  function ThirdByte(c: Sextet, d: Sextet): Byte { c % 4 * 64 + d }

  predicate Letters(text: string) {
    forall i :: 0 <= i < |text| ==> IsLetter(text[i])
  }

  /** Whole groups of letters, the last one with up to two padding characters. */
  predicate IsBase64(text: string) {
    && |text| % 4 == 0
    && (text == "" || Letters(text)
        || (Letters(text[..|text| - 1]) && text[|text| - 1] == '=')
        || (Letters(text[..|text| - 2]) && text[|text| - 2] == '=' && text[|text| - 1] == '='))
  }

  lemma TailIsBase64(text: string)
    requires IsBase64(text) && text != "" && text[2] != '=' && text[3] != '='
    ensures IsBase64(text[4..])
  {
    var tail := text[4..];
    if Letters(text) || tail == "" {
    } else if text[|text| - 2] == '=' {
      assert |tail| >= 4 && tail[..|tail| - 2] == text[..|text| - 2][4..];
      assert tail[|tail| - 2] == '=' && tail[|tail| - 1] == text[|text| - 1];
    } else {
      assert |tail| >= 4 && tail[..|tail| - 1] == text[..|text| - 1][4..];
      assert tail[|tail| - 1] == '=';
    }
  }

  function Decode(text: string): Bytes
    requires IsBase64(text)
  {
    if text == "" then []
    else if text[2] == '=' then [FirstByte(Value(text[0]), Value(text[1]))]
    else if text[3] == '=' then
      [FirstByte(Value(text[0]), Value(text[1])), SecondByte(Value(text[1]), Value(text[2]))]
    else
      TailIsBase64(text);
      [FirstByte(Value(text[0]), Value(text[1])), SecondByte(Value(text[1]), Value(text[2])),
       ThirdByte(Value(text[2]), Value(text[3]))] + Decode(text[4..])
  }

  lemma GroupsRoundTrip(a: Byte, b: Byte, c: Byte)
    ensures FirstByte(First6(a), Second6(a, b)) == a
    ensures SecondByte(Second6(a, b), Third6(b, c)) == b
    ensures ThirdByte(Third6(b, c), Fourth6(c)) == c
  {
  }

  lemma FirstRoundTrip(a: Byte, b: Byte)
    ensures FirstByte(First6(a), Second6(a, b)) == a
  {
  }

  /** A letter that stands for a number. */
  predicate Means(c: char, n: Sextet) {
    IsLetter(c) && Value(c) == n
  }

  lemma OneDecodes(a: Byte, w: char, x: char)
    requires Means(w, First6(a)) && Means(x, Second6(a, 0))
    ensures IsBase64([w, x, '=', '=']) && Decode([w, x, '=', '=']) == [a]
  {
    FirstRoundTrip(a, 0);
    assert [w, x, '=', '='][..2] == [w, x];
    assert !IsLetter('=');
  }

  lemma TwoDecode(a: Byte, b: Byte, w: char, x: char, y: char)
    requires Means(w, First6(a)) && Means(x, Second6(a, b)) && Means(y, Third6(b, 0))
    ensures IsBase64([w, x, y, '=']) && Decode([w, x, y, '=']) == [a, b]
  {
    GroupsRoundTrip(a, b, 0);
    assert [w, x, y, '='][..3] == [w, x, y];
  }

  lemma GroupIsBase64(quad: string, rest: string)
    requires |quad| == 4 && Letters(quad) && IsBase64(rest)
    ensures IsBase64(quad + rest)
  {
    var text := quad + rest;
    if rest != "" && !Letters(rest) {
      if rest[|rest| - 2] == '=' {
        assert text[..|text| - 2] == quad + rest[..|rest| - 2];
      } else {
        assert text[..|text| - 1] == quad + rest[..|rest| - 1];
      }
    }
  }

  lemma GroupDecodes(a: Byte, b: Byte, c: Byte, w: char, x: char, y: char, z: char, rest: string)
    requires Means(w, First6(a)) && Means(x, Second6(a, b)) && Means(y, Third6(b, c)) && Means(z, Fourth6(c))
    requires IsBase64(rest)
    ensures IsBase64([w, x, y, z] + rest) && Decode([w, x, y, z] + rest) == [a, b, c] + Decode(rest)
  {
    GroupIsBase64([w, x, y, z], rest);
    GroupsRoundTrip(a, b, c);
    assert ([w, x, y, z] + rest)[4..] == rest;
  }

  /** Decoding an encoding gives the bytes back. */
  lemma {:induction false} RoundTrip(bytes: Bytes)
    ensures IsBase64(Encode(bytes)) && Decode(Encode(bytes)) == bytes
  {
    if bytes != [] {
      var a := bytes[0];
      var b := if |bytes| < 2 then 0 else bytes[1];
      var c := if |bytes| < 3 then 0 else bytes[2];
      LetterHasValue(First6(a));
      LetterHasValue(Second6(a, b));
      LetterHasValue(Third6(b, c));
      LetterHasValue(Fourth6(c));
      if |bytes| == 1 {
        OneDecodes(a, Letter(First6(a)), Letter(Second6(a, 0)));
      } else if |bytes| == 2 {
        TwoDecode(a, b, Letter(First6(a)), Letter(Second6(a, b)), Letter(Third6(b, 0)));
      } else {
        RoundTrip(bytes[3..]);
        assert bytes == [a, b, c] + bytes[3..];
        GroupRoundTrip(a, b, c, bytes[3..]);
      }
    }
  }

  lemma GroupRoundTrip(a: Byte, b: Byte, c: Byte, rest: Bytes)
    requires IsBase64(Encode(rest)) && Decode(Encode(rest)) == rest
    ensures IsBase64(Encode([a, b, c] + rest)) && Decode(Encode([a, b, c] + rest)) == [a, b, c] + rest
  {
    LetterHasValue(First6(a));
    LetterHasValue(Second6(a, b));
    LetterHasValue(Third6(b, c));
    LetterHasValue(Fourth6(c));
    EncodeGroup([a, b, c], rest);
    GroupDecodes(a, b, c, Letter(First6(a)), Letter(Second6(a, b)), Letter(Third6(b, c)), Letter(Fourth6(c)), Encode(rest));
  }

  function GroupText(a: Byte, b: Byte, c: Byte): (text: string)
    ensures |text| == 4
  {
    [Letter(First6(a)), Letter(Second6(a, b)), Letter(Third6(b, c)), Letter(Fourth6(c))]
  }

  lemma EncodeGroup(group: Bytes, rest: Bytes)
    requires |group| == 3
    ensures Encode(group + rest) == GroupText(group[0], group[1], group[2]) + Encode(rest)
  {
    assert (group + rest)[3..] == rest;
  }

  lemma {:induction false} GroupsJoin(left: Bytes, right: Bytes, groups: nat)
    requires |left| == 3 * groups
    ensures Encode(left + right) == Encode(left) + Encode(right)
    decreases groups
  {
    if groups == 0 {
      assert left + right == right;
    } else {
      var group, rest := left[..3], left[3..];
      assert left == group + rest;
      Regroup(group, rest, right);
      EncodeGroup(group, rest);
      EncodeGroup(group, rest + right);
      GroupsJoin(rest, right, groups - 1);
      Regroup(GroupText(group[0], group[1], group[2]), Encode(rest), Encode(right));
    }
  }

  lemma {:induction false} EncodedSize(bytes: Bytes)
    ensures |Encode(bytes)| == (|bytes| + 2) / 3 * 4
  {
    if |bytes| >= 3 { EncodedSize(bytes[3..]); }
  }

  /** A ragged end is padded. */
  lemma {:induction false} RaggedEndIsPadded(bytes: Bytes)
    requires |bytes| % 3 != 0
    ensures Encode(bytes) != "" && Encode(bytes)[|Encode(bytes)| - 1] == '='
  {
    if |bytes| >= 3 { RaggedEndIsPadded(bytes[3..]); }
  }

  /** Whole groups have no padding. */
  lemma {:induction false} GroupsAreLetters(bytes: Bytes, i: nat)
    requires i < |bytes| / 3 * 4
    ensures i < |Encode(bytes)| && Encode(bytes)[i] != '='
  {
    LetterHasValue(First6(bytes[0]));
    LetterHasValue(Second6(bytes[0], bytes[1]));
    LetterHasValue(Third6(bytes[1], bytes[2]));
    LetterHasValue(Fourth6(bytes[2]));
    if i >= 4 { GroupsAreLetters(bytes[3..], i - 4); }
  }

  lemma RaggedPiecesDoNotJoin(left: Bytes, right: Bytes)
    requires |left| % 3 != 0 && right != []
    ensures Encode(left + right) != Encode(left) + Encode(right)
  {
    EncodedSize(left);
    EncodedSize(right);
    EncodedSize(left + right);
    RaggedEndIsPadded(left);
    RaggedSizes(|left|, |right|);
    var last := |Encode(left)| - 1;
    if last < |left + right| / 3 * 4 {
      GroupsAreLetters(left + right, last);
      LastOfFirst(Encode(left), Encode(right));
    }
  }

  lemma RaggedSizes(a: nat, b: nat)
    requires a % 3 != 0 && b > 0
    ensures (a + 2) / 3 * 4 - 1 < (a + b) / 3 * 4 || (a + b + 2) / 3 * 4 != (a + 2) / 3 * 4 + (b + 2) / 3 * 4
  {
  }

  lemma LastOfFirst(left: string, right: string)
    requires left != ""
    ensures (left + right)[|left| - 1] == left[|left| - 1]
  {
  }

  /** Encodings join if and only if the first part has whole groups only, or nothing follows it:
      any other piece leaves its padding inside. */
  lemma EncodingsJoin(left: Bytes, right: Bytes)
    ensures Encode(left + right) == Encode(left) + Encode(right) <==> |left| % 3 == 0 || right == []
  {
    if |left| % 3 == 0 {
      GroupsJoin(left, right, |left| / 3);
    } else if right == [] {
      assert left + right == left;
    } else {
      RaggedPiecesDoNotJoin(left, right);
    }
  }

  /** Two bytes that are encoded apart do not give the encoding of both. */
  lemma LoneBytesDoNotJoin()
    ensures Encode([0, 0]) != Encode([0]) + Encode([0])
  {
    EncodingsJoin([0], [0]);
    assert [0] + [0] == [0, 0];
  }
}
