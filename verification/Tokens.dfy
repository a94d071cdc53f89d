/**
 The canonical bearer-token codec: unpadded base64url (RFC 4648, section 5) over exactly 32
 bytes, where only the canonical spelling (section 3.5) is accepted.
 */
module Tokens {
  import opened Wrappers
  import opened External

  const TOKEN_BYTES: nat := 32
  const TOKEN_ENCODED_LENGTH: nat := 43

  type Sextet = x: int | 0 <= x < 64

  datatype TokenError = InvalidEntropy | InvalidLength | InvalidAlphabet | NotCanonical

  // ---------------------------------------------------------------- alphabet

  predicate InAlphabet(c: char) {
    'A' <= c <= 'Z' || 'a' <= c <= 'z' || '0' <= c <= '9' || c == '-' || c == '_'
  }

  function Letter(x: Sextet): char {
    if x < 26 then ('A' as int + x) as char
    else if x < 52 then ('a' as int + x - 26) as char
    else if x < 62 then ('0' as int + x - 52) as char
    else if x == 62 then '-'
    else '_'
  }

  function Value(c: char): Sextet
    requires InAlphabet(c)
  {
    if 'A' <= c <= 'Z' then c as int - 'A' as int
    else if 'a' <= c <= 'z' then c as int - 'a' as int + 26
    else if '0' <= c <= '9' then c as int - '0' as int + 52
    else if c == '-' then 62
    else 63
  }

  const UPPER_CASE: string := "ABCDEFGHIJKLMNOPQRSTUVWXYZ"
  const LOWER_CASE: string := "abcdefghijklmnopqrstuvwxyz"
  const DIGITS: string := "0123456789"

  /** The base64url alphabet in the order of its values. */
  const ALPHABET: string := UPPER_CASE + LOWER_CASE + DIGITS + "-_"

  lemma UpperCaseIs(x: nat)
    requires x < 26
    ensures |UPPER_CASE| == 26 && Letter(x) == UPPER_CASE[x]
  {
  }

  lemma LowerCaseIs(x: nat)
    requires x < 26
    ensures |LOWER_CASE| == 26 && Letter(26 + x) == LOWER_CASE[x]
  {
  }

  lemma DigitIs(x: nat)
    requires x < 10
    ensures |DIGITS| == 10 && Letter(52 + x) == DIGITS[x]
  {
  }

  lemma LetterIs(x: Sextet)
    ensures |ALPHABET| == 64 && Letter(x) == ALPHABET[x]
  {
    UpperCaseIs(0);
    LowerCaseIs(0);
    DigitIs(0);
    if x < 26 {
      UpperCaseIs(x);
    } else if x < 52 {
      LowerCaseIs(x - 26);
    } else if x < 62 {
      DigitIs(x - 52);
    }
  }

  lemma LetterHasValue(x: Sextet)
    ensures InAlphabet(Letter(x)) && Value(Letter(x)) == x
  {
  }

  lemma SpelledIsInAlphabet(i: nat)
    requires i < |ALPHABET|
    ensures InAlphabet(ALPHABET[i])
  {
    LetterIs(0);
    LetterIs(i);
    LetterHasValue(i);
  }

  lemma ValueHasLetter(c: char)
    requires InAlphabet(c)
    ensures Letter(Value(c)) == c
  {
  }

  lemma AlphabetIs(c: char)
    ensures InAlphabet(c) <==> c in ALPHABET
    ensures InAlphabet(c) ==> Value(c) < |ALPHABET| && ALPHABET[Value(c)] == c
  {
    if InAlphabet(c) {
      ValueHasLetter(c);
      LetterIs(Value(c));
    }
    if c in ALPHABET {
      var i: nat :| i < |ALPHABET| && ALPHABET[i] == c;
      SpelledIsInAlphabet(i);
    }
  }

  // ---------------------------------------------------------------- bit packing

  // The bits of a group, most significant first.

  function Upper(high: Byte): Sextet { high / 4 }
  function Middle(high: Byte, low: Byte): Sextet { high % 4 * 16 + low / 16 }
  function Lower(high: Byte, low: Byte): Sextet { high % 16 * 4 + low / 64 }
  function Final(low: Byte): Sextet { low % 64 }

  function First(a: Sextet, b: Sextet): Byte { a * 4 + b / 16 }
  function Second(b: Sextet, c: Sextet): Byte { b % 16 * 16 + c / 4 }
  function Third(c: Sextet, d: Sextet): Byte { c % 4 * 64 + d }

  /** Three bytes become four sextets; one or two trailing bytes become two or three. */
  function Pack(b: Bytes): seq<Sextet>
    decreases |b|
  {
    if |b| == 0 then []
    else if |b| == 1 then [Upper(b[0]), Middle(b[0], 0)]
    else if |b| == 2 then [Upper(b[0]), Middle(b[0], b[1]), Lower(b[1], 0)]
    else [Upper(b[0]), Middle(b[0], b[1]), Lower(b[1], b[2]), Final(b[2])] + Pack(b[3..])
  }

  /** The lenient direction: surplus low bits of the last sextet are dropped. */
  function Unpack(s: seq<Sextet>): Bytes
    decreases |s|
  {
    if |s| < 2 then []
    else if |s| == 2 then [First(s[0], s[1])]
    else if |s| == 3 then [First(s[0], s[1]), Second(s[1], s[2])]
    else [First(s[0], s[1]), Second(s[1], s[2]), Third(s[2], s[3])] + Unpack(s[4..])
  }

  /** No bit is set that `Unpack` would drop. */
  predicate Canonical(s: seq<Sextet>)
    decreases |s|
  {
    if |s| >= 4 then Canonical(s[4..])
    else if |s| == 3 then s[2] % 4 == 0
    else if |s| == 2 then s[1] % 16 == 0
    else |s| == 0
  }

  lemma GroupOfBytes(x: Byte, y: Byte, z: Byte)
    ensures First(Upper(x), Middle(x, y)) == x
    ensures Second(Middle(x, y), Lower(y, z)) == y
    ensures Third(Lower(y, z), Final(z)) == z
  {
  }

  lemma GroupOfSextets(a: Sextet, b: Sextet, c: Sextet, d: Sextet)
    ensures Upper(First(a, b)) == a
    ensures Middle(First(a, b), Second(b, c)) == b
    ensures Lower(Second(b, c), Third(c, d)) == c
    ensures Final(Third(c, d)) == d
  {
  }

  lemma LastSextets(a: Sextet, b: Sextet, c: Sextet)
    ensures Middle(First(a, b), 0) == b <==> b % 16 == 0
    ensures Lower(Second(b, c), 0) == c <==> c % 4 == 0
  {
  }

  lemma {:induction false} PackLength(b: Bytes)
    ensures |Pack(b)| == (4 * |b| + 2) / 3
    decreases |b|
  {
    if |b| >= 3 {
      PackLength(b[3..]);
    }
  }

  lemma {:induction false} UnpackLength(s: seq<Sextet>)
    ensures |Unpack(s)| == 3 * |s| / 4
    decreases |s|
  {
    if |s| >= 4 {
      UnpackLength(s[4..]);
    }
  }

  lemma {:induction false} CanonicalEnd(s: seq<Sextet>)
    requires |s| % 4 == 3
    ensures Canonical(s) <==> s[|s| - 1] % 4 == 0
    decreases |s|
  {
    if |s| >= 4 {
      CanonicalEnd(s[4..]);
    }
  }

  lemma UnpackGroup(a: Sextet, b: Sextet, c: Sextet, d: Sextet, rest: seq<Sextet>)
    ensures Unpack([a, b, c, d] + rest) == [First(a, b), Second(b, c), Third(c, d)] + Unpack(rest)
  {
    assert ([a, b, c, d] + rest)[4..] == rest;
  }

  lemma PackGroup(x: Byte, y: Byte, z: Byte, rest: Bytes)
    ensures Pack([x, y, z] + rest) == [Upper(x), Middle(x, y), Lower(y, z), Final(z)] + Pack(rest)
  {
    assert ([x, y, z] + rest)[3..] == rest;
  }

  lemma UnpackShort(a: Sextet, b: Sextet, c: Sextet)
    ensures Unpack([a, b]) == [First(a, b)]
    ensures Unpack([a, b, c]) == [First(a, b), Second(b, c)]
  {
  }

  lemma PackShort(x: Byte, y: Byte, pad: Byte)
    requires pad == 0
    ensures Pack([x]) == [Upper(x), Middle(x, pad)]
    ensures Pack([x, y]) == [Upper(x), Middle(x, y), Lower(y, pad)]
  {
  }

  lemma OneByte(x: Byte, y: Byte)
    requires y == 0
    ensures Unpack(Pack([x])) == [x]
  {
    var a, b := Upper(x), Middle(x, y);
    assert First(a, b) == x by {
      GroupOfBytes(x, y, x);
    }
    PackShort(x, y, y);
    UnpackShort(a, b, a);
  }

  lemma TwoBytes(x: Byte, y: Byte, pad: Byte)
    requires pad == 0
    ensures Unpack(Pack([x, y])) == [x, y]
  {
    PackShort(x, y, pad);
    GroupOfBytes(x, y, pad);
    UnpackShort(Upper(x), Middle(x, y), Lower(y, pad));
  }

  lemma ShortSextets(a: Sextet, b: Sextet, c: Sextet)
    ensures Pack(Unpack([a, b])) == [a, b] <==> b % 16 == 0
    ensures Pack(Unpack([a, b, c])) == [a, b, c] <==> c % 4 == 0
  {
    GroupOfSextets(a, b, c, 0);
    LastSextets(a, b, c);
    UnpackShort(a, b, c);
  }

  lemma {:induction false} UnpackPack(b: Bytes)
    ensures Unpack(Pack(b)) == b
    decreases |b|
  {
    if |b| == 0 {
      return;
    }
    if |b| < 3 {
      OneByte(b[0], 0);
      TwoBytes(b[0], b[|b| - 1], 0);
      assert b == [b[0]] || b == [b[0], b[|b| - 1]];
      return;
    }
    var x, y, z, rest := b[0], b[1], b[2], b[3..];
    assert b == [x, y, z] + rest;
    UnpackPack(rest);
    GroupOfBytes(x, y, z);
    PackGroup(x, y, z, rest);
    UnpackGroup(Upper(x), Middle(x, y), Lower(y, z), Final(z), Pack(rest));
  }

  lemma {:induction false} PackUnpack(s: seq<Sextet>)
    ensures Pack(Unpack(s)) == s <==> Canonical(s)
    decreases |s|
  {
    if |s| < 2 {
      return;
    }
    if |s| < 4 {
      ShortSextets(s[0], s[1], s[|s| - 1]);
      assert s == [s[0], s[1]] || s == [s[0], s[1], s[|s| - 1]];
      return;
    }
    var a, b, c, d, rest := s[0], s[1], s[2], s[3], s[4..];
    assert s == [a, b, c, d] + rest;
    PackUnpack(rest);
    GroupOfSextets(a, b, c, d);
    UnpackGroup(a, b, c, d, rest);
    PackGroup(First(a, b), Second(b, c), Third(c, d), Unpack(rest));
    assert Pack(Unpack(s)) == [a, b, c, d] + Pack(Unpack(rest));
    assert Pack(Unpack(s))[4..] == Pack(Unpack(rest));
  }

  // ---------------------------------------------------------------- numbers

  /** `high` followed by the digits, the most significant one first. */
  function Extend(high: nat, digits: seq<nat>, base: nat): nat
    decreases |digits|
  {
    if digits == [] then high else Extend(high * base + digits[0], digits[1..], base)
  }

  /** The number whose digits these are. */
  function Number(digits: seq<nat>, base: nat): nat {
    Extend(0, digits, base)
  }

  /** What the zero bits that fill the last sextet multiply the number by. */
  function Padding(n: nat): nat {
    if n % 3 == 0 then 1 else if n % 3 == 1 then 16 else 4
  }

  lemma ExtendStep(high: nat, d: nat, rest: seq<nat>, base: nat)
    ensures Extend(high, [d] + rest, base) == Extend(high * base + d, rest, base)
  {
    assert ([d] + rest)[1..] == rest;
  }

  lemma ExtendByTwo(high: nat, a: nat, b: nat, rest: seq<nat>, base: nat)
    ensures Extend(high, [a, b] + rest, base) == Extend((high * base + a) * base + b, rest, base)
  {
    assert [a, b] + rest == [a] + ([b] + rest);
    ExtendStep(high, a, [b] + rest, base);
    ExtendStep(high * base + a, b, rest, base);
  }

  lemma ExtendByFour(high: nat, a: nat, b: nat, c: nat, d: nat, rest: seq<nat>)
    ensures Extend(high, [a, b, c, d] + rest, 64)
         == Extend(16_777_216 * high + 262_144 * a + 4_096 * b + 64 * c + d, rest, 64)
  {
    assert [a, b, c, d] + rest == [a, b] + ([c, d] + rest);
    ExtendByTwo(high, a, b, [c, d] + rest, 64);
    ExtendByTwo((high * 64 + a) * 64 + b, c, d, rest, 64);
  }

  lemma ExtendByThree(high: nat, x: nat, y: nat, z: nat, rest: seq<nat>)
    ensures Extend(high, [x, y, z] + rest, 256) == Extend(16_777_216 * high + 65_536 * x + 256 * y + z, rest, 256)
  {
    assert [x, y, z] + rest == [x, y] + ([z] + rest);
    ExtendByTwo(high, x, y, [z] + rest, 256);
    ExtendStep((high * 256 + x) * 256 + y, z, rest, 256);
  }

  /** Four sextets and three bytes hold the same 24 bits. */
  lemma GroupIsOneNumber(x: Byte, y: Byte, z: Byte)
    ensures 262_144 * Upper(x) + 4_096 * Middle(x, y) + 64 * Lower(y, z) + Final(z) == 65_536 * x + 256 * y + z
  {
  }

  lemma LastByteIsOneNumber(high: nat, x: Byte)
    ensures Extend(high, Pack([x]), 64) == 16 * Extend(high, [x], 256)
  {
    assert Pack([x]) == [Upper(x), Middle(x, 0)] + [];
    ExtendByTwo(high, Upper(x), Middle(x, 0), [], 64);
    assert [x] == [x] + [];
    ExtendStep(high, x, [], 256);
  }

  lemma LastBytesAreOneNumber(high: nat, x: Byte, y: Byte)
    ensures Extend(high, Pack([x, y]), 64) == 4 * Extend(high, [x, y], 256)
  {
    var a, b, c := Upper(x), Middle(x, y), Lower(y, 0);
    assert Pack([x, y]) == [a, b] + [c] && [c] == [c] + [] && [x, y] == [x, y] + [];
    ExtendByTwo(high, a, b, [c], 64);
    ExtendStep((high * 64 + a) * 64 + b, c, [], 64);
    ExtendByTwo(high, x, y, [], 256);
  }

  lemma GroupExtends(high: nat, x: Byte, y: Byte, z: Byte, rest: seq<nat>, packed: seq<nat>)
    ensures var group: nat := 65_536 * (x as nat) + 256 * (y as nat) + z as nat;
      && Extend(high, [x, y, z] + rest, 256) == Extend(16_777_216 * high + group, rest, 256)
      && Extend(high, [Upper(x), Middle(x, y), Lower(y, z), Final(z)] + packed, 64)
         == Extend(16_777_216 * high + group, packed, 64)
  {
    ExtendByThree(high, x, y, z, rest);
    ExtendByFour(high, Upper(x), Middle(x, y), Lower(y, z), Final(z), packed);
    GroupIsOneNumber(x, y, z);
  }

  lemma PaddingRepeats(n: nat)
    ensures Padding(n + 3) == Padding(n)
  {
  }

  lemma PackExtendsGroup(high: nat, b: Bytes)
    requires |b| >= 3
    ensures Extend(high, Pack(b), 64) == Extend(high, b, 256) * Padding(|b|)
    decreases |b|, 0
  {
    var group: nat := 65_536 * (b[0] as nat) + 256 * (b[1] as nat) + b[2] as nat;
    PaddingRepeats(|b[3..]|);
    assert b == [b[0], b[1], b[2]] + b[3..];
    GroupExtends(high, b[0], b[1], b[2], b[3..], Pack(b[3..]));
    PackExtends(16_777_216 * high + group, b[3..]);
  }

  lemma {:induction false} PackExtends(high: nat, b: Bytes)
    ensures Extend(high, Pack(b), 64) == Extend(high, b, 256) * Padding(|b|)
    decreases |b|, 1
  {
    if |b| == 0 {
    } else if |b| == 1 {
      assert b == [b[0]];
      LastByteIsOneNumber(high, b[0]);
    } else if |b| == 2 {
      assert b == [b[0], b[1]];
      LastBytesAreOneNumber(high, b[0], b[1]);
    } else {
      PackExtendsGroup(high, b);
    }
  }

  /** The sextets are the base-64 digits of the number whose base-256 digits are the bytes. */
  lemma PackIsBase64(b: Bytes)
    ensures Number(Pack(b), 64) == Number(b, 256) * Padding(|b|)
  {
    PackExtends(0, b);
  }

  // ---------------------------------------------------------------- codec

  function Spell(s: seq<Sextet>): (r: string)
    ensures |r| == |s|
  {
    seq(|s|, i requires 0 <= i < |s| => Letter(s[i]))
  }

  function Read(text: string): (r: seq<Sextet>)
    requires forall i :: 0 <= i < |text| ==> InAlphabet(text[i])
    ensures |r| == |text|
  {
    seq(|text|, i requires 0 <= i < |text| => Value(text[i]))
  }

  function EncodeToken(raw: Bytes): Result<string, TokenError> {
    if |raw| != TOKEN_BYTES then Err(InvalidEntropy)
    else
      var encoded := Spell(Pack(raw));
      if |encoded| != TOKEN_ENCODED_LENGTH then Err(InvalidLength) else Ok(encoded)
  }

  function DecodeToken(encoded: string): Result<Bytes, TokenError> {
    if |encoded| != TOKEN_ENCODED_LENGTH then Err(InvalidLength)
    else if exists i :: 0 <= i < |encoded| && !InAlphabet(encoded[i]) then Err(InvalidAlphabet)
    else
      var decoded := Unpack(Read(encoded));
      if |decoded| != TOKEN_BYTES then Err(InvalidLength)
      else if EncodeToken(decoded) != Ok(encoded) then Err(NotCanonical)
      else Ok(decoded)
  }

  /** What a canonical token looks like, without decoding it. */
  predicate WellFormed(encoded: string) {
    && |encoded| == TOKEN_ENCODED_LENGTH
    && (forall i :: 0 <= i < |encoded| ==> InAlphabet(encoded[i]))
    && Value(encoded[TOKEN_ENCODED_LENGTH - 1]) % 4 == 0
  }

  lemma SpellRead(text: string)
    requires forall i :: 0 <= i < |text| ==> InAlphabet(text[i])
    ensures Spell(Read(text)) == text
  {
    forall i | 0 <= i < |text| ensures Spell(Read(text))[i] == text[i] {
      ValueHasLetter(text[i]);
    }
  }

  lemma ReadSpell(s: seq<Sextet>)
    ensures forall i :: 0 <= i < |s| ==> InAlphabet(Spell(s)[i])
    ensures Read(Spell(s)) == s
  {
    forall i | 0 <= i < |s| ensures InAlphabet(Spell(s)[i]) && Value(Spell(s)[i]) == s[i] {
      LetterHasValue(s[i]);
    }
  }

  /** Every 32-byte token encodes, and decodes to itself. */
  lemma DecodeEncode(raw: Bytes)
    requires |raw| == TOKEN_BYTES
    ensures EncodeToken(raw).Ok?
    ensures DecodeToken(EncodeToken(raw).value) == Ok(raw)
  {
    PackLength(raw);
    UnpackPack(raw);
    ReadSpell(Pack(raw));
  }

  /** Exactly the well-formed strings are accepted, and each is the encoding of what it decodes to. */
  lemma EncodeDecode(encoded: string)
    ensures DecodeToken(encoded).Ok? <==> WellFormed(encoded)
    ensures DecodeToken(encoded).Ok? ==> EncodeToken(DecodeToken(encoded).value) == Ok(encoded)
  {
    if |encoded| == TOKEN_ENCODED_LENGTH && forall i :: 0 <= i < |encoded| ==> InAlphabet(encoded[i]) {
      var s := Read(encoded);
      PackUnpack(s);
      CanonicalEnd(s);
      UnpackLength(s);
      PackLength(Unpack(s));
      SpellRead(encoded);
      ReadSpell(Pack(Unpack(s)));
      assert EncodeToken(Unpack(s)) == Ok(encoded) <==> Pack(Unpack(s)) == s;
    }
  }

  lemma SpellIsAlphabetic(s: seq<Sextet>)
    ensures |ALPHABET| == 64 && forall i :: 0 <= i < |s| ==> Spell(s)[i] == ALPHABET[s[i]]
  {
    LetterIs(0);
    forall i | 0 <= i < |s| ensures Spell(s)[i] == ALPHABET[s[i]] {
      LetterIs(s[i]);
    }
  }

  /** The letters of a token are the base-64 digits of four times its number, in the alphabet's order. */
  lemma EncodingIsBase64(raw: Bytes, encoded: string) returns (digits: seq<nat>)
    requires EncodeToken(raw) == Ok(encoded)
    ensures |digits| == |encoded| == 43
    ensures forall i :: 0 <= i < 43 ==> digits[i] < |ALPHABET| && encoded[i] == ALPHABET[digits[i]]
    ensures Number(digits, 64) == 4 * Number(raw, 256)
  {
    digits := Pack(raw);
    SpellIsAlphabetic(Pack(raw));
    PackIsBase64(raw);
  }

  /** The codec is a bijection between 32-byte tokens and well-formed strings. */
  lemma CodecIsBijective(a: Bytes, b: Bytes)
    requires |a| == |b| == TOKEN_BYTES
    ensures EncodeToken(a).Ok? && WellFormed(EncodeToken(a).value)
    ensures EncodeToken(a) == EncodeToken(b) <==> a == b
  {
    DecodeEncode(a);
    DecodeEncode(b);
    EncodeDecode(EncodeToken(a).value);
  }
}
