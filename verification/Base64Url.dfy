/** base64.URLEncoding: base64url with padding (section 5 of RFC 4648), over ASCII codes. */
module Base64Url {
  import opened CipherFeedback
  import opened Ascii

  type sextet = v: int | 0 <= v < 64

  const PAD: byte := 61

  function Digit(v: sextet): (c: byte)
    ensures IsDigit(c)
  {
    if v < 26 then 65 + v
    else if v < 52 then 97 + (v - 26)
    else if v < 62 then 48 + (v - 52)
    else if v == 62 then 45
    else 95
  }

  predicate IsDigit(c: byte)
  {
    65 <= c <= 90 || 97 <= c <= 122 || 48 <= c <= 57 || c == 45 || c == 95
  }

  function Value(c: byte): sextet
    requires IsDigit(c)
  {
    if 65 <= c <= 90 then c - 65 else if 97 <= c <= 122 then c - 97 + 26 else if 48 <= c <= 57 then c - 48 + 52
    else if c == 45 then 62 else 63
  }

  // The four six-bit values of three bytes.

  function V0(a: byte): sextet { a / 4 }

  function V1(a: byte, b: byte): sextet { a % 4 * 16 + b / 16 }

  function V2(b: byte, c: byte): sextet { b % 16 * 4 + c / 64 }

  function V3(c: byte): sextet { c % 64 }

  // The last value of one byte, and of two.

  function L1(a: byte): sextet { a % 4 * 16 }

  function L2(b: byte): sextet { b % 16 * 4 }

  function Encode(data: seq<byte>): seq<byte>
  {
    if |data| == 0 then []
    else if |data| == 1 then [Digit(V0(data[0])), Digit(L1(data[0])), PAD, PAD]
    else if |data| == 2 then [Digit(V0(data[0])), Digit(V1(data[0], data[1])), Digit(L2(data[1])), PAD]
    else [Digit(V0(data[0])), Digit(V1(data[0], data[1])), Digit(V2(data[1], data[2])), Digit(V3(data[2]))]
         + Encode(data[3..])
  }

  // The three bytes of four six-bit values.

  function B0(p: sextet, q: sextet): byte { p * 4 + q / 16 }

  function B1(q: sextet, r: sextet): byte { q % 16 * 16 + r / 4 }

  function B2(r: sextet, s: sextet): byte { r % 4 * 64 + s }

  /** Line breaks are skipped wherever they are. */
  function Unwrapped(text: seq<byte>): seq<byte>
  {
    if text == [] then []
    else (if text[0] == 10 || text[0] == 13 then [] else [text[0]]) + Unwrapped(text[1..])
  }

  function Decode(text: seq<byte>): seq<byte>
  {
    DecodeGroups(Unwrapped(text))
  }

  /** What comes out before the first malformed group; the caller ignores the error. */
  function DecodeGroups(text: seq<byte>): seq<byte>
  {
    if |text| < 4 || !IsDigit(text[0]) || !IsDigit(text[1]) then []
    else if text[2] == PAD && text[3] == PAD then [B0(Value(text[0]), Value(text[1]))]
    else if !IsDigit(text[2]) then []
    else if text[3] == PAD then [B0(Value(text[0]), Value(text[1])), B1(Value(text[1]), Value(text[2]))]
    else if !IsDigit(text[3]) then []
    else [B0(Value(text[0]), Value(text[1])), B1(Value(text[1]), Value(text[2])), B2(Value(text[2]), Value(text[3]))]
         + DecodeGroups(text[4..])
  }

  lemma DigitValue(v: sextet)
    ensures Value(Digit(v)) == v
  {
  }

  /** Three bytes survive the regrouping of their bits. */
  lemma Regroup(a: byte, b: byte, c: byte)
    ensures B0(V0(a), V1(a, b)) == a && B1(V1(a, b), V2(b, c)) == b && B2(V2(b, c), V3(c)) == c
  {
    assert V1(a, b) / 16 == a % 4 && V1(a, b) % 16 == b / 16;
    assert V2(b, c) / 4 == b % 16 && V2(b, c) % 4 == c / 64;
  }

  lemma DecodeGroup(p: sextet, q: sextet, r: sextet, s: sextet, rest: seq<byte>)
    ensures DecodeGroups([Digit(p), Digit(q), Digit(r), Digit(s)] + rest)
            == [B0(p, q), B1(q, r), B2(r, s)] + DecodeGroups(rest)
  {
    var text := [Digit(p), Digit(q), Digit(r), Digit(s)] + rest;
    DigitValue(p);
    DigitValue(q);
    DigitValue(r);
    DigitValue(s);
    assert text[4..] == rest;
  }

  lemma RoundTripOne(a: byte)
    ensures DecodeGroups(Encode([a])) == [a]
  {
    DigitValue(V0(a));
    DigitValue(L1(a));
    assert L1(a) / 16 == a % 4;
  }

  lemma DecodeTwo(p: sextet, q: sextet, r: sextet)
    ensures DecodeGroups([Digit(p), Digit(q), Digit(r), PAD]) == [B0(p, q), B1(q, r)]
  {
    DigitValue(p);
    DigitValue(q);
    DigitValue(r);
  }

  lemma RegroupTwo(a: byte, b: byte)
    ensures B0(V0(a), V1(a, b)) == a && B1(V1(a, b), L2(b)) == b
  {
    assert V1(a, b) / 16 == a % 4 && V1(a, b) % 16 == b / 16;
    assert L2(b) / 4 == b % 16;
  }

  lemma RoundTripTwo(a: byte, b: byte)
    ensures DecodeGroups(Encode([a, b])) == [a, b]
  {
    RegroupTwo(a, b);
    DecodeTwo(V0(a), V1(a, b), L2(b));
  }

  lemma EncodeGroup(a: byte, b: byte, c: byte, rest: seq<byte>)
    ensures Encode([a, b, c] + rest) == [Digit(V0(a)), Digit(V1(a, b)), Digit(V2(b, c)), Digit(V3(c))] + Encode(rest)
  {
    assert ([a, b, c] + rest)[3..] == rest;
  }

  lemma RoundTripGroup(a: byte, b: byte, c: byte, rest: seq<byte>)
    ensures DecodeGroups(Encode([a, b, c] + rest)) == [a, b, c] + DecodeGroups(Encode(rest))
  {
    EncodeGroup(a, b, c, rest);
    Regroup(a, b, c);
    DecodeGroup(V0(a), V1(a, b), V2(b, c), V3(c), Encode(rest));
  }

  lemma Lengths(data: seq<byte>)
    ensures |data| == 1 ==> data == [data[0]]
    ensures |data| == 2 ==> data == [data[0], data[1]]
    ensures |data| >= 3 ==> data == [data[0], data[1], data[2]] + data[3..]
  {
  }

  lemma {:induction false} GroupsRoundTrip(data: seq<byte>)
    ensures DecodeGroups(Encode(data)) == data
  {
    Lengths(data);
    if |data| == 1 {
      RoundTripOne(data[0]);
    } else if |data| == 2 {
      RoundTripTwo(data[0], data[1]);
    } else if |data| >= 3 {
      var rest := data[3..];
      RoundTripGroup(data[0], data[1], data[2], rest);
      GroupsRoundTrip(rest);
    }
  }

  predicate IsEncoded(text: seq<byte>)
  {
    forall i :: 0 <= i < |text| ==> IsDigit(text[i]) || text[i] == PAD
  }

  /** Only digits and padding come out. */
  lemma {:induction false} EncodeAlphabet(data: seq<byte>)
    ensures IsEncoded(Encode(data))
    ensures data != [] ==> Encode(data) != [] && IsDigit(Encode(data)[0])
  {
    Lengths(data);
    if |data| >= 3 {
      EncodeGroup(data[0], data[1], data[2], data[3..]);
      EncodeAlphabet(data[3..]);
    }
  }

  lemma {:induction false} NothingToUnwrap(text: seq<byte>)
    requires IsEncoded(text)
    ensures Unwrapped(text) == text
  {
    if text != [] {
      NothingToUnwrap(text[1..]);
    }
  }

  /** Decoding undoes encoding, for every byte string and every padding case. */
  lemma DecodeEncode(data: seq<byte>)
    ensures Decode(Encode(data)) == data
  {
    EncodeAlphabet(data);
    NothingToUnwrap(Encode(data));
    GroupsRoundTrip(data);
  }

  /** And it does so however the encoded text was broken into lines. */
  lemma DecodeWrapped(data: seq<byte>, text: seq<byte>)
    requires Unwrapped(text) == Encode(data)
    ensures Decode(text) == data
  {
    GroupsRoundTrip(data);
  }

  // ----- the standard -----

  /** Table 2 of RFC 4648. */
  function Alphabet(): (s: string)
    ensures |s| == 64
  {
    Range('A', 26) + Range('a', 26) + Range('0', 10) + ['-', '_']
  }

  /** The ASCII code of the letter for a value. */
  function Letter(v: sextet): int
  {
    Alphabet()[v] as int
  }

  /** The digits are those of the standard, and no other byte is a digit. */
  lemma DigitsAreStandard(c: byte, v: sextet)
    ensures Digit(v) == Letter(v)
    ensures IsDigit(c) ==> c == Letter(Value(c))
    ensures IsDigit(c) <==> exists u: sextet :: c == Letter(u)
  {
    var s := Alphabet();
    assert s[62] == '-' && s[63] == '_';
  }

  /** A byte of the data, or zero past its end. */
  function ByteAt(data: seq<byte>, i: nat): byte
  {
    if i < |data| then data[i] else 0
  }

  /** Three bytes as one number of 24 bits. */
  function Triple(a: int, b: int, c: int): int
  {
    a * 65536 + b * 256 + c
  }

  /** Group `g` of the data as one number. */
  function Number(data: seq<byte>, g: nat): (n: nat)
    ensures n < 16777216
  {
    Triple(ByteAt(data, 3 * g), ByteAt(data, 3 * g + 1), ByteAt(data, 3 * g + 2))
  }

  // The four groups of six bits of a number of 24 bits.

  lemma By64(x: int, q: int, r: int)
    requires x == q * 64 + r && 0 <= r < 64
    ensures x / 64 == q && x % 64 == r
  {
  }

  lemma By4096(x: int, q: int, r: int)
    requires x == q * 4096 + r && 0 <= r < 4096
    ensures x / 4096 == q
  {
  }

  lemma By262144(x: int, q: int, r: int)
    requires x == q * 262144 + r && 0 <= r < 262144
    ensures x / 262144 == q
  {
  }

  lemma Split0(a: byte, b: byte, c: byte)
    ensures Triple(a, b, c) / 262144 == V0(a)
  {
    By262144(Triple(a, b, c), a / 4, a % 4 * 65536 + b * 256 + c);
  }

  lemma Split1(a: byte, b: byte, c: byte)
    ensures Triple(a, b, c) / 4096 % 64 == V1(a, b)
  {
    By4096(Triple(a, b, c), a * 16 + b / 16, b % 16 * 256 + c);
    By64(a * 16 + b / 16, a / 4, a % 4 * 16 + b / 16);
  }

  lemma Split2(a: byte, b: byte, c: byte)
    ensures Triple(a, b, c) / 64 % 64 == V2(b, c)
  {
    By64(Triple(a, b, c), a * 1024 + b * 4 + c / 64, c % 64);
    By64(a * 1024 + b * 4 + c / 64, a * 16 + b / 16, b % 16 * 4 + c / 64);
  }

  lemma Split3(a: byte, b: byte, c: byte)
    ensures Triple(a, b, c) % 64 == V3(c)
  {
    By64(Triple(a, b, c), a * 1024 + b * 4 + c / 64, c % 64);
  }

  /** Four characters of text spell this number in groups of six bits; `n` bytes of it are data. */
  predicate Spells(text: seq<byte>, at: nat, number: nat, n: nat)
    requires at + 4 <= |text| && number < 16777216 && 0 < n
  {
    && text[at] == Digit(number / 262144)
    && text[at + 1] == Digit(number / 4096 % 64)
    && text[at + 2] == (if n > 1 then Digit(number / 64 % 64) else PAD)
    && text[at + 3] == (if n > 2 then Digit(number % 64) else PAD)
  }

  lemma FourDigits(text: seq<byte>, at: nat, a: byte, b: byte, c: byte, n: nat)
    requires at + 4 <= |text| && 0 < n
    requires text[at] == Digit(V0(a)) && text[at + 1] == Digit(V1(a, b))
    requires text[at + 2] == (if n > 1 then Digit(V2(b, c)) else PAD)
    requires text[at + 3] == (if n > 2 then Digit(V3(c)) else PAD)
    ensures 0 <= Triple(a, b, c) < 16777216 && Spells(text, at, Triple(a, b, c), n)
  {
    Split0(a, b, c);
    Split1(a, b, c);
    Split2(a, b, c);
    Split3(a, b, c);
  }

  lemma LastValues(a: byte)
    ensures L1(a) == V1(a, 0) && L2(a) == V2(a, 0)
  {
  }

  /** The first four characters, in the three cases. */
  lemma FirstFour(data: seq<byte>)
    requires data != []
    ensures |Encode(data)| >= 4 && Encode(data)[0] == Digit(V0(data[0]))
    ensures Encode(data)[1] == Digit(if |data| > 1 then V1(data[0], data[1]) else L1(data[0]))
    ensures Encode(data)[2]
            == if |data| > 2 then Digit(V2(data[1], data[2])) else if |data| > 1 then Digit(L2(data[1])) else PAD
    ensures Encode(data)[3] == if |data| > 2 then Digit(V3(data[2])) else PAD
  {
  }

  lemma SpellsGroup(data: seq<byte>)
    requires data != []
    ensures |Encode(data)| >= 4 && Spells(Encode(data), 0, Number(data, 0), |data|)
  {
    FirstFour(data);
    var text := Encode(data);
    var (a, b, c) := (ByteAt(data, 0), ByteAt(data, 1), ByteAt(data, 2));
    LastValues(a);
    LastValues(b);
    FourDigits(text, 0, a, b, c, |data|);
  }

  lemma SpellsLater(head: seq<byte>, text: seq<byte>, at: nat, number: nat, n: nat)
    requires |head| == 4 && at + 4 <= |text| && number < 16777216 && 0 < n && Spells(text, at, number, n)
    ensures Spells(head + text, at + 4, number, n)
  {
  }

  /** Four characters for every three bytes or part of three. */
  lemma {:induction false} EncodeLength(data: seq<byte>, n: nat)
    requires 3 * n < |data| + 3 <= 3 * n + 3
    ensures |Encode(data)| == 4 * n
    decreases n
  {
    Lengths(data);
    if |data| >= 3 {
      EncodeGroup(data[0], data[1], data[2], data[3..]);
      EncodeLength(data[3..], n - 1);
    }
  }

  lemma NextByte(data: seq<byte>, i: nat)
    requires |data| >= 3
    ensures ByteAt(data[3..], i) == ByteAt(data, i + 3)
  {
  }

  lemma NextNumber(data: seq<byte>, g: nat)
    requires |data| >= 3
    ensures Number(data[3..], g) == Number(data, g + 1)
  {
    NextByte(data, 3 * g);
    NextByte(data, 3 * g + 1);
    NextByte(data, 3 * g + 2);
  }

  /** Group `g` of the data is spelled where it should be. */
  ghost predicate GroupSpelled(data: seq<byte>, g: nat)
    requires 3 * g < |data|
  {
    4 * g + 4 <= |Encode(data)| && Spells(Encode(data), 4 * g, Number(data, g), |data| - 3 * g)
  }

  lemma FirstGroup(data: seq<byte>)
    requires data != []
    ensures GroupSpelled(data, 0)
  {
    SpellsGroup(data);
  }

  lemma LaterGroup(data: seq<byte>, g: nat)
    requires |data| >= 3 && 3 * g < |data| - 3 && GroupSpelled(data[3..], g)
    ensures GroupSpelled(data, g + 1)
  {
    var (a, b, c, rest) := (data[0], data[1], data[2], data[3..]);
    Lengths(data);
    NextNumber(data, g);
    EncodeGroup(a, b, c, rest);
    var head := [Digit(V0(a)), Digit(V1(a, b)), Digit(V2(b, c)), Digit(V3(c))];
    SpellsLater(head, Encode(rest), 4 * g, Number(rest, g), |rest| - 3 * g);
  }

  /** The text is that of section 5 of RFC 4648: each three bytes, as one number, are spelled by four
      characters of the alphabet, and a last group of one or two bytes is padded. */
  lemma {:induction false} EncodeIsStandard(data: seq<byte>, g: nat)
    requires 3 * g < |data|
    ensures GroupSpelled(data, g)
    decreases g
  {
    if g == 0 {
      FirstGroup(data);
    } else {
      EncodeIsStandard(data[3..], g - 1);
      LaterGroup(data, g - 1);
    }
  }

  lemma Associates(a: seq<byte>, b: seq<byte>, c: seq<byte>)
    ensures (a + b) + c == a + (b + c)
  {
  }

  lemma DecodeFour(a: byte, b: byte, c: byte, rest: seq<byte>)
    ensures DecodeGroups([Digit(V0(a)), Digit(V1(a, b)), Digit(V2(b, c)), Digit(V3(c))] + rest)
            == [a, b, c] + DecodeGroups(rest)
  {
    Regroup(a, b, c);
    DecodeGroup(V0(a), V1(a, b), V2(b, c), V3(c), rest);
  }

  lemma GroupGoesOn(a: byte, b: byte, c: byte, more: seq<byte>, rest: seq<byte>)
    ensures DecodeGroups(Encode([a, b, c] + more) + rest) == [a, b, c] + DecodeGroups(Encode(more) + rest)
  {
    EncodeGroup(a, b, c, more);
    Associates([Digit(V0(a)), Digit(V1(a, b)), Digit(V2(b, c)), Digit(V3(c))], Encode(more), rest);
    DecodeFour(a, b, c, Encode(more) + rest);
  }

  lemma Joined(data: seq<byte>, more: seq<byte>)
    requires |data| >= 3
    ensures [data[0], data[1], data[2]] + (data[3..] + more) == data + more
  {
  }

  lemma {:induction false} DecodeGoesOn(data: seq<byte>, n: nat, rest: seq<byte>)
    requires |data| == 3 * n
    ensures DecodeGroups(Encode(data) + rest) == data + DecodeGroups(rest)
    decreases n
  {
    if n == 0 {
      assert Encode(data) + rest == rest && data + DecodeGroups(rest) == DecodeGroups(rest);
    } else {
      Lengths(data);
      GroupGoesOn(data[0], data[1], data[2], data[3..], rest);
      DecodeGoesOn(data[3..], n - 1, rest);
      Joined(data, DecodeGroups(rest));
    }
  }

  /** What was decoded before the first malformed group is kept. */
  lemma MalformedTailIsCut(data: seq<byte>, n: nat, tail: seq<byte>)
    requires |data| == 3 * n && IsEncoded(tail) && (|tail| < 4 || tail[0] == PAD || tail[1] == PAD)
    ensures Decode(Encode(data) + tail) == data
  {
    EncodeAlphabet(data);
    NothingToUnwrap(Encode(data) + tail);
    DecodeGoesOn(data, n, tail);
  }
}
