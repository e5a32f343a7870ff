/** Trimming a byte string of multi-byte characters at both ends, for any set of characters
    of up to three bytes. */
module Trim {
  import opened CipherFeedback

  type Chars = seq<byte> -> bool

  /** Positions `from` to `to` hold one character of the set. */
  predicate CharAt(chars: Chars, s: seq<byte>, from: nat, to: nat)
  {
    from < to <= |s| && to - from <= 3 && chars(s[from..to])
  }

  /** The length of a character of the set that starts at `i` and ends by the end of `s`, or 0. */
  function StartLength(chars: Chars, s: seq<byte>, i: nat): (n: nat)
    ensures n > 0 ==> CharAt(chars, s, i, i + n)
    ensures n == 0 ==> forall to: nat :: !CharAt(chars, s, i, to)
  {
    if CharAt(chars, s, i, i + 1) then 1 else if CharAt(chars, s, i, i + 2) then 2
    else if CharAt(chars, s, i, i + 3) then 3 else 0
  }

  /** The length of a character of the set that ends at `j` and starts no earlier than `lo`, or 0. */
  function EndLength(chars: Chars, s: seq<byte>, lo: nat, j: nat): (n: nat)
    ensures n > 0 ==> lo <= j - n && CharAt(chars, s, j - n, j)
    ensures n == 0 ==> forall from: nat :: lo <= from ==> !CharAt(chars, s, from, j)
  {
    if lo + 1 <= j && CharAt(chars, s, j - 1, j) then 1 else if lo + 2 <= j && CharAt(chars, s, j - 2, j) then 2
    else if lo + 3 <= j && CharAt(chars, s, j - 3, j) then 3 else 0
  }

  /** Where a trim of the left stops. */
  function KeepFrom(chars: Chars, s: seq<byte>, i: nat): (k: nat)
    requires i <= |s|
    ensures i <= k <= |s| && StartLength(chars, s, k) == 0
    decreases |s| - i
  {
    var n := StartLength(chars, s, i);
    if n == 0 then i else KeepFrom(chars, s, i + n)
  }

  /** Where a trim of the right stops, going no further than `lo`. */
  function KeepTo(chars: Chars, s: seq<byte>, lo: nat, j: nat): (k: nat)
    requires lo <= j <= |s|
    ensures lo <= k <= j && EndLength(chars, s, lo, k) == 0
    decreases j
  {
    var n := EndLength(chars, s, lo, j);
    if n == 0 then j else KeepTo(chars, s, lo, j - n)
  }

  function TrimBoth(chars: Chars, s: seq<byte>): seq<byte>
  {
    var i := KeepFrom(chars, s, 0);
    s[i..KeepTo(chars, s, i, |s|)]
  }

  /** The stretch from `i` to `j` is made of characters of the set. */
  ghost predicate OnlyChars(chars: Chars, s: seq<byte>, i: nat, j: nat)
    decreases j - i
  {
    i == j || exists m: nat :: i < m <= j && CharAt(chars, s, i, m) && OnlyChars(chars, s, m, j)
  }

  lemma {:induction false} OnlyCharsThen(chars: Chars, s: seq<byte>, i: nat, j: nat, k: nat)
    requires i <= j && OnlyChars(chars, s, i, j) && CharAt(chars, s, j, k)
    ensures OnlyChars(chars, s, i, k)
    decreases j - i
  {
    if i < j {
      var m: nat :| i < m <= j && CharAt(chars, s, i, m) && OnlyChars(chars, s, m, j);
      OnlyCharsThen(chars, s, m, j, k);
    } else {
      assert OnlyChars(chars, s, k, k);
    }
  }

  lemma {:induction false} LeftCutIsChars(chars: Chars, s: seq<byte>, i: nat)
    requires i <= |s|
    ensures OnlyChars(chars, s, i, KeepFrom(chars, s, i))
    decreases |s| - i
  {
    var n := StartLength(chars, s, i);
    if n > 0 {
      LeftCutIsChars(chars, s, i + n);
    }
  }

  lemma {:induction false} RightCutIsChars(chars: Chars, s: seq<byte>, lo: nat, j: nat)
    requires lo <= j <= |s|
    ensures OnlyChars(chars, s, KeepTo(chars, s, lo, j), j)
    decreases j
  {
    var n := EndLength(chars, s, lo, j);
    if n > 0 {
      RightCutIsChars(chars, s, lo, j - n);
      OnlyCharsThen(chars, s, KeepTo(chars, s, lo, j), j - n, j);
    }
  }

  /** No character of the set at either end. */
  ghost predicate Trimmed(chars: Chars, s: seq<byte>)
  {
    StartLength(chars, s, 0) == 0 && EndLength(chars, s, 0, |s|) == 0
  }

  lemma CharInStretch(chars: Chars, s: seq<byte>, i: nat, j: nat, from: nat, to: nat)
    requires i <= j <= |s| && CharAt(chars, s[i..j], from, to)
    ensures CharAt(chars, s, i + from, i + to) && i + to <= j
  {
    var (a, b) := (s[i..j][from..to], s[i + from..i + to]);
    assert |a| == |b|;
    forall k | 0 <= k < |a|
      ensures a[k] == b[k]
    {
      assert a[k] == s[i..j][from + k];
    }
    assert a == b;
  }

  /** A stretch with no character starting at its left or ending at its right is trimmed. */
  lemma StretchTrimmed(chars: Chars, s: seq<byte>, i: nat, j: nat)
    requires i <= j <= |s| && StartLength(chars, s, i) == 0 && EndLength(chars, s, i, j) == 0
    ensures Trimmed(chars, s[i..j])
  {
    var n := StartLength(chars, s[i..j], 0);
    if n > 0 {
      CharInStretch(chars, s, i, j, 0, n);
    }
    var m := EndLength(chars, s[i..j], 0, j - i);
    if m > 0 {
      CharInStretch(chars, s, i, j, j - i - m, j - i);
    }
  }

  /** Trimming keeps one stretch, cuts only characters of the set, and cuts all it can. */
  lemma TrimKeepsTheMiddle(chars: Chars, s: seq<byte>) returns (i: nat, j: nat)
    ensures i <= j <= |s| && TrimBoth(chars, s) == s[i..j]
    ensures OnlyChars(chars, s, 0, i) && OnlyChars(chars, s, j, |s|)
    ensures Trimmed(chars, s[i..j])
  {
    i := KeepFrom(chars, s, 0);
    j := KeepTo(chars, s, i, |s|);
    LeftCutIsChars(chars, s, 0);
    RightCutIsChars(chars, s, i, |s|);
    StretchTrimmed(chars, s, i, j);
  }

  lemma TrimmedStays(chars: Chars, s: seq<byte>)
    requires Trimmed(chars, s)
    ensures TrimBoth(chars, s) == s
  {
  }
}

/** What the broker does to every message it reads: newlines become spaces, then
    bytes.TrimSpace takes the white space off both ends. */
module Normalise {
  import opened CipherFeedback
  import opened Base64Url
  import opened Trim

  /** The UTF-8 encoding of one white-space character, as unicode.IsSpace has them. */
  predicate IsSpace(w: seq<byte>)
  {
    || (|w| == 1 && (9 <= w[0] <= 13 || w[0] == 32))
    || (|w| == 2 && w[0] == 0xC2 && (w[1] == 0x85 || w[1] == 0xA0))
    || (|w| == 3 && w[0] == 0xE1 && w[1] == 0x9A && w[2] == 0x80)
    || (|w| == 3 && w[0] == 0xE2 && w[1] == 0x80 && 0x80 <= w[2] <= 0x8A)
    || (|w| == 3 && w[0] == 0xE2 && w[1] == 0x80 && (w[2] == 0xA8 || w[2] == 0xA9 || w[2] == 0xAF))
    || (|w| == 3 && w[0] == 0xE2 && w[1] == 0x81 && w[2] == 0x9F)
    || (|w| == 3 && w[0] == 0xE3 && w[1] == 0x80 && w[2] == 0x80)
  }

  function Unbroken(s: seq<byte>): (t: seq<byte>)
    ensures |t| == |s|
  {
    seq<byte>(|s|, i requires 0 <= i < |s| => if s[i] == 10 then 32 else s[i])
  }

  function Normal(s: seq<byte>): seq<byte>
  {
    TrimBoth(IsSpace, Unbroken(s))
  }

  /** Nothing left for the broker to change. */
  ghost predicate IsNormal(s: seq<byte>)
  {
    10 !in s && Trimmed(IsSpace, s)
  }

  /** The broker keeps one stretch of the message, cutting only white space, and cuts all it can. */
  lemma NormalKeepsTheMiddle(s: seq<byte>) returns (i: nat, j: nat)
    ensures i <= j <= |s| && Normal(s) == Unbroken(s)[i..j]
    ensures OnlyChars(IsSpace, Unbroken(s), 0, i) && OnlyChars(IsSpace, Unbroken(s), j, |s|)
    ensures IsNormal(Normal(s))
  {
    i, j := TrimKeepsTheMiddle(IsSpace, Unbroken(s));
    StretchIsUnbroken(s, i, j);
  }

  /** What is kept is kept byte for byte, except that each newline has become a space. */
  lemma KeptByteForByte(s: seq<byte>) returns (i: nat)
    ensures i + |Normal(s)| <= |s|
    ensures forall k :: 0 <= k < |Normal(s)| ==> Normal(s)[k] == if s[i + k] == 10 then 32 else s[i + k]
  {
    var j;
    i, j := TrimKeepsTheMiddle(IsSpace, Unbroken(s));
    StretchOfUnbroken(s, i, j);
  }

  lemma StretchOfUnbroken(s: seq<byte>, i: nat, j: nat)
    requires i <= j <= |s|
    ensures forall k :: 0 <= k < j - i ==> Unbroken(s)[i..j][k] == if s[i + k] == 10 then 32 else s[i + k]
  {
    var t := Unbroken(s);
    forall k | 0 <= k < j - i
      ensures t[i..j][k] == if s[i + k] == 10 then 32 else s[i + k]
    {
      assert t[i..j][k] == t[i + k];
    }
  }

  lemma StretchIsUnbroken(s: seq<byte>, i: nat, j: nat)
    requires i <= j <= |s|
    ensures 10 !in Unbroken(s)[i..j]
  {
  }

  lemma NormalStays(s: seq<byte>)
    requires IsNormal(s)
    ensures Normal(s) == s
  {
    assert Unbroken(s) == s;
    TrimmedStays(IsSpace, s);
  }

  /** The broker leaves a message alone exactly when it is normal. */
  lemma NormalFixpoint(s: seq<byte>)
    ensures Normal(s) == s <==> IsNormal(s)
  {
    var i, j := NormalKeepsTheMiddle(s);
    if IsNormal(s) {
      NormalStays(s);
    }
  }

  /** Normalising twice is normalising once, on every byte string. */
  lemma NormalIdempotent(s: seq<byte>)
    ensures Normal(Normal(s)) == Normal(s)
  {
    var i, j := NormalKeepsTheMiddle(s);
    NormalStays(Normal(s));
  }

  /** No white-space character starts or ends in a visible ASCII byte. */
  lemma VisibleIsNotSpace(w: seq<byte>)
    requires w != [] && (33 <= w[0] < 127 || 33 <= w[|w| - 1] < 127)
    ensures !IsSpace(w)
  {
  }

  /** A message that starts and ends in a visible ASCII character and has no newline passes unchanged. */
  lemma VisibleEndsPass(s: seq<byte>)
    requires s != [] && 33 <= s[0] < 127 && 33 <= s[|s| - 1] < 127 && 10 !in s
    ensures Normal(s) == s
  {
    var (n, m) := (StartLength(IsSpace, s, 0), EndLength(IsSpace, s, 0, |s|));
    if n > 0 {
      VisibleIsNotSpace(s[0..n]);
    }
    if m > 0 {
      VisibleIsNotSpace(s[|s| - m..|s|]);
    }
    NormalStays(s);
  }

  /** Every sealed body passes unchanged. */
  lemma EncodedPasses(text: seq<byte>)
    requires IsEncoded(text)
    ensures Normal(text) == text
  {
    if text == [] {
      assert Unbroken(text) == [];
    } else {
      VisibleEndsPass(text);
    }
  }

  // ----- white space -----

  /** Unicode's white-space characters. */
  predicate WhiteSpace(codePoint: nat)
  {
    || 9 <= codePoint <= 13 || codePoint == 32 || codePoint == 0x85 || codePoint == 0xA0 || codePoint == 0x1680
    || 0x2000 <= codePoint <= 0x200A || codePoint == 0x2028 || codePoint == 0x2029 || codePoint == 0x202F
    || codePoint == 0x205F || codePoint == 0x3000
  }

  /** UTF-8 (section 3 of RFC 3629), for the characters that need no more than three bytes. */
  function Utf8(codePoint: nat): seq<byte>
    requires codePoint < 0x10000
  {
    if codePoint < 0x80 then [codePoint]
    else if codePoint < 0x800 then [0xC0 + codePoint / 64, 0x80 + codePoint % 64]
    else [0xE0 + codePoint / 4096, 0x80 + codePoint / 64 % 64, 0x80 + codePoint % 64]
  }

  lemma WhiteIsSpace(codePoint: nat)
    requires WhiteSpace(codePoint)
    ensures codePoint < 0x10000 && IsSpace(Utf8(codePoint))
  {
  }

  ghost predicate Spells(w: seq<byte>, codePoint: nat)
  {
    WhiteSpace(codePoint) && codePoint < 0x10000 && w == Utf8(codePoint)
  }

  lemma SpaceIsWhite(w: seq<byte>) returns (codePoint: nat)
    requires IsSpace(w)
    ensures Spells(w, codePoint)
  {
    if |w| == 1 {
      codePoint := w[0];
    } else if |w| == 2 {
      codePoint := w[1];
    } else {
      var (a: int, b: int, c: int) := (w[0], w[1], w[2]);
      codePoint := (a - 0xE0) * 4096 + (b - 0x80) * 64 + (c - 0x80);
    }
  }

  /** What is trimmed is exactly the UTF-8 of Unicode's white-space characters. */
  lemma SpacesAreWhite(w: seq<byte>)
    ensures IsSpace(w) <==> exists codePoint: nat :: Spells(w, codePoint)
  {
    if IsSpace(w) {
      var codePoint := SpaceIsWhite(w);
    }
    if codePoint: nat :| Spells(w, codePoint) {
      WhiteIsSpace(codePoint);
    }
  }
}
