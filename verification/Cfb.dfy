/** Ciphers whose keystream is fed by the ciphertext itself.  The keystream byte for a position
    is a function `k` of the ciphertext before it. */
module CipherFeedback {

  type byte = x: int | 0 <= x < 256

  /** The lowest `n` bits of a xor b. */
  function XorBits(a: nat, b: nat, n: nat): (c: nat)
  {
    if n == 0 then 0 else (a + b) % 2 + 2 * XorBits(a / 2, b / 2, n - 1)
  }

  function Pow2(n: nat): nat { if n == 0 then 1 else 2 * Pow2(n - 1) }

  lemma {:induction false} XorBitsBound(a: nat, b: nat, n: nat)
    ensures XorBits(a, b, n) < Pow2(n)
  {
    if n > 0 {
      XorBitsBound(a / 2, b / 2, n - 1);
    }
  }

  function Xor(a: byte, b: byte): byte
  {
    XorBitsBound(a, b, 8);
    assert Pow2(8) == 256;
    XorBits(a, b, 8)
  }

  lemma LowBit(a: nat, b: nat, rest: nat)
    ensures var c := (a + b) % 2 + 2 * rest; c / 2 == rest && (c + b) % 2 == a % 2
  {
  }

  lemma {:induction false} XorBitsTwice(a: nat, b: nat, n: nat)
    requires a < Pow2(n)
    ensures XorBits(XorBits(a, b, n), b, n) == a
  {
    if n > 0 {
      XorBitsTwice(a / 2, b / 2, n - 1);
      LowBit(a, b, XorBits(a / 2, b / 2, n - 1));
    }
  }

  /** The reference: each ciphertext byte is the plaintext byte xor the keystream byte that
      the ciphertext before it determines. */
  ghost predicate Encrypts(k: seq<byte> -> byte, plain: seq<byte>, cipher: seq<byte>)
  {
    && |plain| == |cipher|
    && forall i :: 0 <= i < |plain| ==> cipher[i] == Xor(plain[i], k(cipher[..i]))
  }

  function Seal(k: seq<byte> -> byte, plain: seq<byte>): (cipher: seq<byte>)
    ensures |cipher| == |plain|
  {
    if plain == [] then []
    else
      var last := |plain| - 1;
      var sofar := Seal(k, plain[..last]);
      sofar + [Xor(plain[last], k(sofar))]
  }

  function Unseal(k: seq<byte> -> byte, cipher: seq<byte>): (plain: seq<byte>)
    ensures |plain| == |cipher|
  {
    seq<byte>(|cipher|, i requires 0 <= i < |cipher| => Xor(cipher[i], k(cipher[..i])))
  }

  lemma {:induction false} SealEncrypts(k: seq<byte> -> byte, plain: seq<byte>)
    ensures Encrypts(k, plain, Seal(k, plain))
  {
    if plain != [] {
      var last := |plain| - 1;
      var sofar := Seal(k, plain[..last]);
      SealEncrypts(k, plain[..last]);
      assert forall i :: 0 <= i <= last ==> Seal(k, plain)[..i] == sofar[..i];
      assert sofar[..last] == sofar;
    }
  }

  /** The reference fixes the ciphertext. */
  lemma {:induction false} CipherUnique(k: seq<byte> -> byte, plain: seq<byte>, a: seq<byte>, b: seq<byte>, n: nat)
    requires Encrypts(k, plain, a) && Encrypts(k, plain, b) && n <= |plain|
    ensures a[..n] == b[..n]
  {
    if n > 0 {
      CipherUnique(k, plain, a, b, n - 1);
      assert a[..n] == a[..n-1] + [a[n-1]] && b[..n] == b[..n-1] + [b[n-1]];
    }
  }

  /** Bit `k` of a number. */
  function Bit(x: nat, k: nat): (b: nat)
    ensures b < 2
  {
    if k == 0 then x % 2 else Bit(x / 2, k - 1)
  }

  lemma LowestBit(a: nat, b: nat, rest: nat)
    ensures var c := (a + b) % 2 + 2 * rest; c / 2 == rest && c % 2 == (a % 2 + b % 2) % 2
  {
  }

  lemma {:induction false} XorBitsAt(a: nat, b: nat, n: nat, k: nat)
    requires k < n
    ensures Bit(XorBits(a, b, n), k) == (Bit(a, k) + Bit(b, k)) % 2
  {
    LowestBit(a, b, XorBits(a / 2, b / 2, n - 1));
    if k > 0 {
      XorBitsAt(a / 2, b / 2, n - 1, k - 1);
    }
  }

  lemma {:induction false} SameBits(a: nat, b: nat, n: nat)
    requires a < Pow2(n) && b < Pow2(n) && forall k :: 0 <= k < n ==> Bit(a, k) == Bit(b, k)
    ensures a == b
  {
    if n > 0 {
      assert Bit(a, 0) == Bit(b, 0);
      forall k: nat | k < n - 1
        ensures Bit(a / 2, k) == Bit(b / 2, k)
      {
        assert Bit(a, k + 1) == Bit(b, k + 1);
      }
      SameBits(a / 2, b / 2, n - 1);
    }
  }

  lemma XorAt(a: byte, b: byte, k: nat)
    requires k < 8
    ensures Bit(Xor(a, b), k) == (Bit(a, k) + Bit(b, k)) % 2
  {
    XorBitsAt(a, b, 8, k);
  }

  lemma SumAt(c: byte, a: byte, b: byte, k: nat)
    requires c == Xor(a, b) && k < 8
    ensures Bit(c, k) == (Bit(a, k) + Bit(b, k)) % 2
  {
    XorAt(a, b, k);
  }

  ghost predicate BitwiseSum(a: byte, b: byte, c: byte)
  {
    forall k: nat :: k < 8 ==> Bit(c, k) == (Bit(a, k) + Bit(b, k)) % 2
  }

  /** Xor is the exclusive or of every bit, and the only byte that is. */
  lemma XorIsBitwise(a: byte, b: byte, c: byte)
    ensures c == Xor(a, b) <==> BitwiseSum(a, b, c)
  {
    forall k: nat | k < 8
      ensures Bit(Xor(a, b), k) == (Bit(a, k) + Bit(b, k)) % 2
    {
      XorAt(a, b, k);
    }
    if BitwiseSum(a, b, c) {
      BytesBelow();
      SameBits(c, Xor(a, b), 8);
    }
  }

  lemma BytesBelow()
    ensures Pow2(8) == 256
  {
  }

  lemma XorMoves(x: byte, y: byte, key: byte)
    ensures x == Xor(y, key) <==> y == Xor(x, key)
  {
    XorBitsTwice(x, key, 8);
    XorBitsTwice(y, key, 8);
  }

  lemma EncryptsUnseals(k: seq<byte> -> byte, plain: seq<byte>, cipher: seq<byte>)
    requires Encrypts(k, plain, cipher)
    ensures plain == Unseal(k, cipher)
  {
    forall i | 0 <= i < |plain|
      ensures plain[i] == Unseal(k, cipher)[i]
    {
      XorMoves(cipher[i], plain[i], k(cipher[..i]));
    }
  }

  lemma UnsealsEncrypts(k: seq<byte> -> byte, cipher: seq<byte>)
    ensures Encrypts(k, Unseal(k, cipher), cipher)
  {
    var plain := Unseal(k, cipher);
    forall i | 0 <= i < |plain|
      ensures cipher[i] == Xor(plain[i], k(cipher[..i]))
    {
      XorMoves(cipher[i], plain[i], k(cipher[..i]));
    }
  }

  /** The reference fixes the plaintext, and Unseal computes it. */
  lemma PlainUnique(k: seq<byte> -> byte, plain: seq<byte>, cipher: seq<byte>)
    ensures Encrypts(k, plain, cipher) <==> plain == Unseal(k, cipher)
  {
    if Encrypts(k, plain, cipher) {
      EncryptsUnseals(k, plain, cipher);
    }
    UnsealsEncrypts(k, cipher);
  }

  /** Sealing and unsealing are inverse to each other, both ways, for every keystream and length. */
  lemma SealUnseal(k: seq<byte> -> byte, text: seq<byte>)
    ensures Unseal(k, Seal(k, text)) == text
    ensures Seal(k, Unseal(k, text)) == text
  {
    SealEncrypts(k, text);
    PlainUnique(k, text, Seal(k, text));
    var plain := Unseal(k, text);
    PlainUnique(k, plain, text);
    SealEncrypts(k, plain);
    CipherUnique(k, plain, Seal(k, plain), text, |text|);
    assert Seal(k, plain)[..|text|] == Seal(k, plain) && text[..|text|] == text;
  }
}

/** CFB mode (section 6.3 of NIST SP 800-38A, 128-bit segments) as encrypt and decrypt use it:
    over an arbitrary block function, with a partial last block, in place. */
module Cfb {
  import opened CipherFeedback

  const ZEROES: seq<byte> := seq(16, _ => 0)

  /** A keyed block function, taken as given. */
  type Cipher = seq<byte> -> seq<byte>

  function Block(e: Cipher, b: seq<byte>): (r: seq<byte>)
    ensures |r| == 16
  {
    var r := e(b);
    if |r| == 16 then r else ZEROES
  }

  /** How far into its 16-byte block position `i` is. */
  function Slot(i: nat): (r: nat)
    ensures r < 16 && r <= i
  {
    if i == 0 then 0 else if Slot(i - 1) == 15 then 0 else Slot(i - 1) + 1
  }

  lemma {:induction false} SlotInBlocks(n: nat, r: nat)
    requires r < 16
    ensures Slot(16 * n + r) == r
    decreases n, r
  {
    if r > 0 {
      SlotInBlocks(n, r - 1);
    } else if n > 0 {
      SlotInBlocks(n - 1, 15);
      assert 16 * n - 1 == 16 * (n - 1) + 15;
    }
  }

  /** Where the block of position `i` starts. */
  function BlockStart(i: nat): (q: nat)
    ensures q <= i < q + 16
  {
    i - Slot(i)
  }

  /** The ciphertext block before the current one; the IV for the first. */
  function Feeding(iv: seq<byte>, before: seq<byte>): (block: seq<byte>)
    requires |iv| == 16
    ensures |block| == 16
  {
    (iv + before)[BlockStart(|before|)..BlockStart(|before|) + 16]
  }

  /** The keystream byte: from the encryption of that block. */
  function KeyByte(e: Cipher, iv: seq<byte>, before: seq<byte>): byte
    requires |iv| == 16
  {
    Block(e, Feeding(iv, before))[Slot(|before|)]
  }

  /** In the standard's terms: the byte at place `r` of block `n` comes from encrypting ciphertext
      block `n - 1`, or the IV for the first. */
  lemma KeyByteInBlocks(e: Cipher, iv: seq<byte>, before: seq<byte>, n: nat, r: nat)
    requires |iv| == 16 && |before| == 16 * n + r && r < 16
    ensures KeyByte(e, iv, before) == Block(e, if n == 0 then iv else before[16 * (n - 1)..16 * n])[r]
  {
    SlotInBlocks(n, r);
    assert n > 0 ==> (iv + before)[16 * n..16 * n + 16] == before[16 * (n - 1)..16 * n];
    assert n == 0 ==> (iv + before)[..16] == iv;
  }

  function KeyStream(e: Cipher, iv: seq<byte>): seq<byte> -> byte
    requires |iv| == 16
  {
    before => KeyByte(e, iv, before)
  }

  /** The cipher's 16-byte register after `n` bytes: each overwrites its place in the block. */
  function Register(iv: seq<byte>, cipher: seq<byte>, n: nat): (r: seq<byte>)
    requires |iv| == 16 && n <= |cipher|
    ensures |r| == 16
  {
    if n == 0 then iv else Register(iv, cipher, n - 1)[Slot(n - 1) := cipher[n - 1]]
  }

  /** The register as it was at the start of the current block. */
  function Fed(iv: seq<byte>, cipher: seq<byte>, n: nat): (block: seq<byte>)
    requires |iv| == 16 && n <= |cipher|
    ensures |block| == 16
  {
    if n == 0 || Slot(n) == 0 then Register(iv, cipher, n) else Fed(iv, cipher, n - 1)
  }

  /** The byte 16 places before position `j`, in the IV followed by the ciphertext. */
  function BlockBefore(iv: seq<byte>, cipher: seq<byte>, j: nat): byte
    requires |iv| == 16 && j < 16 + |cipher|
  {
    if j < 16 then iv[j] else cipher[j - 16]
  }

  /** The register holds this block's ciphertext so far over the previous block. */
  lemma {:induction false} RegisterHolds(iv: seq<byte>, cipher: seq<byte>, n: nat, t: nat)
    requires |iv| == 16 && n <= |cipher| && t < 16
    ensures var q := BlockStart(n);
            Register(iv, cipher, n)[t] == if t < Slot(n) then cipher[q + t] else BlockBefore(iv, cipher, q + t)
  {
    if n > 0 {
      RegisterHolds(iv, cipher, n - 1, t);
    }
  }

  lemma {:induction false} FedAtBlockStart(iv: seq<byte>, cipher: seq<byte>, n: nat)
    requires |iv| == 16 && n <= |cipher|
    ensures Fed(iv, cipher, n) == Register(iv, cipher, BlockStart(n))
  {
    if n > 0 && Slot(n) != 0 {
      FedAtBlockStart(iv, cipher, n - 1);
      assert BlockStart(n - 1) == BlockStart(n);
    }
  }

  lemma FeedingAt(iv: seq<byte>, cipher: seq<byte>, n: nat, t: nat)
    requires |iv| == 16 && n <= |cipher| && t < 16
    ensures Feeding(iv, cipher[..n])[t] == BlockBefore(iv, cipher, BlockStart(n) + t)
  {
    var all := iv + cipher[..n];
    assert Feeding(iv, cipher[..n])[t] == all[BlockStart(n) + t];
  }

  lemma {:induction false} BlockStartSlot(n: nat)
    ensures Slot(BlockStart(n)) == 0
  {
    if n > 0 && Slot(n) != 0 {
      BlockStartSlot(n - 1);
      assert BlockStart(n - 1) == BlockStart(n);
    }
  }

  lemma FedByte(iv: seq<byte>, cipher: seq<byte>, n: nat, t: nat)
    requires |iv| == 16 && n <= |cipher| && t < 16
    ensures Fed(iv, cipher, n)[t] == BlockBefore(iv, cipher, BlockStart(n) + t)
  {
    FedAtBlockStart(iv, cipher, n);
    BlockStartSlot(n);
    RegisterHolds(iv, cipher, BlockStart(n), t);
  }

  /** What is encrypted for the current block is the previous ciphertext block. */
  lemma FedIsPreviousBlock(iv: seq<byte>, cipher: seq<byte>, n: nat)
    requires |iv| == 16 && n <= |cipher|
    ensures Fed(iv, cipher, n) == Feeding(iv, cipher[..n])
  {
    var (a, b) := (Fed(iv, cipher, n), Feeding(iv, cipher[..n]));
    forall t: nat | t < 16
      ensures a[t] == b[t]
    {
      FedByte(iv, cipher, n, t);
      FeedingAt(iv, cipher, n, t);
    }
  }

  /** The fields of the CFB stream: its register, its current keystream block, how much of it is used. */
  datatype Stream = Stream(next: seq<byte>, out: seq<byte>, used: nat)

  /** The stream after `n` bytes of this ciphertext. */
  ghost predicate Ready(e: Cipher, iv: seq<byte>, cipher: seq<byte>, n: nat, s: Stream)
    requires |iv| == 16 && n <= |cipher|
  {
    && s.next == Register(iv, cipher, n) && s.used == Slot(n) && |s.out| == 16
    && (s.used != 0 ==> s.out == Block(e, Fed(iv, cipher, n)))
  }

  /** The bytes that come out of the stream for these bytes in. */
  ghost function Streamed(k: seq<byte> -> byte, decrypting: bool, input: seq<byte>): (output: seq<byte>)
    ensures |output| == |input|
  {
    if decrypting then Unseal(k, input) else Seal(k, input)
  }

  /** One byte of the stream: encrypt the register at a block boundary, xor, feed the ciphertext back. */
  method StreamByte(e: Cipher, ghost iv: seq<byte>, ghost cipher: seq<byte>, ghost i: nat, decrypting: bool, x: byte,
                    s: Stream)
    returns (y: byte, s': Stream)
    requires |iv| == 16 && i < |cipher| && Ready(e, iv, cipher, i, s)
    requires cipher[i] == if decrypting then x else Xor(x, KeyByte(e, iv, cipher[..i]))
    ensures y == Xor(x, KeyByte(e, iv, cipher[..i]))
    ensures Ready(e, iv, cipher, i + 1, s')
  {
    var out := s.out;
    if s.used == 0 {
      out := Block(e, s.next);
    }
    FedIsPreviousBlock(iv, cipher, i);
    y := Xor(x, out[s.used]);
    s' := Stream(s.next[s.used := if decrypting then x else y], out, if s.used == 15 then 0 else s.used + 1);
  }

  /** What comes out, byte by byte, given the ciphertext side of the stream. */
  ghost predicate Through(k: seq<byte> -> byte, decrypting: bool, input: seq<byte>, output: seq<byte>,
                          cipher: seq<byte>)
  {
    && |output| == |cipher| == |input|
    && cipher == (if decrypting then input else output)
    && forall i {:trigger cipher[..i]} :: 0 <= i < |input| ==> output[i] == Xor(input[i], k(cipher[..i]))
  }

  /** XORKeyStream of the CFB encrypter and decrypter.  `dst` and `src` may be one array at one
      offset: the ciphertext byte enters the register before it is overwritten. */
  method XorKeyStream(e: Cipher, iv: seq<byte>, decrypting: bool, dst: array<byte>, to: nat, src: array<byte>,
                      from: nat, n: nat)
    requires |iv| == 16 && to + n <= dst.Length && from + n <= src.Length
    requires dst != src || to == from
    modifies dst
    ensures dst[to..to + n] == Streamed(KeyStream(e, iv), decrypting, old(src[from..from + n]))
    ensures dst[..to] == old(dst[..to]) && dst[to + n..] == old(dst[to + n..])
  {
    ghost var input := src[from..from + n];
    ghost var output := Streamed(KeyStream(e, iv), decrypting, input);
    SealEncrypts(KeyStream(e, iv), input);
    StreamThrough(e, iv, decrypting, dst, to, src, from, n, output, if decrypting then input else output);
  }

  /** `was` with the first `i` output bytes written at `to`. */
  ghost function Patched(was: seq<byte>, to: nat, output: seq<byte>, i: nat): (now: seq<byte>)
    requires i <= |output| && to + |output| <= |was|
    ensures |now| == |was|
  {
    was[..to] + output[..i] + was[to + i..]
  }

  lemma PatchNext(was: seq<byte>, to: nat, output: seq<byte>, i: nat)
    requires i < |output| && to + |output| <= |was|
    ensures Patched(was, to, output, i)[to + i := output[i]] == Patched(was, to, output, i + 1)
  {
  }

  lemma PatchEnds(was: seq<byte>, to: nat, output: seq<byte>)
    requires to + |output| <= |was|
    ensures Patched(was, to, output, 0) == was
    ensures var now := Patched(was, to, output, |output|);
            now[to..to + |output|] == output && now[..to] == was[..to] && now[to + |output|..] == was[to + |output|..]
  {
  }

  /** Position `i` of what comes out. */
  lemma ThroughAt(e: Cipher, iv: seq<byte>, decrypting: bool, input: seq<byte>, output: seq<byte>, cipher: seq<byte>,
                  i: nat)
    requires |iv| == 16 && Through(KeyStream(e, iv), decrypting, input, output, cipher) && i < |input|
    ensures output[i] == Xor(input[i], KeyByte(e, iv, cipher[..i]))
    ensures cipher[i] == if decrypting then input[i] else Xor(input[i], KeyByte(e, iv, cipher[..i]))
  {
    assert KeyStream(e, iv)(cipher[..i]) == KeyByte(e, iv, cipher[..i]);
  }

  /** One turn of the loop: position `i` of the stream is read and written. */
  method StreamStep(e: Cipher, ghost iv: seq<byte>, decrypting: bool, dst: array<byte>, to: nat, src: array<byte>,
                    from: nat, i: nat,
                    ghost output: seq<byte>, ghost cipher: seq<byte>, ghost was: seq<byte>, s: Stream)
    returns (s': Stream)
    requires |iv| == 16 && to + |output| <= dst.Length == |was| && i < |output| == |cipher| && from + i < src.Length
    requires Ready(e, iv, cipher, i, s) && dst[..] == Patched(was, to, output, i)
    requires output[i] == Xor(src[from + i], KeyByte(e, iv, cipher[..i]))
    requires cipher[i] == if decrypting then src[from + i] else output[i]
    modifies dst
    ensures Ready(e, iv, cipher, i + 1, s') && dst[..] == Patched(was, to, output, i + 1)
  {
    PatchNext(was, to, output, i);
    var y;
    y, s' := StreamByte(e, iv, cipher, i, decrypting, src[from + i], s);
    dst[to + i] := y;
  }

  /** While the first `i` output bytes are in place, position `i` of the source is still as it was. */
  lemma SourceAhead(was: seq<byte>, to: nat, output: seq<byte>, i: nat)
    requires i < |output| && to + |output| <= |was|
    ensures Patched(was, to, output, i)[to + i] == was[to + i]
  {
  }

  method StreamThrough(e: Cipher, iv: seq<byte>, decrypting: bool, dst: array<byte>, to: nat, src: array<byte>,
                       from: nat, n: nat,
                       ghost output: seq<byte>, ghost cipher: seq<byte>)
    requires |iv| == 16 && to + n <= dst.Length && from + n <= src.Length
    requires dst != src || to == from
    requires Through(KeyStream(e, iv), decrypting, src[from..from + n], output, cipher)
    modifies dst
    ensures dst[to..to + n] == output
    ensures dst[..to] == old(dst[..to]) && dst[to + n..] == old(dst[to + n..])
  {
    ghost var was := dst[..];
    ghost var input := src[from..from + n];
    PatchEnds(was, to, output);
    var s := Stream(iv, iv, 0);
    for i := 0 to n
      invariant Ready(e, iv, cipher, i, s)
      invariant dst[..] == Patched(was, to, output, i)
      invariant dst != src ==> src[from..from + n] == input
    {
      SourceAhead(was, to, output, i);
      assert src[from + i] == input[i];
      ThroughAt(e, iv, decrypting, input, output, cipher, i);
      s := StreamStep(e, iv, decrypting, dst, to, src, from, i, output, cipher, was, s);
    }
    assert dst[..to] == dst[..][..to] && dst[to + n..] == dst[..][to + n..];
  }
}
