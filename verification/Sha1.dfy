/** The hand-written SHA-1 of the WebSocket handshake, against sections 5.1.1 and 6.1.2 of FIPS 180-4. */
module Sha1 {

  type byte = bv8
  type word = bv32

  const U64: nat := 0x1_0000_0000_0000_0000

  // ---------------------------------------------------------------- the standard

  function Zeros(n: nat): seq<byte> { seq(n, _ => 0) }

  function BigEndian(n: nat, width: nat): (s: seq<byte>)
    ensures |s| == width
  {
    if width == 0 then [] else BigEndian(n / 256, width - 1) + [(n % 256) as byte]
  }

  /** With `k` zero bytes after the marker, just the length field is missing in the last block. */
  predicate LeavesRoom(length: nat, k: nat) { (length + 1 + k) % 64 == 56 }

  /** The number of zero bytes of the padding: the least one that leaves room for the length in the last block. */
  function ZeroCount(length: nat): (k: nat)
    ensures LeavesRoom(length, k)
    ensures forall j {:trigger LeavesRoom(length, j)} :: 0 <= j < k ==> !LeavesRoom(length, j)
  {
    (119 - length % 64) % 64
  }

  lemma WholeBlocks(length: nat, k: nat)
    requires LeavesRoom(length, k)
    ensures (length + 1 + k + 8) % 64 == 0
  {
  }

  /** Section 5.1.1, for whole bytes; the length field holds the bit length, as far as 64 bits can. */
  function Padded(input: seq<byte>): (m: seq<byte>)
    ensures |m| % 64 == 0
  {
    var k := ZeroCount(|input|);
    WholeBlocks(|input|, k);
    var m := input + [0x80] + Zeros(k) + BigEndian(8 * |input| % U64, 8);
    assert |m| == |input| + 1 + k + 8;
    m
  }

  function Ch(x: word, y: word, z: word): word { (x & y) ^ (!x & z) }

  function Parity(x: word, y: word, z: word): word { x ^ y ^ z }

  function Maj(x: word, y: word, z: word): word { (x & y) ^ (x & z) ^ (y & z) }

  function F(t: nat, x: word, y: word, z: word): word {
    if t < 20 then Ch(x, y, z) else if t < 40 then Parity(x, y, z) else if t < 60 then Maj(x, y, z) else Parity(x, y, z)
  }

  function K(t: nat): word {
    if t < 20 then 0x5A827999 else if t < 40 then 0x6ED9EBA1 else if t < 60 then 0x8F1BBCDC else 0xCA62C1D6
  }

  function FromBigEndian(b0: byte, b1: byte, b2: byte, b3: byte): word {
    (b0 as word << 24) | (b1 as word << 16) | (b2 as word << 8) | (b3 as word)
  }

  function WordBytes(x: word): seq<byte> {
    [((x >> 24) & 0xFF) as byte, ((x >> 16) & 0xFF) as byte, ((x >> 8) & 0xFF) as byte, (x & 0xFF) as byte]
  }

  function Expanded(p: word, q: word, r: word, s: word): word { (p ^ q ^ r ^ s).RotateLeft(1) }

  /** The message schedule of a block. */
  function W(block: seq<byte>, t: nat): word
    requires |block| == 64
  {
    if t < 16 then FromBigEndian(block[4 * t], block[4 * t + 1], block[4 * t + 2], block[4 * t + 3])
    else Expanded(W(block, t - 3), W(block, t - 8), W(block, t - 14), W(block, t - 16))
  }

  datatype Hash = Hash(a: word, b: word, c: word, d: word, e: word)

  const INITIAL: Hash := Hash(0x67452301, 0xEFCDAB89, 0x98BADCFE, 0x10325476, 0xC3D2E1F0)

  function Temp(a: word, f: word, e: word, k: word, w: word): word { a.RotateLeft(5) + f + e + k + w }

  function Round(h: Hash, t: nat, w: word): Hash {
    Hash(Temp(h.a, F(t, h.b, h.c, h.d), h.e, K(t), w), h.a, h.b.RotateLeft(30), h.c, h.d)
  }

  /** The working variables after the first `t` rounds. */
  function Rounds(h: Hash, block: seq<byte>, t: nat): Hash
    requires |block| == 64
  {
    if t == 0 then h else Round(Rounds(h, block, t - 1), t - 1, W(block, t - 1))
  }

  function Sum(g: Hash, h: Hash): Hash { Hash(g.a + h.a, g.b + h.b, g.c + h.c, g.d + h.d, g.e + h.e) }

  /** The hash value after the first `n` blocks. */
  function Blocks(m: seq<byte>, n: nat): Hash
    requires 64 * n <= |m|
  {
    if n == 0 then INITIAL
    else var h := Blocks(m, n - 1); Sum(h, Rounds(h, m[64 * (n - 1)..64 * n], 80))
  }

  function Sha1(input: seq<byte>): seq<byte> {
    var m := Padded(input);
    var h := Blocks(m, |m| / 64);
    WordBytes(h.a) + WordBytes(h.b) + WordBytes(h.c) + WordBytes(h.d) + WordBytes(h.e)
  }

  // ---------------------------------------------------------------- the code

  /** The padding loop stops at the first length that leaves eight bytes in the last block. */
  method Pad(input: seq<byte>) returns (message: seq<byte>)
    ensures message == Padded(input)
  {
    message := input;
    var bitLen := 8 * |message| % U64;
    message := message + [0x80];
    ghost var k := 0;
    while |message| % 64 != 56
      invariant k <= ZeroCount(|input|) && message == input + [0x80] + Zeros(k) && |message| == |input| + 1 + k
      decreases ZeroCount(|input|) - k
    {
      assert !LeavesRoom(|input|, k) && k != ZeroCount(|input|);
      message := message + [0];
      assert Zeros(k) + [0] == Zeros(k + 1);
      k := k + 1;
    }
    assert LeavesRoom(|input|, k);
    message := message + BigEndian(bitLen, 8);
  }

  method Schedule(chunk: seq<byte>) returns (words: array<word>)
    requires |chunk| == 64
    ensures fresh(words) && words.Length == 80
    ensures forall t {:trigger words[t]} :: 0 <= t < 80 ==> words[t] == W(chunk, t)
  {
    words := new word[80];
    for idx := 0 to 16
      invariant forall t {:trigger words[t]} :: 0 <= t < idx ==> words[t] == W(chunk, t)
    {
      var offset := idx * 4;
      words[idx] := FromBigEndian(chunk[offset], chunk[offset + 1], chunk[offset + 2], chunk[offset + 3]);
    }
    for idx := 16 to 80
      invariant forall t {:trigger words[t]} :: 0 <= t < idx ==> words[t] == W(chunk, t)
    {
      words[idx] := Expanded(words[idx - 3], words[idx - 8], words[idx - 14], words[idx - 16]);
    }
  }

  lemma ChoiceByOr(b: word, c: word, d: word)
    ensures (b & c) | (!b & d) == Ch(b, c, d)
  {
  }

  lemma MajorityByOr(b: word, c: word, d: word)
    ensures (b & c) | (b & d) | (c & d) == Maj(b, c, d)
  {
  }

  method Choice(b: word, c: word, d: word) returns (f: word)
    ensures f == Ch(b, c, d)
  {
    ChoiceByOr(b, c, d);
    f := (b & c) | (!b & d);
  }

  method Majority(b: word, c: word, d: word) returns (f: word)
    ensures f == Maj(b, c, d)
  {
    MajorityByOr(b, c, d);
    f := (b & c) | (b & d) | (c & d);
  }

  method Mix(idx: nat, b: word, c: word, d: word) returns (f: word, k: word)
    ensures f == F(idx, b, c, d) && k == K(idx)
  {
    if idx < 20 {
      f := Choice(b, c, d);
      k := 0x5A827999;
    } else if idx < 40 {
      f, k := b ^ c ^ d, 0x6ED9EBA1;
    } else if idx < 60 {
      f := Majority(b, c, d);
      k := 0x8F1BBCDC;
    } else {
      f, k := b ^ c ^ d, 0xCA62C1D6;
    }
  }

  method Compress(chunk: seq<byte>, h: Hash) returns (next: Hash)
    requires |chunk| == 64
    ensures next == Sum(h, Rounds(h, chunk, 80))
  {
    var words := Schedule(chunk);
    var a, b, c, d, e := h.a, h.b, h.c, h.d, h.e;
    for idx := 0 to 80
      invariant forall t {:trigger words[t]} :: 0 <= t < 80 ==> words[t] == W(chunk, t)
      invariant Hash(a, b, c, d, e) == Rounds(h, chunk, idx)
    {
      var f, k := Mix(idx, b, c, d);
      var temp := Temp(a, f, e, k, words[idx]);
      e := d;
      d := c;
      c := b.RotateLeft(30);
      b := a;
      a := temp;
    }
    next := Sum(h, Hash(a, b, c, d, e));
  }

  /** The code computes SHA-1 as the standard defines it, for every input. */
  method Sha1Digest(input: seq<byte>) returns (digest: seq<byte>)
    ensures digest == Sha1(input)
  {
    var message := Pad(input);
    var h := Hash(0x67452301, 0xEFCDAB89, 0x98BADCFE, 0x10325476, 0xC3D2E1F0);
    for n := 0 to |message| / 64
      invariant h == Blocks(message, n)
    {
      h := Compress(message[64 * n..64 * (n + 1)], h);
    }
    digest := WordBytes(h.a) + WordBytes(h.b) + WordBytes(h.c) + WordBytes(h.d) + WordBytes(h.e);
  }
}
