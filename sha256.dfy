/**
 * SHA-256 as FIPS 180-4 (section 6.2) defines it, over a byte sequence:
 * the message is padded (section 5.1.1), split into 64-byte blocks
 * (section 5.2.1), and each block is compressed into the running hash value
 * (section 6.2.2), starting from the initial hash value of section 5.3.3.
 * The library call `HashAlgorithm.ComputeHash` of a `SHA256` instance
 * computes this function.
 */
module Sha256 {
  import opened Basics

  type Word = bv32

  /** The 64 round constants of section 4.2.2. */
  const K: seq<Word> := [
    0x428a2f98, 0x71374491, 0xb5c0fbcf, 0xe9b5dba5, 0x3956c25b, 0x59f111f1, 0x923f82a4, 0xab1c5ed5,
    0xd807aa98, 0x12835b01, 0x243185be, 0x550c7dc3, 0x72be5d74, 0x80deb1fe, 0x9bdc06a7, 0xc19bf174,
    0xe49b69c1, 0xefbe4786, 0x0fc19dc6, 0x240ca1cc, 0x2de92c6f, 0x4a7484aa, 0x5cb0a9dc, 0x76f988da,
    0x983e5152, 0xa831c66d, 0xb00327c8, 0xbf597fc7, 0xc6e00bf3, 0xd5a79147, 0x06ca6351, 0x14292967,
    0x27b70a85, 0x2e1b2138, 0x4d2c6dfc, 0x53380d13, 0x650a7354, 0x766a0abb, 0x81c2c92e, 0x92722c85,
    0xa2bfe8a1, 0xa81a664b, 0xc24b8b70, 0xc76c51a3, 0xd192e819, 0xd6990624, 0xf40e3585, 0x106aa070,
    0x19a4c116, 0x1e376c08, 0x2748774c, 0x34b0bcb5, 0x391c0cb3, 0x4ed8aa4a, 0x5b9cca4f, 0x682e6ff3,
    0x748f82ee, 0x78a5636f, 0x84c87814, 0x8cc70208, 0x90befffa, 0xa4506ceb, 0xbef9a3f7, 0xc67178f2]

  /** The initial hash value of section 5.3.3. */
  const InitialHash: seq<Word> := [
    0x6a09e667, 0xbb67ae85, 0x3c6ef372, 0xa54ff53a, 0x510e527f, 0x9b05688c, 0x1f83d9ab, 0x5be0cd19]

  // The functions of section 4.1.2.
  function Ch(x: Word, y: Word, z: Word): Word { (x & y) ^ (!x & z) }
  function Maj(x: Word, y: Word, z: Word): Word { (x & y) ^ (x & z) ^ (y & z) }
  function BigSigma0(x: Word): Word { x.RotateRight(2) ^ x.RotateRight(13) ^ x.RotateRight(22) }
  function BigSigma1(x: Word): Word { x.RotateRight(6) ^ x.RotateRight(11) ^ x.RotateRight(25) }
  function SmallSigma0(x: Word): Word { x.RotateRight(7) ^ x.RotateRight(18) ^ (x >> 3) }
  function SmallSigma1(x: Word): Word { x.RotateRight(17) ^ x.RotateRight(19) ^ (x >> 10) }

  /** The `count` low-order bytes of `n`, most significant first. */
  function BigEndian(n: nat, count: nat): (r: seq<byte>)
    ensures |r| == count
  {
    if count == 0 then [] else BigEndian(n / 256, count - 1) + [(n % 256) as byte]
  }

  /**
   * Section 5.1.1: a one bit, then zero bits up to 448 modulo 512, then the
   * message length in bits as a 64-bit big-endian integer.
   */
  function Padding(m: seq<byte>): (p: seq<byte>)
    ensures (|m| + |p|) % 64 == 0 && |m| + 9 <= |m| + |p| <= |m| + 72
  {
    [0x80] + seq((55 - |m|) % 64, _ => 0) + BigEndian(|m| * 8, 8)
  }

  /** The big-endian word at byte offset `i`. */
  function WordAt(bs: seq<byte>, i: nat): Word
    requires i + 4 <= |bs|
  {
    ((bs[i] as Word) << 24) | ((bs[i + 1] as Word) << 16) | ((bs[i + 2] as Word) << 8) | (bs[i + 3] as Word)
  }

  /** The first `n` words of a block. */
  function BlockWords(block: seq<byte>, n: nat): (w: seq<Word>)
    requires |block| == 64 && n <= 16
    ensures |w| == n
  {
    if n == 0 then [] else BlockWords(block, n - 1) + [WordAt(block, 4 * (n - 1))]
  }

  /** Section 6.2.2, step 1: the message schedule grown from 16 to 64 words. */
  function Expand(w: seq<Word>): (r: seq<Word>)
    requires 16 <= |w| <= 64
    ensures |r| == 64
    decreases 64 - |w|
  {
    if |w| == 64 then w
    else
      var t := |w|;
      Expand(w + [SmallSigma1(w[t - 2]) + w[t - 7] + SmallSigma0(w[t - 15]) + w[t - 16]])
  }

  /** The eight working variables of section 6.2.2. */
  datatype Working = Working(a: Word, b: Word, c: Word, d: Word, e: Word, f: Word, g: Word, h: Word)

  /** One round of section 6.2.2, step 3. */
  function Round(s: Working, k: Word, w: Word): Working
  {
    var t1 := s.h + BigSigma1(s.e) + Ch(s.e, s.f, s.g) + k + w;
    var t2 := BigSigma0(s.a) + Maj(s.a, s.b, s.c);
    Working(t1 + t2, s.a, s.b, s.c, s.d + t1, s.e, s.f, s.g)
  }

  /** Rounds `t` to 63. */
  function Rounds(s: Working, w: seq<Word>, t: nat): Working
    requires |w| == 64 && t <= 64
    decreases 64 - t
  {
    if t == 64 then s else Rounds(Round(s, K[t], w[t]), w, t + 1)
  }

  /** Section 6.2.2 for one block: the rounds, then the addition into the hash value (step 4). */
  function CompressBlock(h: seq<Word>, block: seq<byte>): (r: seq<Word>)
    requires |h| == 8 && |block| == 64
    ensures |r| == 8
  {
    var s := Rounds(Working(h[0], h[1], h[2], h[3], h[4], h[5], h[6], h[7]), Expand(BlockWords(block, 16)), 0);
    [h[0] + s.a, h[1] + s.b, h[2] + s.c, h[3] + s.d, h[4] + s.e, h[5] + s.f, h[6] + s.g, h[7] + s.h]
  }

  /** The hash value after compressing every block of `p` in order. */
  function HashBlocks(h: seq<Word>, p: seq<byte>): (r: seq<Word>)
    requires |h| == 8 && |p| % 64 == 0
    ensures |r| == 8
    decreases |p|
  {
    if p == [] then h else HashBlocks(CompressBlock(h, p[..64]), p[64..])
  }

  /** A word as four bytes, most significant first. */
  function WordBytes(x: Word): (r: seq<byte>)
    ensures |r| == 4
  {
    [((x >> 24) & 0xff) as byte, ((x >> 16) & 0xff) as byte, ((x >> 8) & 0xff) as byte, (x & 0xff) as byte]
  }

  /** The words of a hash value as bytes, each word big-endian. */
  function WordsBytes(h: seq<Word>): (r: seq<byte>)
    ensures |r| == 4 * |h|
  {
    if h == [] then [] else WordBytes(h[0]) + WordsBytes(h[1..])
  }

  /** The SHA-256 digest of `m`: the final hash value, word by word. */
  function Digest(m: seq<byte>): (d: seq<byte>)
    ensures |d| == 32
  {
    WordsBytes(HashBlocks(InitialHash, m + Padding(m)))
  }
}
