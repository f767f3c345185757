/** SHA-1, SHA-256 and SHA-512 as FIPS 180-4 defines them. */
module Fips180 {
  import opened Common
  import opened HashCore

  type Word = bv32
  type Long = bv64

  // ---------- SHA-1, section 6.1.2 ----------

  datatype Regs5 = Regs5(a: Word, b: Word, c: Word, d: Word, e: Word)

  const SHA1_INIT: seq<Word> := [0x67452301, 0xEFCDAB89, 0x98BADCFE, 0x10325476, 0xC3D2E1F0]

  function Ch(x: Word, y: Word, z: Word): Word { (x & y) ^ (!x & z) }
  function Parity(x: Word, y: Word, z: Word): Word { x ^ y ^ z }
  function Maj(x: Word, y: Word, z: Word): Word { (x & y) ^ (x & z) ^ (y & z) }

  function Sha1Mix(w3: Word, w8: Word, w14: Word, w16: Word): Word {
    Rotl(w3 ^ w8 ^ w14 ^ w16, 1)
  }

  // Word t of the 80-word message schedule.
  function Sha1W(m: seq<Word>, t: nat): Word
    requires |m| == 16
  {
    if t < 16 then m[t]
    else Sha1Mix(Sha1W(m, t - 3), Sha1W(m, t - 8), Sha1W(m, t - 14), Sha1W(m, t - 16))
  }

  function Sha1F(t: nat, b: Word, c: Word, d: Word): Word {
    if t < 20 then Ch(b, c, d) else if t < 40 then Parity(b, c, d)
    else if t < 60 then Maj(b, c, d) else Parity(b, c, d)
  }

  function Sha1K(t: nat): Word {
    if t < 20 then 0x5A827999 else if t < 40 then 0x6ED9EBA1 else if t < 60 then 0x8F1BBCDC else 0xCA62C1D6
  }

  function Sha1Round(t: nat, w: Word, r: Regs5): Regs5 {
    Regs5(Add(Add(Add(Add(Rotl(r.a, 5), Sha1F(t, r.b, r.c, r.d)), r.e), Sha1K(t)), w), r.a, Rotl(r.b, 30), r.c, r.d)
  }

  function Sha1Rounds(n: nat, m: seq<Word>, r: Regs5): Regs5
    requires |m| == 16
  {
    if n == 0 then r else Sha1Round(n - 1, Sha1W(m, n - 1), Sha1Rounds(n - 1, m, r))
  }

  function Sha1Compress(h: seq<Word>, block: Bytes): (h': seq<Word>)
    ensures |h'| == |h|
  {
    if |h| != 5 || |block| != 64 then h
    else
      var r := Sha1Rounds(80, WordsBE(block), Regs5(h[0], h[1], h[2], h[3], h[4]));
      [Add(h[0], r.a), Add(h[1], r.b), Add(h[2], r.c), Add(h[3], r.d), Add(h[4], r.e)]
  }

  // The length in bits as a big-endian 64-bit number (section 5.1.1).
  function LengthField64(n: nat): (f: Bytes)
    ensures |f| == 8
  {
    BytesBE(ToWord(8 * n / TWO32 % TWO32)) + BytesBE(ToWord(8 * n % TWO32))
  }

  // ---------- SHA-256, section 6.2.2 ----------

  datatype Regs8<W> = Regs8(a: W, b: W, c: W, d: W, e: W, f: W, g: W, h: W)

  const SHA256_INIT: seq<Word> := [
    0x6A09E667, 0xBB67AE85, 0x3C6EF372, 0xA54FF53A, 0x510E527F, 0x9B05688C, 0x1F83D9AB, 0x5BE0CD19]

  function K256Row(row: nat): (k: seq<Word>)
    ensures |k| == 8
  {
    match row
    case 0 => [0x428A2F98, 0x71374491, 0xB5C0FBCF, 0xE9B5DBA5, 0x3956C25B, 0x59F111F1, 0x923F82A4, 0xAB1C5ED5]
    case 1 => [0xD807AA98, 0x12835B01, 0x243185BE, 0x550C7DC3, 0x72BE5D74, 0x80DEB1FE, 0x9BDC06A7, 0xC19BF174]
    case 2 => [0xE49B69C1, 0xEFBE4786, 0x0FC19DC6, 0x240CA1CC, 0x2DE92C6F, 0x4A7484AA, 0x5CB0A9DC, 0x76F988DA]
    case 3 => [0x983E5152, 0xA831C66D, 0xB00327C8, 0xBF597FC7, 0xC6E00BF3, 0xD5A79147, 0x06CA6351, 0x14292967]
    case 4 => [0x27B70A85, 0x2E1B2138, 0x4D2C6DFC, 0x53380D13, 0x650A7354, 0x766A0ABB, 0x81C2C92E, 0x92722C85]
    case 5 => [0xA2BFE8A1, 0xA81A664B, 0xC24B8B70, 0xC76C51A3, 0xD192E819, 0xD6990624, 0xF40E3585, 0x106AA070]
    case 6 => [0x19A4C116, 0x1E376C08, 0x2748774C, 0x34B0BCB5, 0x391C0CB3, 0x4ED8AA4A, 0x5B9CCA4F, 0x682E6FF3]
    case _ => [0x748F82EE, 0x78A5636F, 0x84C87814, 0x8CC70208, 0x90BEFFFA, 0xA4506CEB, 0xBEF9A3F7, 0xC67178F2]
  }

  function K256(t: nat): Word
    requires t < 64
  {
    K256Row(t / 8)[t % 8]
  }

  function BigSigma0(x: Word): Word { Rotr(x, 2) ^ Rotr(x, 13) ^ Rotr(x, 22) }
  function BigSigma1(x: Word): Word { Rotr(x, 6) ^ Rotr(x, 11) ^ Rotr(x, 25) }
  function SmallSigma0(x: Word): Word { Rotr(x, 7) ^ Rotr(x, 18) ^ (x >> 3) }
  function SmallSigma1(x: Word): Word { Rotr(x, 17) ^ Rotr(x, 19) ^ (x >> 10) }

  function Sha256Mix(w2: Word, w7: Word, w15: Word, w16: Word): Word {
    Add(Add(Add(SmallSigma1(w2), w7), SmallSigma0(w15)), w16)
  }

  function Sha256W(m: seq<Word>, t: nat): Word
    requires |m| == 16
  {
    if t < 16 then m[t]
    else Sha256Mix(Sha256W(m, t - 2), Sha256W(m, t - 7), Sha256W(m, t - 15), Sha256W(m, t - 16))
  }

  function Sha256Round(k: Word, w: Word, r: Regs8<Word>): Regs8<Word> {
    var t1 := Add(Add(Add(Add(r.h, BigSigma1(r.e)), Ch(r.e, r.f, r.g)), k), w);
    var t2 := Add(BigSigma0(r.a), Maj(r.a, r.b, r.c));
    Regs8(Add(t1, t2), r.a, r.b, r.c, Add(r.d, t1), r.e, r.f, r.g)
  }

  function Sha256Rounds(n: nat, m: seq<Word>, r: Regs8<Word>): Regs8<Word>
    requires |m| == 16 && n <= 64
  {
    if n == 0 then r else Sha256Round(K256(n - 1), Sha256W(m, n - 1), Sha256Rounds(n - 1, m, r))
  }

  // The registers added into the chaining value.
  function Feed(h: seq<Word>, r: Regs8<Word>): (h': seq<Word>)
    requires |h| == 8
    ensures |h'| == 8
  {
    [Add(h[0], r.a), Add(h[1], r.b), Add(h[2], r.c), Add(h[3], r.d),
     Add(h[4], r.e), Add(h[5], r.f), Add(h[6], r.g), Add(h[7], r.h)]
  }

  function Sha256Compress(h: seq<Word>, block: Bytes): (h': seq<Word>)
    ensures |h'| == |h|
  {
    if |h| != 8 || |block| != 64 then h
    else Feed(h, Sha256Rounds(64, WordsBE(block), Regs8(h[0], h[1], h[2], h[3], h[4], h[5], h[6], h[7])))
  }

  // ---------- SHA-512, section 6.4.2 ----------

  const SHA512_INIT: seq<Long> := [
    0x6A09E667F3BCC908, 0xBB67AE8584CAA73B, 0x3C6EF372FE94F82B, 0xA54FF53A5F1D36F1,
    0x510E527FADE682D1, 0x9B05688C2B3E6C1F, 0x1F83D9ABFB41BD6B, 0x5BE0CD19137E2179]

  function K512Row(row: nat): (k: seq<Long>)
    ensures |k| == 8
  {
    match row
    case 0 => [0x428A2F98D728AE22, 0x7137449123EF65CD, 0xB5C0FBCFEC4D3B2F, 0xE9B5DBA58189DBBC,
             0x3956C25BF348B538, 0x59F111F1B605D019, 0x923F82A4AF194F9B, 0xAB1C5ED5DA6D8118]
    case 1 => [0xD807AA98A3030242, 0x12835B0145706FBE, 0x243185BE4EE4B28C, 0x550C7DC3D5FFB4E2,
             0x72BE5D74F27B896F, 0x80DEB1FE3B1696B1, 0x9BDC06A725C71235, 0xC19BF174CF692694]
    case 2 => [0xE49B69C19EF14AD2, 0xEFBE4786384F25E3, 0x0FC19DC68B8CD5B5, 0x240CA1CC77AC9C65,
             0x2DE92C6F592B0275, 0x4A7484AA6EA6E483, 0x5CB0A9DCBD41FBD4, 0x76F988DA831153B5]
    case 3 => [0x983E5152EE66DFAB, 0xA831C66D2DB43210, 0xB00327C898FB213F, 0xBF597FC7BEEF0EE4,
             0xC6E00BF33DA88FC2, 0xD5A79147930AA725, 0x06CA6351E003826F, 0x142929670A0E6E70]
    case 4 => [0x27B70A8546D22FFC, 0x2E1B21385C26C926, 0x4D2C6DFC5AC42AED, 0x53380D139D95B3DF,
             0x650A73548BAF63DE, 0x766A0ABB3C77B2A8, 0x81C2C92E47EDAEE6, 0x92722C851482353B]
    case 5 => [0xA2BFE8A14CF10364, 0xA81A664BBC423001, 0xC24B8B70D0F89791, 0xC76C51A30654BE30,
             0xD192E819D6EF5218, 0xD69906245565A910, 0xF40E35855771202A, 0x106AA07032BBD1B8]
    case 6 => [0x19A4C116B8D2D0C8, 0x1E376C085141AB53, 0x2748774CDF8EEB99, 0x34B0BCB5E19B48A8,
             0x391C0CB3C5C95A63, 0x4ED8AA4AE3418ACB, 0x5B9CCA4F7763E373, 0x682E6FF3D6B2B8A3]
    case 7 => [0x748F82EE5DEFB2FC, 0x78A5636F43172F60, 0x84C87814A1F0AB72, 0x8CC702081A6439EC,
             0x90BEFFFA23631E28, 0xA4506CEBDE82BDE9, 0xBEF9A3F7B2C67915, 0xC67178F2E372532B]
    case 8 => [0xCA273ECEEA26619C, 0xD186B8C721C0C207, 0xEADA7DD6CDE0EB1E, 0xF57D4F7FEE6ED178,
             0x06F067AA72176FBA, 0x0A637DC5A2C898A6, 0x113F9804BEF90DAE, 0x1B710B35131C471B]
    case _ => [0x28DB77F523047D84, 0x32CAAB7B40C72493, 0x3C9EBE0A15C9BEBC, 0x431D67C49C100D4C,
             0x4CC5D4BECB3E42B6, 0x597F299CFC657E2A, 0x5FCB6FAB3AD6FAEC, 0x6C44198C4A475817]
  }

  function K512(t: nat): Long
    requires t < 80
  {
    K512Row(t / 8)[t % 8]
  }

  // Addition modulo 2^64.
  function LAdd(x: Long, y: Long): Long {
    x + y
  }

  function Rotr64(x: Long, n: Long): Long
    requires 0 < n < 64
  {
    (x >> n) | (x << (64 - n))
  }

  function LCh(x: Long, y: Long, z: Long): Long { (x & y) ^ (!x & z) }
  function LMaj(x: Long, y: Long, z: Long): Long { (x & y) ^ (x & z) ^ (y & z) }
  function LBigSigma0(x: Long): Long { Rotr64(x, 28) ^ Rotr64(x, 34) ^ Rotr64(x, 39) }
  function LBigSigma1(x: Long): Long { Rotr64(x, 14) ^ Rotr64(x, 18) ^ Rotr64(x, 41) }
  function LSmallSigma0(x: Long): Long { Rotr64(x, 1) ^ Rotr64(x, 8) ^ (x >> 7) }
  function LSmallSigma1(x: Long): Long { Rotr64(x, 19) ^ Rotr64(x, 61) ^ (x >> 6) }

  function LongBE(b: Bytes, i: nat): Long
    requires 8 * i + 8 <= |b|
  {
    (WordBE(b, 2 * i) as bv64 << 32) | (WordBE(b, 2 * i + 1) as bv64)
  }

  function LongsBE(b: Bytes): (ws: seq<Long>)
    ensures |ws| == |b| / 8
  {
    seq(|b| / 8, i requires 0 <= i < |b| / 8 => LongBE(b, i))
  }

  function Sha512Mix(w2: Long, w7: Long, w15: Long, w16: Long): Long {
    LAdd(LAdd(LAdd(LSmallSigma1(w2), w7), LSmallSigma0(w15)), w16)
  }

  function Sha512W(m: seq<Long>, t: nat): Long
    requires |m| == 16
  {
    if t < 16 then m[t]
    else Sha512Mix(Sha512W(m, t - 2), Sha512W(m, t - 7), Sha512W(m, t - 15), Sha512W(m, t - 16))
  }

  function Sha512Round(k: Long, w: Long, r: Regs8<Long>): Regs8<Long> {
    var t1 := LAdd(LAdd(LAdd(LAdd(r.h, LBigSigma1(r.e)), LCh(r.e, r.f, r.g)), k), w);
    var t2 := LAdd(LBigSigma0(r.a), LMaj(r.a, r.b, r.c));
    Regs8(LAdd(t1, t2), r.a, r.b, r.c, LAdd(r.d, t1), r.e, r.f, r.g)
  }

  function Sha512Rounds(n: nat, m: seq<Long>, r: Regs8<Long>): Regs8<Long>
    requires |m| == 16 && n <= 80
  {
    if n == 0 then r else Sha512Round(K512(n - 1), Sha512W(m, n - 1), Sha512Rounds(n - 1, m, r))
  }

  // The registers added into the chaining value.
  function LFeed(h: seq<Long>, r: Regs8<Long>): (h': seq<Long>)
    requires |h| == 8
    ensures |h'| == 8
  {
    [LAdd(h[0], r.a), LAdd(h[1], r.b), LAdd(h[2], r.c), LAdd(h[3], r.d),
     LAdd(h[4], r.e), LAdd(h[5], r.f), LAdd(h[6], r.g), LAdd(h[7], r.h)]
  }

  function Sha512Compress(h: seq<Long>, block: Bytes): (h': seq<Long>)
    ensures |h'| == |h|
  {
    if |h| != 8 || |block| != 128 then h
    else LFeed(h, Sha512Rounds(80, LongsBE(block), Regs8(h[0], h[1], h[2], h[3], h[4], h[5], h[6], h[7])))
  }

  function ToLong(x: nat): Long
    requires x < TWO64
  {
    x as bv64
  }

  function LongBytes(x: Long): (b: Bytes)
    ensures |b| == 8
  {
    BytesBE((x >> 32) as bv32) + BytesBE((x & 0xFFFF_FFFF) as bv32)
  }

  // The length in bits as a big-endian 128-bit number (section 5.1.2).
  function LengthField128(n: nat): (f: Bytes)
    ensures |f| == 16
  {
    LongBytes(ToLong(8 * n / TWO64 % TWO64)) + LongBytes(ToLong(8 * n % TWO64))
  }

  // Two words of the number of bits modulo 2^64, the high one first.
  lemma LengthIsBits(n: nat, lo: nat, hi: nat)
    requires lo < TWO32 && hi < TWO32 && TWO32 * hi + lo == 8 * n % TWO64
    ensures WordBE(LengthField64(n), 0) == ToWord(hi) && WordBE(LengthField64(n), 1) == ToWord(lo)
  {
    HalvesOfLong(8 * n, lo, hi);
    PackBytes(ToWord(lo));
    PackBytes(ToWord(hi));
    hide Pack, Byte0, Byte1, Byte2, Byte3;
  }

  // Two words of the number of bits modulo 2^128, the high one first.
  lemma LongLengthIsBits(n: nat, lo: nat, hi: nat)
    requires lo < TWO64 && hi < TWO64 && TWO64 * hi + lo == 8 * n % (TWO64 * TWO64)
    ensures LongBE(LengthField128(n), 0) == ToLong(hi) && LongBE(LengthField128(n), 1) == ToLong(lo)
  {
    HalvesOfTwoLongs(8 * n, lo, hi);
    LongIsItsBytes(ToLong(lo));
    LongIsItsBytes(ToLong(hi));
    hide LongBytes, WordBE;
    LongAt(LongBytes(ToLong(hi)), LongBytes(ToLong(lo)));
  }

  lemma HalvesOfTwoLongs(x: nat, lo: nat, hi: nat)
    requires lo < TWO64 && hi < TWO64 && TWO64 * hi + lo == x % (TWO64 * TWO64)
    ensures x % TWO64 == lo && x / TWO64 % TWO64 == hi
  {
  }

  lemma LongIsItsBytes(x: Long)
    ensures LongBE(LongBytes(x), 0) == x
  {
    var hi, lo := (x >> 32) as bv32, (x & 0xFFFF_FFFF) as bv32;
    PackBytes(hi);
    PackBytes(lo);
    LongJoins(x);
    hide Pack, Byte0, Byte1, Byte2, Byte3;
  }

  lemma LongJoins(x: Long)
    ensures (((x >> 32) as bv32) as bv64 << 32) | (((x & 0xFFFF_FFFF) as bv32) as bv64) == x
  {
  }

  lemma LongAt(a: Bytes, b: Bytes)
    requires |a| == |b| == 8
    ensures LongBE(a + b, 0) == LongBE(a, 0) && LongBE(a + b, 1) == LongBE(b, 0)
  {
    hide Pack;
  }
}
