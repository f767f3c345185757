/** MD5 as RFC 1321 defines it: padding in sections 3.1 and 3.2, the four rounds in 3.4. */
module Rfc1321 {
  import opened Common
  import opened HashCore

  type Word = bv32

  datatype Regs = Regs(a: Word, b: Word, c: Word, d: Word)

  function F(x: Word, y: Word, z: Word): Word { (x & y) | (!x & z) }
  function G(x: Word, y: Word, z: Word): Word { (x & z) | (y & !z) }
  function H(x: Word, y: Word, z: Word): Word { x ^ y ^ z }
  function I(x: Word, y: Word, z: Word): Word { y ^ (x | !z) }

  // Section 3.4: the integer part of 4294967296 * abs(sin(i + 1)).
  function T(i: nat): Word
    requires i < 64
  {
    if i < 32 then
      if i < 16 then T0(i) else T1(i)
    else
      if i < 48 then T2(i) else T3(i)
  }

  function T0(i: nat): Word {
    match i
    case 0 => 0xD76AA478 case 1 => 0xE8C7B756 case 2 => 0x242070DB case 3 => 0xC1BDCEEE
    case 4 => 0xF57C0FAF case 5 => 0x4787C62A case 6 => 0xA8304613 case 7 => 0xFD469501
    case 8 => 0x698098D8 case 9 => 0x8B44F7AF case 10 => 0xFFFF5BB1 case 11 => 0x895CD7BE
    case 12 => 0x6B901122 case 13 => 0xFD987193 case 14 => 0xA679438E case _ => 0x49B40821
  }

  function T1(i: nat): Word {
    match i
    case 16 => 0xF61E2562 case 17 => 0xC040B340 case 18 => 0x265E5A51 case 19 => 0xE9B6C7AA
    case 20 => 0xD62F105D case 21 => 0x02441453 case 22 => 0xD8A1E681 case 23 => 0xE7D3FBC8
    case 24 => 0x21E1CDE6 case 25 => 0xC33707D6 case 26 => 0xF4D50D87 case 27 => 0x455A14ED
    case 28 => 0xA9E3E905 case 29 => 0xFCEFA3F8 case 30 => 0x676F02D9 case _ => 0x8D2A4C8A
  }

  function T2(i: nat): Word {
    match i
    case 32 => 0xFFFA3942 case 33 => 0x8771F681 case 34 => 0x6D9D6122 case 35 => 0xFDE5380C
    case 36 => 0xA4BEEA44 case 37 => 0x4BDECFA9 case 38 => 0xF6BB4B60 case 39 => 0xBEBFBC70
    case 40 => 0x289B7EC6 case 41 => 0xEAA127FA case 42 => 0xD4EF3085 case 43 => 0x04881D05
    case 44 => 0xD9D4D039 case 45 => 0xE6DB99E5 case 46 => 0x1FA27CF8 case _ => 0xC4AC5665
  }

  function T3(i: nat): Word {
    match i
    case 48 => 0xF4292244 case 49 => 0x432AFF97 case 50 => 0xAB9423A7 case 51 => 0xFC93A039
    case 52 => 0x655B59C3 case 53 => 0x8F0CCC92 case 54 => 0xFFEFF47D case 55 => 0x85845DD1
    case 56 => 0x6FA87E4F case 57 => 0xFE2CE6E0 case 58 => 0xA3014314 case 59 => 0x4E0811A1
    case 60 => 0xF7537E82 case 61 => 0xBD3AF235 case 62 => 0x2AD7D2BB case _ => 0xEB86D391
  }

  // The shift amounts of the four rounds.
  function Shift(i: nat): (s: bv32)
    requires i < 64
    ensures 0 < s < 32
  {
    var j := i % 4;
    if i < 16 then if j == 0 then 7 else if j == 1 then 12 else if j == 2 then 17 else 22
    else if i < 32 then if j == 0 then 5 else if j == 1 then 9 else if j == 2 then 14 else 20
    else if i < 48 then if j == 0 then 4 else if j == 1 then 11 else if j == 2 then 16 else 23
    else if j == 0 then 6 else if j == 1 then 10 else if j == 2 then 15 else 21
  }

  // The message word that operation i uses.
  function WordIndex(i: nat): (k: nat)
    requires i < 64
    ensures k < 16
  {
    if i < 16 then i
    else if i < 32 then (5 * i + 1) % 16
    else if i < 48 then (3 * i + 5) % 16
    else 7 * i % 16
  }

  function Mix(i: nat, b: Word, c: Word, d: Word): Word {
    if i < 16 then F(b, c, d) else if i < 32 then G(b, c, d) else if i < 48 then H(b, c, d) else I(b, c, d)
  }

  // a = b + ((a + mix + X[k] + T[i]) <<< s), for the value of the register a alone.
  function Operation(i: nat, x: seq<Word>, a: Word, b: Word, c: Word, d: Word): Word
    requires i < 64 && |x| == 16
  {
    Add(b, Rotl(Add(Add(Add(a, Mix(i, b, c, d)), x[WordIndex(i)]), T(i)), Shift(i)))
  }

  // One operation; the next one writes register d, so the roles move round.
  function Step(i: nat, x: seq<Word>, r: Regs): Regs
    requires i < 64 && |x| == 16
  {
    Regs(r.d, Operation(i, x, r.a, r.b, r.c, r.d), r.b, r.c)
  }

  // The registers after the first n operations.
  function Steps(n: nat, x: seq<Word>, r: Regs): Regs
    requires n <= 64 && |x| == 16
  {
    if n == 0 then r else Step(n - 1, x, Steps(n - 1, x, r))
  }

  // One block of 16 words; the chaining value is the four registers.
  function CompressWords(h: seq<Word>, x: seq<Word>): (h': seq<Word>)
    requires |h| == 4 && |x| == 16
    ensures |h'| == 4
  {
    var r := Steps(64, x, Regs(h[0], h[1], h[2], h[3]));
    [Add(h[0], r.a), Add(h[1], r.b), Add(h[2], r.c), Add(h[3], r.d)]
  }

  function Compress(h: seq<Word>, block: Bytes): seq<Word> {
    if |h| == 4 && |block| == 64 then CompressWords(h, WordsLE(block)) else h
  }

  const INIT: seq<Word> := [0x67452301, 0xEFCDAB89, 0x98BADCFE, 0x10325476]

  // Section 3.2: the length in bits modulo 2^64, low-order word first.
  function LengthField(n: nat): (f: Bytes)
    ensures |f| == 8
  {
    BytesLE(ToWord(8 * n % TWO32)) + BytesLE(ToWord(8 * n / TWO32 % TWO32))
  }

  // Two words of the number of bits modulo 2^64, the low one first.
  lemma LengthIsBits(n: nat, lo: nat, hi: nat)
    requires lo < TWO32 && hi < TWO32 && TWO32 * hi + lo == 8 * n % TWO64
    ensures WordLE(LengthField(n), 0) == ToWord(lo) && WordLE(LengthField(n), 1) == ToWord(hi)
  {
    HalvesOfLong(8 * n, lo, hi);
    PackBytes(ToWord(lo));
    PackBytes(ToWord(hi));
    hide Pack, Byte0, Byte1, Byte2, Byte3;
  }
}
