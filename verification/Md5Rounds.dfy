/** The 64 unrolled steps of MD5, as both implementations write them: the same calls with the same
    constants, each with its own step macro. */
module Md5Rounds {
  import opened HashCore
  import opened Rfc1321

  // ---------- The boolean functions of hash_md5_sha.c ----------

  function FF(b: bv32, c: bv32, d: bv32): bv32 { d ^ (b & (c ^ d)) }
  function FG(b: bv32, c: bv32, d: bv32): bv32 { FF(d, b, c) }
  function FH(b: bv32, c: bv32, d: bv32): bv32 { b ^ c ^ d }
  function FI(b: bv32, c: bv32, d: bv32): bv32 { c ^ (b | !d) }

  lemma SelectBits(b: bv32, c: bv32, d: bv32)
    ensures d ^ (b & (c ^ d)) == (b & c) | (!b & d)
  {
  }

  lemma SelectBitsLast(b: bv32, c: bv32, d: bv32)
    ensures c ^ (d & (b ^ c)) == (b & d) | (c & !d)
  {
  }

  lemma FFIsF(b: bv32, c: bv32, d: bv32)
    ensures FF(b, c, d) == F(b, c, d)
  {
    SelectBits(b, c, d);
  }

  lemma FGIsG(b: bv32, c: bv32, d: bv32)
    ensures FG(b, c, d) == G(b, c, d)
  {
    SelectBitsLast(b, c, d);
  }

  lemma FHIsH(b: bv32, c: bv32, d: bv32)
    ensures FH(b, c, d) == H(b, c, d)
  {
  }

  lemma FIIsI(b: bv32, c: bv32, d: bv32)
    ensures FI(b, c, d) == I(b, c, d)
  {
  }

  function MixFF(round: nat, b: bv32, c: bv32, d: bv32): bv32 {
    match round case 0 => FF(b, c, d) case 1 => FG(b, c, d) case 2 => FH(b, c, d) case _ => FI(b, c, d)
  }

  lemma MixFFIsMix(i: nat, b: bv32, c: bv32, d: bv32)
    requires i < 64
    ensures MixFF(i / 16, b, c, d) == Mix(i, b, c, d)
  {
    hide FF, FG, FH, FI, F, G, H, I;
    FFIsF(b, c, d);
    FGIsG(b, c, d);
    FHIsH(b, c, d);
    FIIsI(b, c, d);
  }

  // ---------- The boolean functions of md5_share_locl.h ----------

  function F2(b: bv32, c: bv32, d: bv32): bv32 { ((c ^ d) & b) ^ d }
  function G2(b: bv32, c: bv32, d: bv32): bv32 { ((b ^ c) & d) ^ c }
  function H2(b: bv32, c: bv32, d: bv32): bv32 { b ^ c ^ d }
  function I2(b: bv32, c: bv32, d: bv32): bv32 { (!d | b) ^ c }

  function Mix2(round: nat, b: bv32, c: bv32, d: bv32): bv32 {
    match round case 0 => F2(b, c, d) case 1 => G2(b, c, d) case 2 => H2(b, c, d) case _ => I2(b, c, d)
  }

  lemma SelectFirst(b: bv32, c: bv32, d: bv32)
    ensures ((c ^ d) & b) ^ d == (b & c) | (!b & d)
  {
  }

  lemma SelectSecond(b: bv32, c: bv32, d: bv32)
    ensures ((b ^ c) & d) ^ c == (b & d) | (c & !d)
  {
  }

  lemma OrSwapped(b: bv32, c: bv32, d: bv32)
    ensures (!d | b) ^ c == c ^ (b | !d)
  {
  }

  lemma F2IsF(b: bv32, c: bv32, d: bv32)
    ensures F2(b, c, d) == F(b, c, d)
  {
    SelectFirst(b, c, d);
  }

  lemma G2IsG(b: bv32, c: bv32, d: bv32)
    ensures G2(b, c, d) == G(b, c, d)
  {
    SelectSecond(b, c, d);
  }

  lemma H2IsH(b: bv32, c: bv32, d: bv32)
    ensures H2(b, c, d) == H(b, c, d)
  {
  }

  lemma I2IsI(b: bv32, c: bv32, d: bv32)
    ensures I2(b, c, d) == I(b, c, d)
  {
    OrSwapped(b, c, d);
  }

  lemma Mix2IsMix(i: nat, b: bv32, c: bv32, d: bv32)
    requires i < 64
    ensures Mix2(i / 16, b, c, d) == Mix(i, b, c, d)
  {
    hide F2, G2, H2, I2, F, G, H, I;
    F2IsF(b, c, d);
    G2IsG(b, c, d);
    H2IsH(b, c, d);
    I2IsI(b, c, d);
  }

  // Which of the two implementations writes the step.
  datatype Macro = Op | R

  // OP: a += mix + k + t; a = rotl32(a, s); a += b. R0 to R3 add k + t + mix.
  function Call(m: Macro, round: nat, a: bv32, b: bv32, c: bv32, d: bv32, k: bv32, s: bv32, t: bv32): bv32
    requires 0 < s < 32
  {
    var sum := match m case Op => Add(Add(MixFF(round, b, c, d), k), t) case R => Add(Add(k, t), Mix2(round, b, c, d));
    Add(Rotl(Add(a, sum), s), b)
  }

  lemma CallIsOperation(m: Macro, i: nat, x: seq<bv32>, a: bv32, b: bv32, c: bv32, d: bv32)
    requires i < 64 && |x| == 16
    ensures Call(m, i / 16, a, b, c, d, x[WordIndex(i)], Shift(i), T(i)) == Operation(i, x, a, b, c, d)
  {
    hide Add, Rotl, Mix, MixFF, Mix2, Shift, T, WordIndex;
    MixFFIsMix(i, b, c, d);
    Mix2IsMix(i, b, c, d);
    var mixed, k, t := Mix(i, b, c, d), x[WordIndex(i)], T(i);
    AddAssociates(a, Add(mixed, k), t);
    AddAssociates(a, mixed, k);
    AddCommutes(Add(k, t), mixed);
    AddAssociates(a, mixed, Add(k, t));
    AddAssociates(Add(a, mixed), k, t);
    AddCommutes(b, Rotl(Add(Add(Add(a, mixed), k), t), Shift(i)));
  }

  // Macro call i writes one register.
  lemma CallIsStep(m: Macro, i: nat, x: seq<bv32>, r: Regs, a: bv32, b: bv32, c: bv32, d: bv32)
    requires i < 64 && |x| == 16 && Steps(i, x, r) == Regs(a, b, c, d)
    ensures Steps(i + 1, x, r) == Regs(d, Call(m, i / 16, a, b, c, d, x[WordIndex(i)], Shift(i), T(i)), b, c)
  {
    hide Call, Operation, Shift, T, WordIndex;
    CallIsOperation(m, i, x, a, b, c, d);
    StepUnfold(i, x, r);
  }

  // Calls i to i + 3, with the registers trading places.
  method Four(m: Macro, ghost i: nat, ghost x: seq<bv32>, ghost r: Regs, round: nat,
              a0: bv32, b0: bv32, c0: bv32, d0: bv32,
              k0: bv32, k1: bv32, k2: bv32, k3: bv32, s0: bv32, s1: bv32, s2: bv32, s3: bv32,
              t0: bv32, t1: bv32, t2: bv32, t3: bv32)
      returns (a: bv32, b: bv32, c: bv32, d: bv32)
    requires |x| == 16 && i % 4 == 0 && i < 64 && round == i / 16
    requires Regs(a0, b0, c0, d0) == Steps(i, x, r)
    requires k0 == x[WordIndex(i)] && k1 == x[WordIndex(i + 1)]
    requires k2 == x[WordIndex(i + 2)] && k3 == x[WordIndex(i + 3)]
    requires s0 == Shift(i) && s1 == Shift(i + 1) && s2 == Shift(i + 2) && s3 == Shift(i + 3)
    requires t0 == T(i) && t1 == T(i + 1) && t2 == T(i + 2) && t3 == T(i + 3)
    ensures Regs(a, b, c, d) == Steps(i + 4, x, r)
  {
    hide Call, Shift, T, WordIndex, Steps;
    a, b, c, d := a0, b0, c0, d0;
    assert (i + 1) / 16 == round && (i + 2) / 16 == round && (i + 3) / 16 == round;
    CallIsStep(m, i, x, r, a, b, c, d);
    a := Call(m, round, a, b, c, d, k0, s0, t0);
    CallIsStep(m, i + 1, x, r, d, a, b, c);
    d := Call(m, round, d, a, b, c, k1, s1, t1);
    CallIsStep(m, i + 2, x, r, c, d, a, b);
    c := Call(m, round, c, d, a, b, k2, s2, t2);
    CallIsStep(m, i + 3, x, r, b, c, d, a);
    b := Call(m, round, b, c, d, a, k3, s3, t3);
  }

  lemma StepUnfold(i: nat, x: seq<bv32>, r: Regs)
    requires i < 64 && |x| == 16
    ensures var p := Steps(i, x, r); Steps(i + 1, x, r) == Regs(p.d, Operation(i, x, p.a, p.b, p.c, p.d), p.b, p.c)
  {
  }

  method Round0First(m: Macro, x: seq<bv32>, ghost r: Regs, a0: bv32, b0: bv32, c0: bv32, d0: bv32)
      returns (a: bv32, b: bv32, c: bv32, d: bv32)
    requires |x| == 16 && Regs(a0, b0, c0, d0) == Steps(0, x, r)
    ensures Regs(a, b, c, d) == Steps(8, x, r)
  {
    hide Steps;
    a, b, c, d := Four(m, 0, x, r, 0, a0, b0, c0, d0, x[0], x[1], x[2], x[3], 7, 12, 17, 22,
                       0xD76AA478, 0xE8C7B756, 0x242070DB, 0xC1BDCEEE);
    a, b, c, d := Four(m, 4, x, r, 0, a, b, c, d, x[4], x[5], x[6], x[7], 7, 12, 17, 22,
                       0xF57C0FAF, 0x4787C62A, 0xA8304613, 0xFD469501);
  }

  lemma Numbers8To15()
    ensures WordIndex(8) == 8 && WordIndex(9) == 9 && WordIndex(10) == 10 && WordIndex(11) == 11
    ensures WordIndex(12) == 12 && WordIndex(13) == 13 && WordIndex(14) == 14 && WordIndex(15) == 15
    ensures Shift(8) == 7 && Shift(9) == 12 && Shift(10) == 17 && Shift(11) == 22
    ensures Shift(12) == 7 && Shift(13) == 12 && Shift(14) == 17 && Shift(15) == 22
    ensures T(8) == 0x698098D8 && T(9) == 0x8B44F7AF && T(10) == 0xFFFF5BB1 && T(11) == 0x895CD7BE
    ensures T(12) == 0x6B901122 && T(13) == 0xFD987193 && T(14) == 0xA679438E && T(15) == 0x49B40821
  {
  }

  method Round0Second(m: Macro, x: seq<bv32>, ghost r: Regs, a0: bv32, b0: bv32, c0: bv32, d0: bv32)
      returns (a: bv32, b: bv32, c: bv32, d: bv32)
    requires |x| == 16 && Regs(a0, b0, c0, d0) == Steps(8, x, r)
    ensures Regs(a, b, c, d) == Steps(16, x, r)
  {
    hide Steps, WordIndex, Shift, T;
    Numbers8To15();
    a, b, c, d := Four(m, 8, x, r, 0, a0, b0, c0, d0, x[8], x[9], x[10], x[11], 7, 12, 17, 22,
                       0x698098D8, 0x8B44F7AF, 0xFFFF5BB1, 0x895CD7BE);
    a, b, c, d := Four(m, 12, x, r, 0, a, b, c, d, x[12], x[13], x[14], x[15], 7, 12, 17, 22,
                       0x6B901122, 0xFD987193, 0xA679438E, 0x49B40821);
  }

  method Round1First(m: Macro, x: seq<bv32>, ghost r: Regs, a0: bv32, b0: bv32, c0: bv32, d0: bv32)
      returns (a: bv32, b: bv32, c: bv32, d: bv32)
    requires |x| == 16 && Regs(a0, b0, c0, d0) == Steps(16, x, r)
    ensures Regs(a, b, c, d) == Steps(24, x, r)
  {
    hide Steps;
    a, b, c, d := Four(m, 16, x, r, 1, a0, b0, c0, d0, x[1], x[6], x[11], x[0], 5, 9, 14, 20,
                       0xF61E2562, 0xC040B340, 0x265E5A51, 0xE9B6C7AA);
    a, b, c, d := Four(m, 20, x, r, 1, a, b, c, d, x[5], x[10], x[15], x[4], 5, 9, 14, 20,
                       0xD62F105D, 0x02441453, 0xD8A1E681, 0xE7D3FBC8);
  }

  lemma Numbers24To31()
    ensures WordIndex(24) == 9 && WordIndex(25) == 14 && WordIndex(26) == 3 && WordIndex(27) == 8
    ensures WordIndex(28) == 13 && WordIndex(29) == 2 && WordIndex(30) == 7 && WordIndex(31) == 12
    ensures Shift(24) == 5 && Shift(25) == 9 && Shift(26) == 14 && Shift(27) == 20
    ensures Shift(28) == 5 && Shift(29) == 9 && Shift(30) == 14 && Shift(31) == 20
    ensures T(24) == 0x21E1CDE6 && T(25) == 0xC33707D6 && T(26) == 0xF4D50D87 && T(27) == 0x455A14ED
    ensures T(28) == 0xA9E3E905 && T(29) == 0xFCEFA3F8 && T(30) == 0x676F02D9 && T(31) == 0x8D2A4C8A
  {
  }

  method Round1Second(m: Macro, x: seq<bv32>, ghost r: Regs, a0: bv32, b0: bv32, c0: bv32, d0: bv32)
      returns (a: bv32, b: bv32, c: bv32, d: bv32)
    requires |x| == 16 && Regs(a0, b0, c0, d0) == Steps(24, x, r)
    ensures Regs(a, b, c, d) == Steps(32, x, r)
  {
    hide Steps, WordIndex, Shift, T;
    Numbers24To31();
    a, b, c, d := Four(m, 24, x, r, 1, a0, b0, c0, d0, x[9], x[14], x[3], x[8], 5, 9, 14, 20,
                       0x21E1CDE6, 0xC33707D6, 0xF4D50D87, 0x455A14ED);
    a, b, c, d := Four(m, 28, x, r, 1, a, b, c, d, x[13], x[2], x[7], x[12], 5, 9, 14, 20,
                       0xA9E3E905, 0xFCEFA3F8, 0x676F02D9, 0x8D2A4C8A);
  }

  method Round2First(m: Macro, x: seq<bv32>, ghost r: Regs, a0: bv32, b0: bv32, c0: bv32, d0: bv32)
      returns (a: bv32, b: bv32, c: bv32, d: bv32)
    requires |x| == 16 && Regs(a0, b0, c0, d0) == Steps(32, x, r)
    ensures Regs(a, b, c, d) == Steps(40, x, r)
  {
    hide Steps;
    a, b, c, d := Four(m, 32, x, r, 2, a0, b0, c0, d0, x[5], x[8], x[11], x[14], 4, 11, 16, 23,
                       0xFFFA3942, 0x8771F681, 0x6D9D6122, 0xFDE5380C);
    a, b, c, d := Four(m, 36, x, r, 2, a, b, c, d, x[1], x[4], x[7], x[10], 4, 11, 16, 23,
                       0xA4BEEA44, 0x4BDECFA9, 0xF6BB4B60, 0xBEBFBC70);
  }

  method Round2Second(m: Macro, x: seq<bv32>, ghost r: Regs, a0: bv32, b0: bv32, c0: bv32, d0: bv32)
      returns (a: bv32, b: bv32, c: bv32, d: bv32)
    requires |x| == 16 && Regs(a0, b0, c0, d0) == Steps(40, x, r)
    ensures Regs(a, b, c, d) == Steps(48, x, r)
  {
    hide Steps;
    a, b, c, d := Four(m, 40, x, r, 2, a0, b0, c0, d0, x[13], x[0], x[3], x[6], 4, 11, 16, 23,
                       0x289B7EC6, 0xEAA127FA, 0xD4EF3085, 0x04881D05);
    a, b, c, d := Four(m, 44, x, r, 2, a, b, c, d, x[9], x[12], x[15], x[2], 4, 11, 16, 23,
                       0xD9D4D039, 0xE6DB99E5, 0x1FA27CF8, 0xC4AC5665);
  }

  method Round3First(m: Macro, x: seq<bv32>, ghost r: Regs, a0: bv32, b0: bv32, c0: bv32, d0: bv32)
      returns (a: bv32, b: bv32, c: bv32, d: bv32)
    requires |x| == 16 && Regs(a0, b0, c0, d0) == Steps(48, x, r)
    ensures Regs(a, b, c, d) == Steps(56, x, r)
  {
    hide Steps;
    a, b, c, d := Four(m, 48, x, r, 3, a0, b0, c0, d0, x[0], x[7], x[14], x[5], 6, 10, 15, 21,
                       0xF4292244, 0x432AFF97, 0xAB9423A7, 0xFC93A039);
    a, b, c, d := Four(m, 52, x, r, 3, a, b, c, d, x[12], x[3], x[10], x[1], 6, 10, 15, 21,
                       0x655B59C3, 0x8F0CCC92, 0xFFEFF47D, 0x85845DD1);
  }

  method Round3Second(m: Macro, x: seq<bv32>, ghost r: Regs, a0: bv32, b0: bv32, c0: bv32, d0: bv32)
      returns (a: bv32, b: bv32, c: bv32, d: bv32)
    requires |x| == 16 && Regs(a0, b0, c0, d0) == Steps(56, x, r)
    ensures Regs(a, b, c, d) == Steps(64, x, r)
  {
    hide Steps;
    a, b, c, d := Four(m, 56, x, r, 3, a0, b0, c0, d0, x[8], x[15], x[6], x[13], 6, 10, 15, 21,
                       0x6FA87E4F, 0xFE2CE6E0, 0xA3014314, 0x4E0811A1);
    a, b, c, d := Four(m, 60, x, r, 3, a, b, c, d, x[4], x[11], x[2], x[9], 6, 10, 15, 21,
                       0xF7537E82, 0xBD3AF235, 0x2AD7D2BB, 0xEB86D391);
  }

  // All 64 calls, and the sums.
  method Unrolled(m: Macro, h: seq<bv32>, x: seq<bv32>) returns (h': seq<bv32>)
    requires |h| == 4 && |x| == 16
    ensures h' == CompressWords(h, x)
  {
    hide Add, Step;
    ghost var r := Regs(h[0], h[1], h[2], h[3]);
    var a, b, c, d := h[0], h[1], h[2], h[3];
    a, b, c, d := Round0First(m, x, r, a, b, c, d);
    a, b, c, d := Round0Second(m, x, r, a, b, c, d);
    a, b, c, d := Round1First(m, x, r, a, b, c, d);
    a, b, c, d := Round1Second(m, x, r, a, b, c, d);
    a, b, c, d := Round2First(m, x, r, a, b, c, d);
    a, b, c, d := Round2Second(m, x, r, a, b, c, d);
    a, b, c, d := Round3First(m, x, r, a, b, c, d);
    a, b, c, d := Round3Second(m, x, r, a, b, c, d);
    h' := [Add(h[0], a), Add(h[1], b), Add(h[2], c), Add(h[3], d)];
  }
}
