/** Where the constants of SHA-256 and SHA-512 come from: fractions of the square and cube roots of
    the first primes (sections 4.2.3, 5.3.3 and 5.3.5 of FIPS 180-4). */
module PrimeRoots {
  import opened Fips180

  // ---------- The first 80 primes ----------

  predicate IsPrime(n: nat) {
    n >= 2 && forall d | 2 <= d < n :: n % d != 0
  }

  function Prime(t: nat): nat {
    match t
    case 0 => 2 case 1 => 3 case 2 => 5 case 3 => 7 case 4 => 11 case 5 => 13 case 6 => 17
    case 7 => 19 case 8 => 23 case 9 => 29 case 10 => 31 case 11 => 37 case 12 => 41 case 13 => 43
    case 14 => 47 case 15 => 53 case 16 => 59 case 17 => 61 case 18 => 67 case 19 => 71 case 20 => 73
    case 21 => 79 case 22 => 83 case 23 => 89 case 24 => 97 case 25 => 101 case 26 => 103 case 27 => 107
    case 28 => 109 case 29 => 113 case 30 => 127 case 31 => 131 case 32 => 137 case 33 => 139 case 34 => 149
    case 35 => 151 case 36 => 157 case 37 => 163 case 38 => 167 case 39 => 173 case 40 => 179 case 41 => 181
    case 42 => 191 case 43 => 193 case 44 => 197 case 45 => 199 case 46 => 211 case 47 => 223 case 48 => 227
    case 49 => 229 case 50 => 233 case 51 => 239 case 52 => 241 case 53 => 251 case 54 => 257 case 55 => 263
    case 56 => 269 case 57 => 271 case 58 => 277 case 59 => 281 case 60 => 283 case 61 => 293 case 62 => 307
    case 63 => 311 case 64 => 313 case 65 => 317 case 66 => 331 case 67 => 337 case 68 => 347 case 69 => 349
    case 70 => 353 case 71 => 359 case 72 => 367 case 73 => 373 case 74 => 379 case 75 => 383 case 76 => 389
    case 77 => 397 case 78 => 401 case _ => 409
  }

  predicate Passes(n: nat, q: nat)
    requires 0 < q
  {
    n % q != 0 || n == q
  }

  // No divisor among the primes below 20 but the number itself.
  predicate NoSmallDivisor(n: nat) {
    && Passes(n, 2) && Passes(n, 3) && Passes(n, 5) && Passes(n, 7)
    && Passes(n, 11) && Passes(n, 13) && Passes(n, 17) && Passes(n, 19)
  }

  lemma NotNegative(q: nat, k: nat)
    ensures 0 <= q * k
  {
  }

  lemma AtLeastOnce(q: nat, k: nat)
    requires k >= 1
    ensures q * k >= q
  {
    assert q * k == q + q * (k - 1);
    NotNegative(q, k - 1);
  }

  lemma OnlyZero(q: nat, j: int, r: nat)
    requires r < q && r == q * j
    ensures r == 0
  {
    if j >= 1 {
      AtLeastOnce(q, j);
    } else if j <= -1 {
      assert q * j == -(q * -j);
      AtLeastOnce(q, -j);
    }
  }

  lemma MultipleOf(q: nat, k: nat)
    requires 0 < q
    ensures (q * k) % q == 0
  {
    var x, r := q * k / q, q * k % q;
    assert q * k == q * x + r;
    assert r == q * (k - x);
    OnlyZero(q, k - x, r);
  }

  lemma Multiple(q: nat, a: nat, b: nat)
    requires 0 < q && a % q == 0
    ensures (a * b) % q == 0
  {
    var c := a / q;
    assert a * b == q * (c * b);
    MultipleOf(q, c * b);
  }

  lemma SmallFactor(e: nat)
    requires 2 <= e <= 20
    ensures e % 2 == 0 || e % 3 == 0 || e == 5 || e == 7 || e == 11 || e == 13 || e == 17 || e == 19
  {
  }

  lemma NotDivided(n: nat, e: nat)
    requires 2 <= e <= 20 && e < n && NoSmallDivisor(n)
    ensures n % e != 0
  {
    if n % e == 0 {
      SmallFactor(e);
      assert n == e * (n / e);
      if e % 2 == 0 {
        Multiple(2, e, n / e);
      } else if e % 3 == 0 {
        Multiple(3, e, n / e);
      }
    }
  }

  lemma BothLarge(d: nat, e: nat)
    requires d > 20 && e > 20
    ensures d * e >= 441
  {
    assert d * e >= 21 * e;
  }

  lemma CoFactor(d: nat, e: nat)
    requires d > 20 && 0 < d * e
    ensures e == 1 || (2 <= e < d * e)
  {
    assert e != 0;
    if e > 1 {
      assert d * e >= 2 * e;
    }
  }

  // Below 21 squared the small primes decide.
  lemma SmallDivisorsDecide(n: nat)
    requires 2 <= n < 441 && NoSmallDivisor(n)
    ensures IsPrime(n)
  {
    hide NoSmallDivisor;
    forall d | 2 <= d < n ensures n % d != 0 {
      if n % d == 0 {
        var e := n / d;
        assert n == d * e == e * d;
        if d <= 20 {
          NotDivided(n, d);
        } else {
          CoFactor(d, e);
          if e > 20 {
            BothLarge(d, e);
          }
          if e > 1 {
            MultipleOf(e, d);
            NotDivided(n, e);
          }
        }
      }
    }
  }

  predicate Falls(n: nat, q: nat)
    requires 0 < q
  {
    n % q == 0 && q < n
  }

  predicate HasSmallDivisor(n: nat) {
    || Falls(n, 2) || Falls(n, 3) || Falls(n, 5) || Falls(n, 7)
    || Falls(n, 11) || Falls(n, 13) || Falls(n, 17) || Falls(n, 19)
  }

  // All numbers after p and before q have a small divisor.
  predicate Gap(p: nat, q: nat)
    decreases q - p
  {
    p + 1 >= q || (HasSmallDivisor(p + 1) && Gap(p + 1, q))
  }

  predicate Follows(p: nat, q: nat) {
    p < q && NoSmallDivisor(q) && Gap(p, q)
  }

  lemma {:induction false} GapHolds(p: nat, q: nat, n: nat)
    requires Gap(p, q) && p < n < q
    ensures !IsPrime(n)
    decreases q - p
  {
    hide NoSmallDivisor;
    if n == p + 1 {
      assert exists d | 2 <= d < n :: n % d == 0;
    } else {
      GapHolds(p + 1, q, n);
    }
  }

  lemma Row0()
    ensures Follows(2, 3) && Follows(3, 5) && Follows(5, 7) && Follows(7, 11)
    ensures Follows(11, 13) && Follows(13, 17) && Follows(17, 19) && Follows(19, 23)
  {
  }

  lemma Row1()
    ensures Follows(23, 29) && Follows(29, 31) && Follows(31, 37) && Follows(37, 41)
    ensures Follows(41, 43) && Follows(43, 47) && Follows(47, 53) && Follows(53, 59)
  {
  }

  lemma Row2()
    ensures Follows(59, 61) && Follows(61, 67) && Follows(67, 71) && Follows(71, 73)
    ensures Follows(73, 79) && Follows(79, 83) && Follows(83, 89) && Follows(89, 97)
  {
  }

  lemma Row3()
    ensures Follows(97, 101) && Follows(101, 103) && Follows(103, 107) && Follows(107, 109)
    ensures Follows(109, 113) && Follows(113, 127) && Follows(127, 131) && Follows(131, 137)
  {
  }

  lemma Row4()
    ensures Follows(137, 139) && Follows(139, 149) && Follows(149, 151) && Follows(151, 157)
    ensures Follows(157, 163) && Follows(163, 167) && Follows(167, 173) && Follows(173, 179)
  {
  }

  lemma Row5()
    ensures Follows(179, 181) && Follows(181, 191) && Follows(191, 193) && Follows(193, 197)
    ensures Follows(197, 199) && Follows(199, 211) && Follows(211, 223) && Follows(223, 227)
  {
  }

  lemma Row6()
    ensures Follows(227, 229) && Follows(229, 233) && Follows(233, 239) && Follows(239, 241)
    ensures Follows(241, 251) && Follows(251, 257) && Follows(257, 263) && Follows(263, 269)
  {
  }

  lemma Row7()
    ensures Follows(269, 271) && Follows(271, 277) && Follows(277, 281) && Follows(281, 283)
  {
  }

  lemma Row8()
    ensures Follows(283, 293) && Follows(293, 307) && Follows(307, 311) && Follows(311, 313)
  {
  }

  lemma Row9()
    ensures Follows(313, 317) && Follows(317, 331) && Follows(331, 337) && Follows(337, 347)
  {
  }

  lemma Row10()
    ensures Follows(347, 349) && Follows(349, 353) && Follows(353, 359) && Follows(359, 367)
  {
  }

  lemma Row11()
    ensures Follows(367, 373) && Follows(373, 379) && Follows(379, 383) && Follows(383, 389)
  {
  }

  lemma Row12()
    ensures Follows(389, 397) && Follows(397, 401) && Follows(401, 409)
  {
  }

  lemma FirstFollow(t: nat)
    requires 0 <= t < 40
    ensures Follows(Prime(t), Prime(t + 1))
  {
    hide Follows;
    if t < 8 {
      Row0();
    } else if t < 16 {
      Row1();
    } else if t < 24 {
      Row2();
    } else if t < 32 {
      Row3();
    } else {
      Row4();
    }
  }

  lemma LastFollow(t: nat)
    requires 40 <= t < 79
    ensures Follows(Prime(t), Prime(t + 1))
  {
    hide Follows;
    if t < 48 {
      Row5();
    } else if t < 56 {
      Row6();
    } else if t < 60 {
      Row7();
    } else if t < 64 {
      Row8();
    } else if t < 68 {
      Row9();
    } else if t < 72 {
      Row10();
    } else if t < 76 {
      Row11();
    } else {
      Row12();
    }
  }

  // The first prime is 2, each is prime, and no prime is left out between two of them.
  lemma PrimesInOrder(t: nat)
    requires t < 80
    ensures Prime(0) == 2 && IsPrime(Prime(t))
    ensures t > 0 ==> Prime(t - 1) < Prime(t) && forall n | Prime(t - 1) < n < Prime(t) :: !IsPrime(n)
  {
    hide Prime, NoSmallDivisor, Gap, IsPrime;
    TwoIsFirst();
    if t > 0 {
      if t <= 40 {
        FirstFollow(t - 1);
      } else {
        LastFollow(t - 1);
      }
      var p, q := Prime(t - 1), Prime(t);
      forall n | p < n < q ensures !IsPrime(n) {
        GapHolds(p, q, n);
      }
      PrimeBelow441(t);
      SmallDivisorsDecide(q);
    }
  }

  lemma TwoIsFirst()
    ensures Prime(0) == 2 && IsPrime(2)
  {
  }

  lemma PrimeBelow441(t: nat)
    ensures 2 <= Prime(t) < 441
  {
  }

  // ---------- Roots ----------

  // c is the integer part of the cube root of p times 2^64.
  predicate IsCubeRoot(p: nat, c: nat) {
    c * c * c <= p * 0x1_0000_0000_0000_0000_0000_0000_0000_0000_0000_0000_0000_0000 < (c + 1) * (c + 1) * (c + 1)
  }

  // k are the first 64 bits of the fraction.
  ghost predicate CubeFraction(p: nat, k: bv64) {
    exists a: nat :: IsCubeRoot(p, a * 0x1_0000_0000_0000_0000 + k as int)
  }

  lemma Cube(p: nat, a: nat, k: bv64)
    requires IsCubeRoot(p, a * 0x1_0000_0000_0000_0000 + k as int)
    ensures CubeFraction(p, k)
  {
  }

  lemma Cubes0(t: nat)
    requires 0 <= t < 8
    ensures CubeFraction(Prime(t), K512(t))
  {
    hide CubeFraction, IsCubeRoot;
    Cube(2, 1, 0x428A2F98D728AE22);
    Cube(3, 1, 0x7137449123EF65CD);
    Cube(5, 1, 0xB5C0FBCFEC4D3B2F);
    Cube(7, 1, 0xE9B5DBA58189DBBC);
    Cube(11, 2, 0x3956C25BF348B538);
    Cube(13, 2, 0x59F111F1B605D019);
    Cube(17, 2, 0x923F82A4AF194F9B);
    Cube(19, 2, 0xAB1C5ED5DA6D8118);
  }

  lemma Cubes1(t: nat)
    requires 8 <= t < 16
    ensures CubeFraction(Prime(t), K512(t))
  {
    hide CubeFraction, IsCubeRoot;
    Cube(23, 2, 0xD807AA98A3030242);
    Cube(29, 3, 0x12835B0145706FBE);
    Cube(31, 3, 0x243185BE4EE4B28C);
    Cube(37, 3, 0x550C7DC3D5FFB4E2);
    Cube(41, 3, 0x72BE5D74F27B896F);
    Cube(43, 3, 0x80DEB1FE3B1696B1);
    Cube(47, 3, 0x9BDC06A725C71235);
    Cube(53, 3, 0xC19BF174CF692694);
  }

  lemma Cubes2(t: nat)
    requires 16 <= t < 24
    ensures CubeFraction(Prime(t), K512(t))
  {
    hide CubeFraction, IsCubeRoot;
    Cube(59, 3, 0xE49B69C19EF14AD2);
    Cube(61, 3, 0xEFBE4786384F25E3);
    Cube(67, 4, 0x0FC19DC68B8CD5B5);
    Cube(71, 4, 0x240CA1CC77AC9C65);
    Cube(73, 4, 0x2DE92C6F592B0275);
    Cube(79, 4, 0x4A7484AA6EA6E483);
    Cube(83, 4, 0x5CB0A9DCBD41FBD4);
    Cube(89, 4, 0x76F988DA831153B5);
  }

  lemma Cubes3(t: nat)
    requires 24 <= t < 32
    ensures CubeFraction(Prime(t), K512(t))
  {
    hide CubeFraction, IsCubeRoot;
    Cube(97, 4, 0x983E5152EE66DFAB);
    Cube(101, 4, 0xA831C66D2DB43210);
    Cube(103, 4, 0xB00327C898FB213F);
    Cube(107, 4, 0xBF597FC7BEEF0EE4);
    Cube(109, 4, 0xC6E00BF33DA88FC2);
    Cube(113, 4, 0xD5A79147930AA725);
    Cube(127, 5, 0x06CA6351E003826F);
    Cube(131, 5, 0x142929670A0E6E70);
  }

  lemma Cubes4(t: nat)
    requires 32 <= t < 40
    ensures CubeFraction(Prime(t), K512(t))
  {
    hide CubeFraction, IsCubeRoot;
    Cube(137, 5, 0x27B70A8546D22FFC);
    Cube(139, 5, 0x2E1B21385C26C926);
    Cube(149, 5, 0x4D2C6DFC5AC42AED);
    Cube(151, 5, 0x53380D139D95B3DF);
    Cube(157, 5, 0x650A73548BAF63DE);
    Cube(163, 5, 0x766A0ABB3C77B2A8);
    Cube(167, 5, 0x81C2C92E47EDAEE6);
    Cube(173, 5, 0x92722C851482353B);
  }

  lemma Cubes5(t: nat)
    requires 40 <= t < 48
    ensures CubeFraction(Prime(t), K512(t))
  {
    hide CubeFraction, IsCubeRoot;
    Cube(179, 5, 0xA2BFE8A14CF10364);
    Cube(181, 5, 0xA81A664BBC423001);
    Cube(191, 5, 0xC24B8B70D0F89791);
    Cube(193, 5, 0xC76C51A30654BE30);
    Cube(197, 5, 0xD192E819D6EF5218);
    Cube(199, 5, 0xD69906245565A910);
    Cube(211, 5, 0xF40E35855771202A);
    Cube(223, 6, 0x106AA07032BBD1B8);
  }

  lemma Cubes6(t: nat)
    requires 48 <= t < 56
    ensures CubeFraction(Prime(t), K512(t))
  {
    hide CubeFraction, IsCubeRoot;
    Cube(227, 6, 0x19A4C116B8D2D0C8);
    Cube(229, 6, 0x1E376C085141AB53);
    Cube(233, 6, 0x2748774CDF8EEB99);
    Cube(239, 6, 0x34B0BCB5E19B48A8);
    Cube(241, 6, 0x391C0CB3C5C95A63);
    Cube(251, 6, 0x4ED8AA4AE3418ACB);
    Cube(257, 6, 0x5B9CCA4F7763E373);
    Cube(263, 6, 0x682E6FF3D6B2B8A3);
  }

  lemma Cubes7(t: nat)
    requires 56 <= t < 64
    ensures CubeFraction(Prime(t), K512(t))
  {
    hide CubeFraction, IsCubeRoot;
    Cube(269, 6, 0x748F82EE5DEFB2FC);
    Cube(271, 6, 0x78A5636F43172F60);
    Cube(277, 6, 0x84C87814A1F0AB72);
    Cube(281, 6, 0x8CC702081A6439EC);
    Cube(283, 6, 0x90BEFFFA23631E28);
    Cube(293, 6, 0xA4506CEBDE82BDE9);
    Cube(307, 6, 0xBEF9A3F7B2C67915);
    Cube(311, 6, 0xC67178F2E372532B);
  }

  lemma Cubes8(t: nat)
    requires 64 <= t < 72
    ensures CubeFraction(Prime(t), K512(t))
  {
    hide CubeFraction, IsCubeRoot;
    Cube(313, 6, 0xCA273ECEEA26619C);
    Cube(317, 6, 0xD186B8C721C0C207);
    Cube(331, 6, 0xEADA7DD6CDE0EB1E);
    Cube(337, 6, 0xF57D4F7FEE6ED178);
    Cube(347, 7, 0x06F067AA72176FBA);
    Cube(349, 7, 0x0A637DC5A2C898A6);
    Cube(353, 7, 0x113F9804BEF90DAE);
    Cube(359, 7, 0x1B710B35131C471B);
  }

  lemma Cubes9(t: nat)
    requires 72 <= t < 80
    ensures CubeFraction(Prime(t), K512(t))
  {
    hide CubeFraction, IsCubeRoot;
    Cube(367, 7, 0x28DB77F523047D84);
    Cube(373, 7, 0x32CAAB7B40C72493);
    Cube(379, 7, 0x3C9EBE0A15C9BEBC);
    Cube(383, 7, 0x431D67C49C100D4C);
    Cube(389, 7, 0x4CC5D4BECB3E42B6);
    Cube(397, 7, 0x597F299CFC657E2A);
    Cube(401, 7, 0x5FCB6FAB3AD6FAEC);
    Cube(409, 7, 0x6C44198C4A475817);
  }

  // Section 4.2.3 of FIPS 180-4; the constants of SHA-256 are the upper halves of the first 64.
  lemma K512IsCubeRoot(t: nat)
    requires t < 80
    ensures exists a: nat :: IsCubeRoot(Prime(t), a * 0x1_0000_0000_0000_0000 + K512(t) as int)
  {
    hide IsCubeRoot, Prime, K512;
    assert CubeFraction(Prime(t), K512(t)) by {
      hide CubeFraction;
      if t < 8 {
        Cubes0(t);
      } else if t < 16 {
        Cubes1(t);
      } else if t < 24 {
        Cubes2(t);
      } else if t < 32 {
        Cubes3(t);
      } else if t < 40 {
        Cubes4(t);
      } else if t < 48 {
        Cubes5(t);
      } else if t < 56 {
        Cubes6(t);
      } else if t < 64 {
        Cubes7(t);
      } else if t < 72 {
        Cubes8(t);
      } else {
        Cubes9(t);
      }
    }
  }

  // The same for square roots.
  predicate IsSquareRoot(p: nat, c: nat) {
    c * c <= p * 0x1_0000_0000_0000_0000_0000_0000_0000_0000 < (c + 1) * (c + 1)
  }

  ghost predicate SquareFraction(p: nat, k: bv64) {
    exists a: nat :: IsSquareRoot(p, a * 0x1_0000_0000_0000_0000 + k as int)
  }

  lemma Square(p: nat, a: nat, k: bv64)
    requires IsSquareRoot(p, a * 0x1_0000_0000_0000_0000 + k as int)
    ensures SquareFraction(p, k)
  {
  }

  lemma Squares(t: nat)
    requires t < 8
    ensures SquareFraction(Prime(t), SHA512_INIT[t])
  {
    hide SquareFraction, IsSquareRoot;
    Square(2, 1, 0x6A09E667F3BCC908);
    Square(3, 1, 0xBB67AE8584CAA73B);
    Square(5, 2, 0x3C6EF372FE94F82B);
    Square(7, 2, 0xA54FF53A5F1D36F1);
    Square(11, 3, 0x510E527FADE682D1);
    Square(13, 3, 0x9B05688C2B3E6C1F);
    Square(17, 4, 0x1F83D9ABFB41BD6B);
    Square(19, 4, 0x5BE0CD19137E2179);
  }

  // Section 5.3.5.
  lemma Sha512InitIsSquareRoot(t: nat)
    requires t < 8
    ensures exists a: nat :: IsSquareRoot(Prime(t), a * 0x1_0000_0000_0000_0000 + SHA512_INIT[t] as int)
  {
    hide Prime, IsSquareRoot;
    Squares(t);
  }

  // Section 5.3.3: the first 32 bits of the same roots.
  lemma Sha256InitIsUpperHalf(t: nat)
    requires t < 8
    ensures SHA256_INIT[t] as bv64 == SHA512_INIT[t] >> 32
  {
  }
}
