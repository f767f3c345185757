/** The SHA-256 digest of "abc", round by round. */
module Sha256Answer {
  import opened Common
  import opened HashCore
  import opened Fips180
  import opened AbcBlock
  import HashStream

  const START := Regs8(SHA256_INIT[0], SHA256_INIT[1], SHA256_INIT[2], SHA256_INIT[3],
    SHA256_INIT[4], SHA256_INIT[5], SHA256_INIT[6], SHA256_INIT[7])

  // ---------- The message schedule ----------

  predicate IsBlock(m: seq<Word>) {
    IsAbc(m, 0x61626380, 0, 15, 0x18)
  }

  predicate Mixes(w2: Word, w7: Word, w15: Word, w16: Word, w: Word) {
    Sha256Mix(w2, w7, w15, w16) == w
  }

  predicate Word(m: seq<Word>, t: nat, w: Word)
    requires |m| == 16
  {
    Sha256W(m, t) == w
  }

  lemma NextWord(m: seq<Word>, t: nat)
    requires |m| == 16
    ensures forall w2, w7, w15, w16, w
      {:trigger Word(m, t + 14, w2), Word(m, t + 9, w7), Word(m, t + 1, w15), Word(m, t, w16),
        Mixes(w2, w7, w15, w16, w)} |
      Word(m, t + 14, w2) && Word(m, t + 9, w7) && Word(m, t + 1, w15) && Word(m, t, w16)
      && Mixes(w2, w7, w15, w16, w) :: Word(m, t + 16, w)
  {
    hide Sha256Mix;
  }

  lemma Mixed2()
    ensures Mixes(0x00000000, 0x00000000, 0x00000000, 0x61626380, 0x61626380)
    ensures Mixes(0x00000018, 0x00000000, 0x00000000, 0x00000000, 0x000F0000)
    ensures Mixes(0x61626380, 0x00000000, 0x00000000, 0x00000000, 0x7DA86405)
    ensures Mixes(0x000F0000, 0x00000000, 0x00000000, 0x00000000, 0x600003C6)
    ensures Mixes(0x7DA86405, 0x00000000, 0x00000000, 0x00000000, 0x3E9D7B78)
    ensures Mixes(0x600003C6, 0x00000000, 0x00000000, 0x00000000, 0x0183FC00)
    ensures Mixes(0x3E9D7B78, 0x00000018, 0x00000000, 0x00000000, 0x12DCBFDB)
    ensures Mixes(0x0183FC00, 0x61626380, 0x00000000, 0x00000000, 0xE2E2C38E)
  {
  }

  lemma Mixed3()
    ensures Mixes(0x12DCBFDB, 0x000F0000, 0x00000000, 0x00000000, 0xC8215C1A)
    ensures Mixes(0xE2E2C38E, 0x7DA86405, 0x00000000, 0x00000000, 0xB73679A2)
    ensures Mixes(0xC8215C1A, 0x600003C6, 0x00000000, 0x00000000, 0xE5BC3909)
    ensures Mixes(0xB73679A2, 0x3E9D7B78, 0x00000000, 0x00000000, 0x32663C5B)
    ensures Mixes(0xE5BC3909, 0x0183FC00, 0x00000000, 0x00000000, 0x9D209D67)
    ensures Mixes(0x32663C5B, 0x12DCBFDB, 0x00000000, 0x00000000, 0xEC8726CB)
    ensures Mixes(0x9D209D67, 0xE2E2C38E, 0x00000018, 0x00000000, 0x702138A4)
    ensures Mixes(0xEC8726CB, 0xC8215C1A, 0x61626380, 0x00000018, 0xD3B7973B)
  {
  }

  lemma Mixed4()
    ensures Mixes(0x702138A4, 0xB73679A2, 0x000F0000, 0x61626380, 0x93F5997F)
    ensures Mixes(0xD3B7973B, 0xE5BC3909, 0x7DA86405, 0x000F0000, 0x3B68BA73)
    ensures Mixes(0x93F5997F, 0x32663C5B, 0x600003C6, 0x7DA86405, 0xAFF4FFC1)
    ensures Mixes(0x3B68BA73, 0x9D209D67, 0x3E9D7B78, 0x600003C6, 0xF10A5C62)
    ensures Mixes(0xAFF4FFC1, 0xEC8726CB, 0x0183FC00, 0x3E9D7B78, 0x0A8B3996)
    ensures Mixes(0xF10A5C62, 0x702138A4, 0x12DCBFDB, 0x0183FC00, 0x72AF830A)
    ensures Mixes(0x0A8B3996, 0xD3B7973B, 0xE2E2C38E, 0x12DCBFDB, 0x9409E33E)
    ensures Mixes(0x72AF830A, 0x93F5997F, 0xC8215C1A, 0xE2E2C38E, 0x24641522)
  {
  }

  lemma Mixed5()
    ensures Mixes(0x9409E33E, 0x3B68BA73, 0xB73679A2, 0xC8215C1A, 0x9F47BF94)
    ensures Mixes(0x24641522, 0xAFF4FFC1, 0xE5BC3909, 0xB73679A2, 0xF0A64F5A)
    ensures Mixes(0x9F47BF94, 0xF10A5C62, 0x32663C5B, 0xE5BC3909, 0x3E246A79)
    ensures Mixes(0xF0A64F5A, 0x0A8B3996, 0x9D209D67, 0x32663C5B, 0x27333BA3)
    ensures Mixes(0x3E246A79, 0x72AF830A, 0xEC8726CB, 0x9D209D67, 0x0C4763F2)
    ensures Mixes(0x27333BA3, 0x9409E33E, 0x702138A4, 0xEC8726CB, 0x840ABF27)
    ensures Mixes(0x0C4763F2, 0x24641522, 0xD3B7973B, 0x702138A4, 0x7A290D5D)
    ensures Mixes(0x840ABF27, 0x9F47BF94, 0x93F5997F, 0xD3B7973B, 0x065C43DA)
  {
  }

  lemma Mixed6()
    ensures Mixes(0x7A290D5D, 0xF0A64F5A, 0x3B68BA73, 0x93F5997F, 0xFB3E89CB)
    ensures Mixes(0x065C43DA, 0x3E246A79, 0xAFF4FFC1, 0x3B68BA73, 0xCC7617DB)
    ensures Mixes(0xFB3E89CB, 0x27333BA3, 0xF10A5C62, 0xAFF4FFC1, 0xB9E66C34)
    ensures Mixes(0xCC7617DB, 0x0C4763F2, 0x0A8B3996, 0xF10A5C62, 0xA9993667)
    ensures Mixes(0xB9E66C34, 0x840ABF27, 0x72AF830A, 0x0A8B3996, 0x84BADEDD)
    ensures Mixes(0xA9993667, 0x7A290D5D, 0x9409E33E, 0x72AF830A, 0xC21462BC)
    ensures Mixes(0x84BADEDD, 0x065C43DA, 0x24641522, 0x9409E33E, 0x1487472C)
    ensures Mixes(0xC21462BC, 0xFB3E89CB, 0x9F47BF94, 0x24641522, 0xB20F7A99)
  {
  }

  lemma Mixed7()
    ensures Mixes(0x1487472C, 0xCC7617DB, 0xF0A64F5A, 0x9F47BF94, 0xEF57B9CD)
    ensures Mixes(0xB20F7A99, 0xB9E66C34, 0x3E246A79, 0xF0A64F5A, 0xEBE6B238)
    ensures Mixes(0xEF57B9CD, 0xA9993667, 0x27333BA3, 0x3E246A79, 0x9FE3095E)
    ensures Mixes(0xEBE6B238, 0x84BADEDD, 0x0C4763F2, 0x27333BA3, 0x78BC8D4B)
    ensures Mixes(0x9FE3095E, 0xC21462BC, 0x840ABF27, 0x0C4763F2, 0xA43FCF15)
    ensures Mixes(0x78BC8D4B, 0x1487472C, 0x7A290D5D, 0x840ABF27, 0x668B2FF8)
    ensures Mixes(0xA43FCF15, 0xB20F7A99, 0x065C43DA, 0x7A290D5D, 0xEEABA2CC)
    ensures Mixes(0x668B2FF8, 0xEF57B9CD, 0xFB3E89CB, 0x065C43DA, 0x12B1EDEB)
  {
  }

  lemma Words0(m: seq<Word>)
    requires |m| == 16 && IsBlock(m)
    ensures Word(m, 0, 0x61626380) && Word(m, 1, 0x00000000)
    ensures Word(m, 2, 0x00000000) && Word(m, 3, 0x00000000)
    ensures Word(m, 4, 0x00000000) && Word(m, 5, 0x00000000)
    ensures Word(m, 6, 0x00000000) && Word(m, 7, 0x00000000)
  {
  }

  lemma Words1(m: seq<Word>)
    requires |m| == 16 && IsBlock(m)
    ensures Word(m, 8, 0x00000000) && Word(m, 9, 0x00000000)
    ensures Word(m, 10, 0x00000000) && Word(m, 11, 0x00000000)
    ensures Word(m, 12, 0x00000000) && Word(m, 13, 0x00000000)
    ensures Word(m, 14, 0x00000000) && Word(m, 15, 0x00000018)
  {
  }

  lemma Words2(m: seq<Word>)
    requires |m| == 16 && IsBlock(m)
    ensures Word(m, 16, 0x61626380) && Word(m, 17, 0x000F0000)
    ensures Word(m, 18, 0x7DA86405) && Word(m, 19, 0x600003C6)
    ensures Word(m, 20, 0x3E9D7B78) && Word(m, 21, 0x0183FC00)
    ensures Word(m, 22, 0x12DCBFDB) && Word(m, 23, 0xE2E2C38E)
  {
    Words0(m);
    Words1(m);
    Mixed2();
    hide Word, Mixes, IsBlock;
    NextWord(m, 0);
    NextWord(m, 1);
    NextWord(m, 2);
    NextWord(m, 3);
    NextWord(m, 4);
    NextWord(m, 5);
    NextWord(m, 6);
    NextWord(m, 7);
  }

  lemma Words3(m: seq<Word>)
    requires |m| == 16 && IsBlock(m)
    ensures Word(m, 24, 0xC8215C1A) && Word(m, 25, 0xB73679A2)
    ensures Word(m, 26, 0xE5BC3909) && Word(m, 27, 0x32663C5B)
    ensures Word(m, 28, 0x9D209D67) && Word(m, 29, 0xEC8726CB)
    ensures Word(m, 30, 0x702138A4) && Word(m, 31, 0xD3B7973B)
  {
    Words1(m);
    Words2(m);
    Mixed3();
    hide Word, Mixes, IsBlock;
    NextWord(m, 8);
    NextWord(m, 9);
    NextWord(m, 10);
    NextWord(m, 11);
    NextWord(m, 12);
    NextWord(m, 13);
    NextWord(m, 14);
    NextWord(m, 15);
  }

  lemma Words4(m: seq<Word>)
    requires |m| == 16 && IsBlock(m)
    ensures Word(m, 32, 0x93F5997F) && Word(m, 33, 0x3B68BA73)
    ensures Word(m, 34, 0xAFF4FFC1) && Word(m, 35, 0xF10A5C62)
    ensures Word(m, 36, 0x0A8B3996) && Word(m, 37, 0x72AF830A)
    ensures Word(m, 38, 0x9409E33E) && Word(m, 39, 0x24641522)
  {
    Words2(m);
    Words3(m);
    Mixed4();
    hide Word, Mixes, IsBlock;
    NextWord(m, 16);
    NextWord(m, 17);
    NextWord(m, 18);
    NextWord(m, 19);
    NextWord(m, 20);
    NextWord(m, 21);
    NextWord(m, 22);
    NextWord(m, 23);
  }

  lemma Words5(m: seq<Word>)
    requires |m| == 16 && IsBlock(m)
    ensures Word(m, 40, 0x9F47BF94) && Word(m, 41, 0xF0A64F5A)
    ensures Word(m, 42, 0x3E246A79) && Word(m, 43, 0x27333BA3)
    ensures Word(m, 44, 0x0C4763F2) && Word(m, 45, 0x840ABF27)
    ensures Word(m, 46, 0x7A290D5D) && Word(m, 47, 0x065C43DA)
  {
    Words3(m);
    Words4(m);
    Mixed5();
    hide Word, Mixes, IsBlock;
    NextWord(m, 24);
    NextWord(m, 25);
    NextWord(m, 26);
    NextWord(m, 27);
    NextWord(m, 28);
    NextWord(m, 29);
    NextWord(m, 30);
    NextWord(m, 31);
  }

  lemma Words6(m: seq<Word>)
    requires |m| == 16 && IsBlock(m)
    ensures Word(m, 48, 0xFB3E89CB) && Word(m, 49, 0xCC7617DB)
    ensures Word(m, 50, 0xB9E66C34) && Word(m, 51, 0xA9993667)
    ensures Word(m, 52, 0x84BADEDD) && Word(m, 53, 0xC21462BC)
    ensures Word(m, 54, 0x1487472C) && Word(m, 55, 0xB20F7A99)
  {
    Words4(m);
    Words5(m);
    Mixed6();
    hide Word, Mixes, IsBlock;
    NextWord(m, 32);
    NextWord(m, 33);
    NextWord(m, 34);
    NextWord(m, 35);
    NextWord(m, 36);
    NextWord(m, 37);
    NextWord(m, 38);
    NextWord(m, 39);
  }

  lemma Words7(m: seq<Word>)
    requires |m| == 16 && IsBlock(m)
    ensures Word(m, 56, 0xEF57B9CD) && Word(m, 57, 0xEBE6B238)
    ensures Word(m, 58, 0x9FE3095E) && Word(m, 59, 0x78BC8D4B)
    ensures Word(m, 60, 0xA43FCF15) && Word(m, 61, 0x668B2FF8)
    ensures Word(m, 62, 0xEEABA2CC) && Word(m, 63, 0x12B1EDEB)
  {
    Words5(m);
    Words6(m);
    Mixed7();
    hide Word, Mixes, IsBlock;
    NextWord(m, 40);
    NextWord(m, 41);
    NextWord(m, 42);
    NextWord(m, 43);
    NextWord(m, 44);
    NextWord(m, 45);
    NextWord(m, 46);
    NextWord(m, 47);
  }

  // ---------- The rounds ----------

  // The registers after n rounds.
  predicate At(m: seq<Word>, n: nat, a: Word, b: Word, c: Word, d: Word, e: Word, f: Word, g: Word, h: Word)
    requires |m| == 16 && n <= 64
  {
    Sha256Rounds(n, m, START) == Regs8(a, b, c, d, e, f, g, h)
  }

  // A round makes a new a and a new e and moves the others.
  predicate Turns(k: Word, w: Word, a: Word, b: Word, c: Word, d: Word, e: Word, f: Word, g: Word, h: Word,
    newA: Word, newE: Word)
  {
    var r := Sha256Round(k, w, Regs8(a, b, c, d, e, f, g, h)); r.a == newA && r.e == newE
  }

  lemma Turn(m: seq<Word>, n: nat, k: Word, w: Word, a: Word, b: Word, c: Word, d: Word,
    e: Word, f: Word, g: Word, h: Word, newA: Word, newE: Word)
    requires |m| == 16 && n < 64 && At(m, n, a, b, c, d, e, f, g, h) && K256(n) == k && Word(m, n, w)
    requires Turns(k, w, a, b, c, d, e, f, g, h, newA, newE)
    ensures At(m, n + 1, newA, a, b, c, newE, e, f, g)
  {
    hide K256, Add, BigSigma0, BigSigma1, Ch, Maj, Sha256W, START;
  }

  lemma EveryTurn(m: seq<Word>, n: nat)
    requires |m| == 16 && n < 64
    ensures forall k, w, a, b, c, d, e, f, g, h, newA, newE
      {:trigger At(m, n, a, b, c, d, e, f, g, h), Turns(k, w, a, b, c, d, e, f, g, h, newA, newE)} |
      At(m, n, a, b, c, d, e, f, g, h) && K256(n) == k && Word(m, n, w)
      && Turns(k, w, a, b, c, d, e, f, g, h, newA, newE) :: At(m, n + 1, newA, a, b, c, newE, e, f, g)
  {
    hide At, Turns, K256, Word;
    forall k, w, a, b, c, d, e, f, g, h, newA, newE | At(m, n, a, b, c, d, e, f, g, h) && K256(n) == k &&
      Word(m, n, w) && Turns(k, w, a, b, c, d, e, f, g, h, newA, newE)
      ensures At(m, n + 1, newA, a, b, c, newE, e, f, g)
    {
      Turn(m, n, k, w, a, b, c, d, e, f, g, h, newA, newE);
    }
  }

  lemma Begins(m: seq<Word>)
    requires |m| == 16
    ensures At(m, 0,
      0x6A09E667, 0xBB67AE85, 0x3C6EF372, 0xA54FF53A, 0x510E527F, 0x9B05688C, 0x1F83D9AB, 0x5BE0CD19)
  {
  }

  lemma Constants0()
    ensures K256(0) == 0x428A2F98 && K256(1) == 0x71374491
    ensures K256(2) == 0xB5C0FBCF && K256(3) == 0xE9B5DBA5
    ensures K256(4) == 0x3956C25B && K256(5) == 0x59F111F1
    ensures K256(6) == 0x923F82A4 && K256(7) == 0xAB1C5ED5
  {
  }

  lemma Constants1()
    ensures K256(8) == 0xD807AA98 && K256(9) == 0x12835B01
    ensures K256(10) == 0x243185BE && K256(11) == 0x550C7DC3
    ensures K256(12) == 0x72BE5D74 && K256(13) == 0x80DEB1FE
    ensures K256(14) == 0x9BDC06A7 && K256(15) == 0xC19BF174
  {
  }

  lemma Constants2()
    ensures K256(16) == 0xE49B69C1 && K256(17) == 0xEFBE4786
    ensures K256(18) == 0x0FC19DC6 && K256(19) == 0x240CA1CC
    ensures K256(20) == 0x2DE92C6F && K256(21) == 0x4A7484AA
    ensures K256(22) == 0x5CB0A9DC && K256(23) == 0x76F988DA
  {
  }

  lemma Constants3()
    ensures K256(24) == 0x983E5152 && K256(25) == 0xA831C66D
    ensures K256(26) == 0xB00327C8 && K256(27) == 0xBF597FC7
    ensures K256(28) == 0xC6E00BF3 && K256(29) == 0xD5A79147
    ensures K256(30) == 0x06CA6351 && K256(31) == 0x14292967
  {
  }

  lemma Constants4()
    ensures K256(32) == 0x27B70A85 && K256(33) == 0x2E1B2138
    ensures K256(34) == 0x4D2C6DFC && K256(35) == 0x53380D13
    ensures K256(36) == 0x650A7354 && K256(37) == 0x766A0ABB
    ensures K256(38) == 0x81C2C92E && K256(39) == 0x92722C85
  {
  }

  lemma Constants5()
    ensures K256(40) == 0xA2BFE8A1 && K256(41) == 0xA81A664B
    ensures K256(42) == 0xC24B8B70 && K256(43) == 0xC76C51A3
    ensures K256(44) == 0xD192E819 && K256(45) == 0xD6990624
    ensures K256(46) == 0xF40E3585 && K256(47) == 0x106AA070
  {
  }

  lemma Constants6()
    ensures K256(48) == 0x19A4C116 && K256(49) == 0x1E376C08
    ensures K256(50) == 0x2748774C && K256(51) == 0x34B0BCB5
    ensures K256(52) == 0x391C0CB3 && K256(53) == 0x4ED8AA4A
    ensures K256(54) == 0x5B9CCA4F && K256(55) == 0x682E6FF3
  {
  }

  lemma Constants7()
    ensures K256(56) == 0x748F82EE && K256(57) == 0x78A5636F
    ensures K256(58) == 0x84C87814 && K256(59) == 0x8CC70208
    ensures K256(60) == 0x90BEFFFA && K256(61) == 0xA4506CEB
    ensures K256(62) == 0xBEF9A3F7 && K256(63) == 0xC67178F2
  {
  }

  lemma Turns0()
    ensures Turns(0x428A2F98, 0x61626380, 0x6A09E667, 0xBB67AE85, 0x3C6EF372, 0xA54FF53A, 0x510E527F, 0x9B05688C,
      0x1F83D9AB, 0x5BE0CD19, 0x5D6AEBCD, 0xFA2A4622)
    ensures Turns(0x71374491, 0x00000000, 0x5D6AEBCD, 0x6A09E667, 0xBB67AE85, 0x3C6EF372, 0xFA2A4622, 0x510E527F,
      0x9B05688C, 0x1F83D9AB, 0x5A6AD9AD, 0x78CE7989)
    ensures Turns(0xB5C0FBCF, 0x00000000, 0x5A6AD9AD, 0x5D6AEBCD, 0x6A09E667, 0xBB67AE85, 0x78CE7989, 0xFA2A4622,
      0x510E527F, 0x9B05688C, 0xC8C347A7, 0xF92939EB)
    ensures Turns(0xE9B5DBA5, 0x00000000, 0xC8C347A7, 0x5A6AD9AD, 0x5D6AEBCD, 0x6A09E667, 0xF92939EB, 0x78CE7989,
      0xFA2A4622, 0x510E527F, 0xD550F666, 0x24E00850)
    ensures Turns(0x3956C25B, 0x00000000, 0xD550F666, 0xC8C347A7, 0x5A6AD9AD, 0x5D6AEBCD, 0x24E00850, 0xF92939EB,
      0x78CE7989, 0xFA2A4622, 0x04409A6A, 0x43ADA245)
    ensures Turns(0x59F111F1, 0x00000000, 0x04409A6A, 0xD550F666, 0xC8C347A7, 0x5A6AD9AD, 0x43ADA245, 0x24E00850,
      0xF92939EB, 0x78CE7989, 0x2B4209F5, 0x714260AD)
    ensures Turns(0x923F82A4, 0x00000000, 0x2B4209F5, 0x04409A6A, 0xD550F666, 0xC8C347A7, 0x714260AD, 0x43ADA245,
      0x24E00850, 0xF92939EB, 0xE5030380, 0x9B27A401)
    ensures Turns(0xAB1C5ED5, 0x00000000, 0xE5030380, 0x2B4209F5, 0x04409A6A, 0xD550F666, 0x9B27A401, 0x714260AD,
      0x43ADA245, 0x24E00850, 0x85A07B5F, 0x0C657A79)
  {
  }

  lemma Turns1()
    ensures Turns(0xD807AA98, 0x00000000, 0x85A07B5F, 0xE5030380, 0x2B4209F5, 0x04409A6A, 0x0C657A79, 0x9B27A401,
      0x714260AD, 0x43ADA245, 0x8E04ECB9, 0x32CA2D8C)
    ensures Turns(0x12835B01, 0x00000000, 0x8E04ECB9, 0x85A07B5F, 0xE5030380, 0x2B4209F5, 0x32CA2D8C, 0x0C657A79,
      0x9B27A401, 0x714260AD, 0x8C87346B, 0x1CC92596)
    ensures Turns(0x243185BE, 0x00000000, 0x8C87346B, 0x8E04ECB9, 0x85A07B5F, 0xE5030380, 0x1CC92596, 0x32CA2D8C,
      0x0C657A79, 0x9B27A401, 0x4798A3F4, 0x436B23E8)
    ensures Turns(0x550C7DC3, 0x00000000, 0x4798A3F4, 0x8C87346B, 0x8E04ECB9, 0x85A07B5F, 0x436B23E8, 0x1CC92596,
      0x32CA2D8C, 0x0C657A79, 0xF71FC5A9, 0x816FD6E9)
    ensures Turns(0x72BE5D74, 0x00000000, 0xF71FC5A9, 0x4798A3F4, 0x8C87346B, 0x8E04ECB9, 0x816FD6E9, 0x436B23E8,
      0x1CC92596, 0x32CA2D8C, 0x87912990, 0x1E578218)
    ensures Turns(0x80DEB1FE, 0x00000000, 0x87912990, 0xF71FC5A9, 0x4798A3F4, 0x8C87346B, 0x1E578218, 0x816FD6E9,
      0x436B23E8, 0x1CC92596, 0xD932EB16, 0x745A48DE)
    ensures Turns(0x9BDC06A7, 0x00000000, 0xD932EB16, 0x87912990, 0xF71FC5A9, 0x4798A3F4, 0x745A48DE, 0x1E578218,
      0x816FD6E9, 0x436B23E8, 0xC0645FDE, 0x0B92F20C)
    ensures Turns(0xC19BF174, 0x00000018, 0xC0645FDE, 0xD932EB16, 0x87912990, 0xF71FC5A9, 0x0B92F20C, 0x745A48DE,
      0x1E578218, 0x816FD6E9, 0xB0FA238E, 0x07590DCD)
  {
  }

  lemma Turns2()
    ensures Turns(0xE49B69C1, 0x61626380, 0xB0FA238E, 0xC0645FDE, 0xD932EB16, 0x87912990, 0x07590DCD, 0x0B92F20C,
      0x745A48DE, 0x1E578218, 0x21DA9A9B, 0x8034229C)
    ensures Turns(0xEFBE4786, 0x000F0000, 0x21DA9A9B, 0xB0FA238E, 0xC0645FDE, 0xD932EB16, 0x8034229C, 0x07590DCD,
      0x0B92F20C, 0x745A48DE, 0xC2FBD9D1, 0x846EE454)
    ensures Turns(0x0FC19DC6, 0x7DA86405, 0xC2FBD9D1, 0x21DA9A9B, 0xB0FA238E, 0xC0645FDE, 0x846EE454, 0x8034229C,
      0x07590DCD, 0x0B92F20C, 0xFE777BBF, 0xCC899961)
    ensures Turns(0x240CA1CC, 0x600003C6, 0xFE777BBF, 0xC2FBD9D1, 0x21DA9A9B, 0xB0FA238E, 0xCC899961, 0x846EE454,
      0x8034229C, 0x07590DCD, 0xE1F20C33, 0xB0638179)
    ensures Turns(0x2DE92C6F, 0x3E9D7B78, 0xE1F20C33, 0xFE777BBF, 0xC2FBD9D1, 0x21DA9A9B, 0xB0638179, 0xCC899961,
      0x846EE454, 0x8034229C, 0x9DC68B63, 0x8ADA8930)
    ensures Turns(0x4A7484AA, 0x0183FC00, 0x9DC68B63, 0xE1F20C33, 0xFE777BBF, 0xC2FBD9D1, 0x8ADA8930, 0xB0638179,
      0xCC899961, 0x846EE454, 0xC2606D6D, 0xE1257970)
    ensures Turns(0x5CB0A9DC, 0x12DCBFDB, 0xC2606D6D, 0x9DC68B63, 0xE1F20C33, 0xFE777BBF, 0xE1257970, 0x8ADA8930,
      0xB0638179, 0xCC899961, 0xA7A3623F, 0x49F5114A)
    ensures Turns(0x76F988DA, 0xE2E2C38E, 0xA7A3623F, 0xC2606D6D, 0x9DC68B63, 0xE1F20C33, 0x49F5114A, 0xE1257970,
      0x8ADA8930, 0xB0638179, 0xC5D53D8D, 0xAA47C347)
  {
  }

  lemma Turns3()
    ensures Turns(0x983E5152, 0xC8215C1A, 0xC5D53D8D, 0xA7A3623F, 0xC2606D6D, 0x9DC68B63, 0xAA47C347, 0x49F5114A,
      0xE1257970, 0x8ADA8930, 0x1C2C2838, 0x2823EF91)
    ensures Turns(0xA831C66D, 0xB73679A2, 0x1C2C2838, 0xC5D53D8D, 0xA7A3623F, 0xC2606D6D, 0x2823EF91, 0xAA47C347,
      0x49F5114A, 0xE1257970, 0xCDE8037D, 0x14383D8E)
    ensures Turns(0xB00327C8, 0xE5BC3909, 0xCDE8037D, 0x1C2C2838, 0xC5D53D8D, 0xA7A3623F, 0x14383D8E, 0x2823EF91,
      0xAA47C347, 0x49F5114A, 0xB62EC4BC, 0xC74C6516)
    ensures Turns(0xBF597FC7, 0x32663C5B, 0xB62EC4BC, 0xCDE8037D, 0x1C2C2838, 0xC5D53D8D, 0xC74C6516, 0x14383D8E,
      0x2823EF91, 0xAA47C347, 0x77D37528, 0xEDFFBFF8)
    ensures Turns(0xC6E00BF3, 0x9D209D67, 0x77D37528, 0xB62EC4BC, 0xCDE8037D, 0x1C2C2838, 0xEDFFBFF8, 0xC74C6516,
      0x14383D8E, 0x2823EF91, 0x363482C9, 0x6112A3B7)
    ensures Turns(0xD5A79147, 0xEC8726CB, 0x363482C9, 0x77D37528, 0xB62EC4BC, 0xCDE8037D, 0x6112A3B7, 0xEDFFBFF8,
      0xC74C6516, 0x14383D8E, 0xA0060B30, 0xADE79437)
    ensures Turns(0x06CA6351, 0x702138A4, 0xA0060B30, 0x363482C9, 0x77D37528, 0xB62EC4BC, 0xADE79437, 0x6112A3B7,
      0xEDFFBFF8, 0xC74C6516, 0xEA992A22, 0x0109AB3A)
    ensures Turns(0x14292967, 0xD3B7973B, 0xEA992A22, 0xA0060B30, 0x363482C9, 0x77D37528, 0x0109AB3A, 0xADE79437,
      0x6112A3B7, 0xEDFFBFF8, 0x73B33BF5, 0xBA591112)
  {
  }

  lemma Turns4()
    ensures Turns(0x27B70A85, 0x93F5997F, 0x73B33BF5, 0xEA992A22, 0xA0060B30, 0x363482C9, 0xBA591112, 0x0109AB3A,
      0xADE79437, 0x6112A3B7, 0x98E12507, 0x9CD9F5F6)
    ensures Turns(0x2E1B2138, 0x3B68BA73, 0x98E12507, 0x73B33BF5, 0xEA992A22, 0xA0060B30, 0x9CD9F5F6, 0xBA591112,
      0x0109AB3A, 0xADE79437, 0xFE604DF5, 0x59249DD3)
    ensures Turns(0x4D2C6DFC, 0xAFF4FFC1, 0xFE604DF5, 0x98E12507, 0x73B33BF5, 0xEA992A22, 0x59249DD3, 0x9CD9F5F6,
      0xBA591112, 0x0109AB3A, 0xA9A7738C, 0x085F3833)
    ensures Turns(0x53380D13, 0xF10A5C62, 0xA9A7738C, 0xFE604DF5, 0x98E12507, 0x73B33BF5, 0x085F3833, 0x59249DD3,
      0x9CD9F5F6, 0xBA591112, 0x65A0CFE4, 0xF4B002D6)
    ensures Turns(0x650A7354, 0x0A8B3996, 0x65A0CFE4, 0xA9A7738C, 0xFE604DF5, 0x98E12507, 0xF4B002D6, 0x085F3833,
      0x59249DD3, 0x9CD9F5F6, 0x41A65CB1, 0x0772A26B)
    ensures Turns(0x766A0ABB, 0x72AF830A, 0x41A65CB1, 0x65A0CFE4, 0xA9A7738C, 0xFE604DF5, 0x0772A26B, 0xF4B002D6,
      0x085F3833, 0x59249DD3, 0x34DF1604, 0xA507A53D)
    ensures Turns(0x81C2C92E, 0x9409E33E, 0x34DF1604, 0x41A65CB1, 0x65A0CFE4, 0xA9A7738C, 0xA507A53D, 0x0772A26B,
      0xF4B002D6, 0x085F3833, 0x6DC57A8A, 0xF0781BC8)
    ensures Turns(0x92722C85, 0x24641522, 0x6DC57A8A, 0x34DF1604, 0x41A65CB1, 0x65A0CFE4, 0xF0781BC8, 0xA507A53D,
      0x0772A26B, 0xF4B002D6, 0x79EA687A, 0x1EFBC0A0)
  {
  }

  lemma Turns5()
    ensures Turns(0xA2BFE8A1, 0x9F47BF94, 0x79EA687A, 0x6DC57A8A, 0x34DF1604, 0x41A65CB1, 0x1EFBC0A0, 0xF0781BC8,
      0xA507A53D, 0x0772A26B, 0xD6670766, 0x26352D63)
    ensures Turns(0xA81A664B, 0xF0A64F5A, 0xD6670766, 0x79EA687A, 0x6DC57A8A, 0x34DF1604, 0x26352D63, 0x1EFBC0A0,
      0xF0781BC8, 0xA507A53D, 0xDF46652F, 0x838B2711)
    ensures Turns(0xC24B8B70, 0x3E246A79, 0xDF46652F, 0xD6670766, 0x79EA687A, 0x6DC57A8A, 0x838B2711, 0x26352D63,
      0x1EFBC0A0, 0xF0781BC8, 0x17AA0DFE, 0xDECD4715)
    ensures Turns(0xC76C51A3, 0x27333BA3, 0x17AA0DFE, 0xDF46652F, 0xD6670766, 0x79EA687A, 0xDECD4715, 0x838B2711,
      0x26352D63, 0x1EFBC0A0, 0x9D4BAF93, 0xFDA24C2E)
    ensures Turns(0xD192E819, 0x0C4763F2, 0x9D4BAF93, 0x17AA0DFE, 0xDF46652F, 0xD6670766, 0xFDA24C2E, 0xDECD4715,
      0x838B2711, 0x26352D63, 0x26628815, 0xA80F11F0)
    ensures Turns(0xD6990624, 0x840ABF27, 0x26628815, 0x9D4BAF93, 0x17AA0DFE, 0xDF46652F, 0xA80F11F0, 0xFDA24C2E,
      0xDECD4715, 0x838B2711, 0x72AB4B91, 0xB7755DA1)
    ensures Turns(0xF40E3585, 0x7A290D5D, 0x72AB4B91, 0x26628815, 0x9D4BAF93, 0x17AA0DFE, 0xB7755DA1, 0xA80F11F0,
      0xFDA24C2E, 0xDECD4715, 0xA14C14B0, 0xD57B94A9)
    ensures Turns(0x106AA070, 0x065C43DA, 0xA14C14B0, 0x72AB4B91, 0x26628815, 0x9D4BAF93, 0xD57B94A9, 0xB7755DA1,
      0xA80F11F0, 0xFDA24C2E, 0x4172328D, 0xFECF0BC6)
  {
  }

  lemma Turns6()
    ensures Turns(0x19A4C116, 0xFB3E89CB, 0x4172328D, 0xA14C14B0, 0x72AB4B91, 0x26628815, 0xFECF0BC6, 0xD57B94A9,
      0xB7755DA1, 0xA80F11F0, 0x05757CEB, 0xBD714038)
    ensures Turns(0x1E376C08, 0xCC7617DB, 0x05757CEB, 0x4172328D, 0xA14C14B0, 0x72AB4B91, 0xBD714038, 0xFECF0BC6,
      0xD57B94A9, 0xB7755DA1, 0xF11BFAA8, 0x6E5C390C)
    ensures Turns(0x2748774C, 0xB9E66C34, 0xF11BFAA8, 0x05757CEB, 0x4172328D, 0xA14C14B0, 0x6E5C390C, 0xBD714038,
      0xFECF0BC6, 0xD57B94A9, 0x7A0508A1, 0x52F1CCF7)
    ensures Turns(0x34B0BCB5, 0xA9993667, 0x7A0508A1, 0xF11BFAA8, 0x05757CEB, 0x4172328D, 0x52F1CCF7, 0x6E5C390C,
      0xBD714038, 0xFECF0BC6, 0x886E7A22, 0x49231C1E)
    ensures Turns(0x391C0CB3, 0x84BADEDD, 0x886E7A22, 0x7A0508A1, 0xF11BFAA8, 0x05757CEB, 0x49231C1E, 0x52F1CCF7,
      0x6E5C390C, 0xBD714038, 0x101FD28F, 0x529E7D00)
    ensures Turns(0x4ED8AA4A, 0xC21462BC, 0x101FD28F, 0x886E7A22, 0x7A0508A1, 0xF11BFAA8, 0x529E7D00, 0x49231C1E,
      0x52F1CCF7, 0x6E5C390C, 0xF5702FDB, 0x9F4787C3)
    ensures Turns(0x5B9CCA4F, 0x1487472C, 0xF5702FDB, 0x101FD28F, 0x886E7A22, 0x7A0508A1, 0x9F4787C3, 0x529E7D00,
      0x49231C1E, 0x52F1CCF7, 0x3EC45CDB, 0xE50E1B4F)
    ensures Turns(0x682E6FF3, 0xB20F7A99, 0x3EC45CDB, 0xF5702FDB, 0x101FD28F, 0x886E7A22, 0xE50E1B4F, 0x9F4787C3,
      0x529E7D00, 0x49231C1E, 0x38CC9913, 0x54CB266B)
  {
  }

  lemma Turns7()
    ensures Turns(0x748F82EE, 0xEF57B9CD, 0x38CC9913, 0x3EC45CDB, 0xF5702FDB, 0x101FD28F, 0x54CB266B, 0xE50E1B4F,
      0x9F4787C3, 0x529E7D00, 0xFCD1887B, 0x9B5E906C)
    ensures Turns(0x78A5636F, 0xEBE6B238, 0xFCD1887B, 0x38CC9913, 0x3EC45CDB, 0xF5702FDB, 0x9B5E906C, 0x54CB266B,
      0xE50E1B4F, 0x9F4787C3, 0xC062D46F, 0x7E44008E)
    ensures Turns(0x84C87814, 0x9FE3095E, 0xC062D46F, 0xFCD1887B, 0x38CC9913, 0x3EC45CDB, 0x7E44008E, 0x9B5E906C,
      0x54CB266B, 0xE50E1B4F, 0xFFB70472, 0x6D83BFC6)
    ensures Turns(0x8CC70208, 0x78BC8D4B, 0xFFB70472, 0xC062D46F, 0xFCD1887B, 0x38CC9913, 0x6D83BFC6, 0x7E44008E,
      0x9B5E906C, 0x54CB266B, 0xB6AE8FFF, 0xB21BAD3D)
    ensures Turns(0x90BEFFFA, 0xA43FCF15, 0xB6AE8FFF, 0xFFB70472, 0xC062D46F, 0xFCD1887B, 0xB21BAD3D, 0x6D83BFC6,
      0x7E44008E, 0x9B5E906C, 0xB85E2CE9, 0x961F4894)
    ensures Turns(0xA4506CEB, 0x668B2FF8, 0xB85E2CE9, 0xB6AE8FFF, 0xFFB70472, 0xC062D46F, 0x961F4894, 0xB21BAD3D,
      0x6D83BFC6, 0x7E44008E, 0x04D24D6C, 0x948D25B6)
    ensures Turns(0xBEF9A3F7, 0xEEABA2CC, 0x04D24D6C, 0xB85E2CE9, 0xB6AE8FFF, 0xFFB70472, 0x948D25B6, 0x961F4894,
      0xB21BAD3D, 0x6D83BFC6, 0xD39A2165, 0xFB121210)
    ensures Turns(0xC67178F2, 0x12B1EDEB, 0xD39A2165, 0x04D24D6C, 0xB85E2CE9, 0xB6AE8FFF, 0xFB121210, 0x948D25B6,
      0x961F4894, 0xB21BAD3D, 0x506E3058, 0x5EF50F24)
  {
  }

  lemma Rounds0(m: seq<Word>)
    requires |m| == 16 && IsBlock(m)
    ensures At(m, 8,
      0x85A07B5F, 0xE5030380, 0x2B4209F5, 0x04409A6A, 0x0C657A79, 0x9B27A401, 0x714260AD, 0x43ADA245)
  {
    hide At, Turns, K256, Word, IsBlock;
    Begins(m);
    Constants0();
    Words0(m);
    Turns0();
    EveryTurn(m, 0);
    EveryTurn(m, 1);
    EveryTurn(m, 2);
    EveryTurn(m, 3);
    EveryTurn(m, 4);
    EveryTurn(m, 5);
    EveryTurn(m, 6);
    EveryTurn(m, 7);
  }

  lemma Rounds1(m: seq<Word>)
    requires |m| == 16 && IsBlock(m)
    ensures At(m, 16,
      0xB0FA238E, 0xC0645FDE, 0xD932EB16, 0x87912990, 0x07590DCD, 0x0B92F20C, 0x745A48DE, 0x1E578218)
  {
    hide At, Turns, K256, Word, IsBlock;
    Rounds0(m);
    Constants1();
    Words1(m);
    Turns1();
    EveryTurn(m, 8);
    EveryTurn(m, 9);
    EveryTurn(m, 10);
    EveryTurn(m, 11);
    EveryTurn(m, 12);
    EveryTurn(m, 13);
    EveryTurn(m, 14);
    EveryTurn(m, 15);
  }

  lemma Rounds2(m: seq<Word>)
    requires |m| == 16 && IsBlock(m)
    ensures At(m, 24,
      0xC5D53D8D, 0xA7A3623F, 0xC2606D6D, 0x9DC68B63, 0xAA47C347, 0x49F5114A, 0xE1257970, 0x8ADA8930)
  {
    hide At, Turns, K256, Word, IsBlock;
    Rounds1(m);
    Constants2();
    Words2(m);
    Turns2();
    EveryTurn(m, 16);
    EveryTurn(m, 17);
    EveryTurn(m, 18);
    EveryTurn(m, 19);
    EveryTurn(m, 20);
    EveryTurn(m, 21);
    EveryTurn(m, 22);
    EveryTurn(m, 23);
  }

  lemma Rounds3(m: seq<Word>)
    requires |m| == 16 && IsBlock(m)
    ensures At(m, 32,
      0x73B33BF5, 0xEA992A22, 0xA0060B30, 0x363482C9, 0xBA591112, 0x0109AB3A, 0xADE79437, 0x6112A3B7)
  {
    hide At, Turns, K256, Word, IsBlock;
    Rounds2(m);
    Constants3();
    Words3(m);
    Turns3();
    EveryTurn(m, 24);
    EveryTurn(m, 25);
    EveryTurn(m, 26);
    EveryTurn(m, 27);
    EveryTurn(m, 28);
    EveryTurn(m, 29);
    EveryTurn(m, 30);
    EveryTurn(m, 31);
  }

  lemma Rounds4(m: seq<Word>)
    requires |m| == 16 && IsBlock(m)
    ensures At(m, 40,
      0x79EA687A, 0x6DC57A8A, 0x34DF1604, 0x41A65CB1, 0x1EFBC0A0, 0xF0781BC8, 0xA507A53D, 0x0772A26B)
  {
    hide At, Turns, K256, Word, IsBlock;
    Rounds3(m);
    Constants4();
    Words4(m);
    Turns4();
    EveryTurn(m, 32);
    EveryTurn(m, 33);
    EveryTurn(m, 34);
    EveryTurn(m, 35);
    EveryTurn(m, 36);
    EveryTurn(m, 37);
    EveryTurn(m, 38);
    EveryTurn(m, 39);
  }

  lemma Rounds5(m: seq<Word>)
    requires |m| == 16 && IsBlock(m)
    ensures At(m, 48,
      0x4172328D, 0xA14C14B0, 0x72AB4B91, 0x26628815, 0xFECF0BC6, 0xD57B94A9, 0xB7755DA1, 0xA80F11F0)
  {
    hide At, Turns, K256, Word, IsBlock;
    Rounds4(m);
    Constants5();
    Words5(m);
    Turns5();
    EveryTurn(m, 40);
    EveryTurn(m, 41);
    EveryTurn(m, 42);
    EveryTurn(m, 43);
    EveryTurn(m, 44);
    EveryTurn(m, 45);
    EveryTurn(m, 46);
    EveryTurn(m, 47);
  }

  lemma Rounds6(m: seq<Word>)
    requires |m| == 16 && IsBlock(m)
    ensures At(m, 56,
      0x38CC9913, 0x3EC45CDB, 0xF5702FDB, 0x101FD28F, 0x54CB266B, 0xE50E1B4F, 0x9F4787C3, 0x529E7D00)
  {
    hide At, Turns, K256, Word, IsBlock;
    Rounds5(m);
    Constants6();
    Words6(m);
    Turns6();
    EveryTurn(m, 48);
    EveryTurn(m, 49);
    EveryTurn(m, 50);
    EveryTurn(m, 51);
    EveryTurn(m, 52);
    EveryTurn(m, 53);
    EveryTurn(m, 54);
    EveryTurn(m, 55);
  }

  lemma Rounds7(m: seq<Word>)
    requires |m| == 16 && IsBlock(m)
    ensures At(m, 64,
      0x506E3058, 0xD39A2165, 0x04D24D6C, 0xB85E2CE9, 0x5EF50F24, 0xFB121210, 0x948D25B6, 0x961F4894)
  {
    hide At, Turns, K256, Word, IsBlock;
    Rounds6(m);
    Constants7();
    Words7(m);
    Turns7();
    EveryTurn(m, 56);
    EveryTurn(m, 57);
    EveryTurn(m, 58);
    EveryTurn(m, 59);
    EveryTurn(m, 60);
    EveryTurn(m, 61);
    EveryTurn(m, 62);
    EveryTurn(m, 63);
  }

  // ---------- The digest ----------

  const DIGEST: seq<Word> := [0xBA7816BF, 0x8F01CFEA, 0x414140DE, 0x5DAE2223,
    0xB00361A3, 0x96177A9C, 0xB410FF61, 0xF20015AD]

  lemma Ends(m: seq<Word>)
    requires |m| == 16 && IsBlock(m)
    ensures Feed(SHA256_INIT, Sha256Rounds(64, m, START)) == DIGEST
  {
    hide IsBlock, Feed;
    Rounds7(m);
    assert Sha256Rounds(64, m, START) ==
      Regs8(0x506E3058, 0xD39A2165, 0x04D24D6C, 0xB85E2CE9,
        0x5EF50F24, 0xFB121210, 0x948D25B6, 0x961F4894);
    LastSums();
  }

  lemma LastSums()
    ensures Feed(SHA256_INIT,
      Regs8(0x506E3058, 0xD39A2165, 0x04D24D6C, 0xB85E2CE9,
        0x5EF50F24, 0xFB121210, 0x948D25B6, 0x961F4894)) == DIGEST
  {
  }

  lemma Output()
    ensures OutputBE(DIGEST) ==
      [0xBA, 0x78, 0x16, 0xBF] + [0x8F, 0x01, 0xCF, 0xEA] + [0x41, 0x41, 0x40, 0xDE] + [0x5D, 0xAE, 0x22, 0x23] +
      ([0xB0, 0x03, 0x61, 0xA3] + [0x96, 0x17, 0x7A, 0x9C] + [0xB4, 0x10, 0xFF, 0x61] + [0xF2, 0x00, 0x15, 0xAD])
  {
    assert BytesBE(0xBA7816BF) == [0xBA, 0x78, 0x16, 0xBF];
    assert BytesBE(0x8F01CFEA) == [0x8F, 0x01, 0xCF, 0xEA];
    assert BytesBE(0x414140DE) == [0x41, 0x41, 0x40, 0xDE];
    assert BytesBE(0x5DAE2223) == [0x5D, 0xAE, 0x22, 0x23];
    assert BytesBE(0xB00361A3) == [0xB0, 0x03, 0x61, 0xA3];
    assert BytesBE(0x96177A9C) == [0x96, 0x17, 0x7A, 0x9C];
    assert BytesBE(0xB410FF61) == [0xB4, 0x10, 0xFF, 0x61];
    assert BytesBE(0xF20015AD) == [0xF2, 0x00, 0x15, 0xAD];
    hide BytesBE, OutputBE;
    EightBE(0xBA7816BF, 0x8F01CFEA, 0x414140DE, 0x5DAE2223,
      0xB00361A3, 0x96177A9C, 0xB410FF61, 0xF20015AD);
  }

  lemma Start()
    ensures START == Regs8(SHA256_INIT[0], SHA256_INIT[1], SHA256_INIT[2], SHA256_INIT[3],
      SHA256_INIT[4], SHA256_INIT[5], SHA256_INIT[6], SHA256_INIT[7])
  {
  }

  // The example of FIPS 180-4.
  lemma AbcDigest()
    ensures HashStream.Digest(HashStream.Sha256, ABC) ==
      [0xBA, 0x78, 0x16, 0xBF] + [0x8F, 0x01, 0xCF, 0xEA] + [0x41, 0x41, 0x40, 0xDE] + [0x5D, 0xAE, 0x22, 0x23] +
      ([0xB0, 0x03, 0x61, 0xA3] + [0x96, 0x17, 0x7A, 0x9C] + [0xB4, 0x10, 0xFF, 0x61] + [0xF2, 0x00, 0x15, 0xAD])
  {
    hide Sha256Rounds, Padded, OutputBE, Feed, LengthField64, IsAbc, START;
    var block := Padded(ABC, 64, LengthField64(3));
    BlockBE();
    FoldBlock(HashStream.Compressor(HashStream.Sha256), SHA256_INIT, block, 64);
    Ends(WordsBE(block));
    Start();
    Output();
  }
}
