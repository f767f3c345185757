/** The MD5 digest of "abc", operation by operation. */
module Md5Answer {
  import opened Common
  import opened HashCore
  import opened Rfc1321
  import opened AbcBlock
  import HashStream

  const START := Regs(INIT[0], INIT[1], INIT[2], INIT[3])

  predicate IsBlock(m: seq<Word>) {
    IsAbc(m, 0x80636261, 0, 14, 0x18)
  }

  // ---------- The operations ----------

  // The registers after n operations.
  predicate At(m: seq<Word>, n: nat, a: Word, b: Word, c: Word, d: Word)
    requires |m| == 16 && n <= 64
  {
    Steps(n, m, START) == Regs(a, b, c, d)
  }

  // Operation i takes this word, this constant and this shift amount.
  predicate Uses(m: seq<Word>, i: nat, w: Word, k: Word, s: Word)
    requires |m| == 16 && i < 64
  {
    m[WordIndex(i)] == w && T(i) == k && Shift(i) == s
  }

  predicate Operates(i: nat, w: Word, k: Word, s: Word, a: Word, b: Word, c: Word, d: Word, newB: Word) {
    0 < s < 32 && Add(b, Rotl(Add(Add(Add(a, Mix(i, b, c, d)), w), k), s)) == newB
  }

  lemma EveryOperation(m: seq<Word>, i: nat)
    requires |m| == 16 && i < 64
    ensures forall w, k, s, a, b, c, d, newB
      {:trigger At(m, i, a, b, c, d), Uses(m, i, w, k, s), Operates(i, w, k, s, a, b, c, d, newB)} |
      At(m, i, a, b, c, d) && Uses(m, i, w, k, s) && Operates(i, w, k, s, a, b, c, d, newB) ::
      At(m, i + 1, d, newB, b, c)
  {
    hide T, Shift, WordIndex, Add, Rotl, Mix, START;
  }

  lemma Uses0(m: seq<Word>)
    requires |m| == 16 && IsBlock(m)
    ensures Uses(m, 0, 0x80636261, 0xD76AA478, 7)
    ensures Uses(m, 1, 0x00000000, 0xE8C7B756, 12)
    ensures Uses(m, 2, 0x00000000, 0x242070DB, 17)
    ensures Uses(m, 3, 0x00000000, 0xC1BDCEEE, 22)
  {
  }

  lemma Uses1(m: seq<Word>)
    requires |m| == 16 && IsBlock(m)
    ensures Uses(m, 4, 0x00000000, 0xF57C0FAF, 7)
    ensures Uses(m, 5, 0x00000000, 0x4787C62A, 12)
    ensures Uses(m, 6, 0x00000000, 0xA8304613, 17)
    ensures Uses(m, 7, 0x00000000, 0xFD469501, 22)
  {
  }

  lemma Uses2(m: seq<Word>)
    requires |m| == 16 && IsBlock(m)
    ensures Uses(m, 8, 0x00000000, 0x698098D8, 7)
    ensures Uses(m, 9, 0x00000000, 0x8B44F7AF, 12)
    ensures Uses(m, 10, 0x00000000, 0xFFFF5BB1, 17)
    ensures Uses(m, 11, 0x00000000, 0x895CD7BE, 22)
  {
  }

  lemma Uses3(m: seq<Word>)
    requires |m| == 16 && IsBlock(m)
    ensures Uses(m, 12, 0x00000000, 0x6B901122, 7)
    ensures Uses(m, 13, 0x00000000, 0xFD987193, 12)
    ensures Uses(m, 14, 0x00000018, 0xA679438E, 17)
    ensures Uses(m, 15, 0x00000000, 0x49B40821, 22)
  {
  }

  lemma Uses4(m: seq<Word>)
    requires |m| == 16 && IsBlock(m)
    ensures Uses(m, 16, 0x00000000, 0xF61E2562, 5)
    ensures Uses(m, 17, 0x00000000, 0xC040B340, 9)
    ensures Uses(m, 18, 0x00000000, 0x265E5A51, 14)
    ensures Uses(m, 19, 0x80636261, 0xE9B6C7AA, 20)
  {
  }

  lemma Uses5(m: seq<Word>)
    requires |m| == 16 && IsBlock(m)
    ensures Uses(m, 20, 0x00000000, 0xD62F105D, 5)
    ensures Uses(m, 21, 0x00000000, 0x02441453, 9)
    ensures Uses(m, 22, 0x00000000, 0xD8A1E681, 14)
    ensures Uses(m, 23, 0x00000000, 0xE7D3FBC8, 20)
  {
  }

  lemma Uses6(m: seq<Word>)
    requires |m| == 16 && IsBlock(m)
    ensures Uses(m, 24, 0x00000000, 0x21E1CDE6, 5)
    ensures Uses(m, 25, 0x00000018, 0xC33707D6, 9)
    ensures Uses(m, 26, 0x00000000, 0xF4D50D87, 14)
    ensures Uses(m, 27, 0x00000000, 0x455A14ED, 20)
  {
  }

  lemma Uses7(m: seq<Word>)
    requires |m| == 16 && IsBlock(m)
    ensures Uses(m, 28, 0x00000000, 0xA9E3E905, 5)
    ensures Uses(m, 29, 0x00000000, 0xFCEFA3F8, 9)
    ensures Uses(m, 30, 0x00000000, 0x676F02D9, 14)
    ensures Uses(m, 31, 0x00000000, 0x8D2A4C8A, 20)
  {
  }

  lemma Uses8(m: seq<Word>)
    requires |m| == 16 && IsBlock(m)
    ensures Uses(m, 32, 0x00000000, 0xFFFA3942, 4)
    ensures Uses(m, 33, 0x00000000, 0x8771F681, 11)
    ensures Uses(m, 34, 0x00000000, 0x6D9D6122, 16)
    ensures Uses(m, 35, 0x00000018, 0xFDE5380C, 23)
  {
  }

  lemma Uses9(m: seq<Word>)
    requires |m| == 16 && IsBlock(m)
    ensures Uses(m, 36, 0x00000000, 0xA4BEEA44, 4)
    ensures Uses(m, 37, 0x00000000, 0x4BDECFA9, 11)
    ensures Uses(m, 38, 0x00000000, 0xF6BB4B60, 16)
    ensures Uses(m, 39, 0x00000000, 0xBEBFBC70, 23)
  {
  }

  lemma Uses10(m: seq<Word>)
    requires |m| == 16 && IsBlock(m)
    ensures Uses(m, 40, 0x00000000, 0x289B7EC6, 4)
    ensures Uses(m, 41, 0x80636261, 0xEAA127FA, 11)
    ensures Uses(m, 42, 0x00000000, 0xD4EF3085, 16)
    ensures Uses(m, 43, 0x00000000, 0x04881D05, 23)
  {
  }

  lemma Uses11(m: seq<Word>)
    requires |m| == 16 && IsBlock(m)
    ensures Uses(m, 44, 0x00000000, 0xD9D4D039, 4)
    ensures Uses(m, 45, 0x00000000, 0xE6DB99E5, 11)
    ensures Uses(m, 46, 0x00000000, 0x1FA27CF8, 16)
    ensures Uses(m, 47, 0x00000000, 0xC4AC5665, 23)
  {
  }

  lemma Uses12(m: seq<Word>)
    requires |m| == 16 && IsBlock(m)
    ensures Uses(m, 48, 0x80636261, 0xF4292244, 6)
    ensures Uses(m, 49, 0x00000000, 0x432AFF97, 10)
    ensures Uses(m, 50, 0x00000018, 0xAB9423A7, 15)
    ensures Uses(m, 51, 0x00000000, 0xFC93A039, 21)
  {
  }

  lemma Uses13(m: seq<Word>)
    requires |m| == 16 && IsBlock(m)
    ensures Uses(m, 52, 0x00000000, 0x655B59C3, 6)
    ensures Uses(m, 53, 0x00000000, 0x8F0CCC92, 10)
    ensures Uses(m, 54, 0x00000000, 0xFFEFF47D, 15)
    ensures Uses(m, 55, 0x00000000, 0x85845DD1, 21)
  {
  }

  lemma Uses14(m: seq<Word>)
    requires |m| == 16 && IsBlock(m)
    ensures Uses(m, 56, 0x00000000, 0x6FA87E4F, 6)
    ensures Uses(m, 57, 0x00000000, 0xFE2CE6E0, 10)
    ensures Uses(m, 58, 0x00000000, 0xA3014314, 15)
    ensures Uses(m, 59, 0x00000000, 0x4E0811A1, 21)
  {
  }

  lemma Uses15(m: seq<Word>)
    requires |m| == 16 && IsBlock(m)
    ensures Uses(m, 60, 0x00000000, 0xF7537E82, 6)
    ensures Uses(m, 61, 0x00000000, 0xBD3AF235, 10)
    ensures Uses(m, 62, 0x00000000, 0x2AD7D2BB, 15)
    ensures Uses(m, 63, 0x00000000, 0xEB86D391, 21)
  {
  }

  lemma Operates0()
    ensures Operates(0, 0x80636261, 0xD76AA478, 7, 0x67452301, 0xEFCDAB89, 0x98BADCFE, 0x10325476, 0xD6D117B4)
    ensures Operates(1, 0x00000000, 0xE8C7B756, 12, 0x10325476, 0xD6D117B4, 0xEFCDAB89, 0x98BADCFE, 0x344A8432)
    ensures Operates(2, 0x00000000, 0x242070DB, 17, 0x98BADCFE, 0x344A8432, 0xD6D117B4, 0xEFCDAB89, 0x2F6FBD72)
    ensures Operates(3, 0x00000000, 0xC1BDCEEE, 22, 0xEFCDAB89, 0x2F6FBD72, 0x344A8432, 0xD6D117B4, 0x7AD956F2)
    ensures Operates(4, 0x00000000, 0xF57C0FAF, 7, 0xD6D117B4, 0x7AD956F2, 0x2F6FBD72, 0x344A8432, 0xC73741EF)
    ensures Operates(5, 0x00000000, 0x4787C62A, 12, 0x344A8432, 0xC73741EF, 0x7AD956F2, 0x2F6FBD72, 0x8BAC3051)
    ensures Operates(6, 0x00000000, 0xA8304613, 17, 0x2F6FBD72, 0x8BAC3051, 0xC73741EF, 0x7AD956F2, 0x207DC67B)
    ensures Operates(7, 0x00000000, 0xFD469501, 22, 0x7AD956F2, 0x207DC67B, 0x8BAC3051, 0xC73741EF, 0x928D99F6)
  {
  }

  lemma Operates1()
    ensures Operates(8, 0x00000000, 0x698098D8, 7, 0xC73741EF, 0x928D99F6, 0x207DC67B, 0x8BAC3051, 0x854B3712)
    ensures Operates(9, 0x00000000, 0x8B44F7AF, 12, 0x8BAC3051, 0x854B3712, 0x928D99F6, 0x207DC67B, 0x74E2F284)
    ensures Operates(10, 0x00000000, 0xFFFF5BB1, 17, 0x207DC67B, 0x74E2F284, 0x854B3712, 0x928D99F6, 0x3020401C)
    ensures Operates(11, 0x00000000, 0x895CD7BE, 22, 0x928D99F6, 0x3020401C, 0x74E2F284, 0x854B3712, 0x5ED49596)
    ensures Operates(12, 0x00000000, 0x6B901122, 7, 0x854B3712, 0x5ED49596, 0x3020401C, 0x74E2F284, 0xDDA9B9A6)
    ensures Operates(13, 0x00000000, 0xFD987193, 12, 0x74E2F284, 0xDDA9B9A6, 0x5ED49596, 0x3020401C, 0xA1051895)
    ensures Operates(14, 0x00000018, 0xA679438E, 17, 0x3020401C, 0xA1051895, 0xDDA9B9A6, 0x5ED49596, 0xE396856B)
    ensures Operates(15, 0x00000000, 0x49B40821, 22, 0x5ED49596, 0xE396856B, 0xA1051895, 0xDDA9B9A6, 0x72AFF2E0)
  {
  }

  lemma Operates2()
    ensures Operates(16, 0x00000000, 0xF61E2562, 5, 0xDDA9B9A6, 0x72AFF2E0, 0xE396856B, 0xA1051895, 0x3E9E9126)
    ensures Operates(17, 0x00000000, 0xC040B340, 9, 0xA1051895, 0x3E9E9126, 0x72AFF2E0, 0xE396856B, 0x4A1D804E)
    ensures Operates(18, 0x00000000, 0x265E5A51, 14, 0xE396856B, 0x4A1D804E, 0x3E9E9126, 0x72AFF2E0, 0xE25E1652)
    ensures Operates(19, 0x80636261, 0xE9B6C7AA, 20, 0x72AFF2E0, 0xE25E1652, 0x4A1D804E, 0x3E9E9126, 0xB5B204E4)
    ensures Operates(20, 0x00000000, 0xD62F105D, 5, 0x3E9E9126, 0xB5B204E4, 0xE25E1652, 0x4A1D804E, 0x59A8FFDA)
    ensures Operates(21, 0x00000000, 0x02441453, 9, 0x4A1D804E, 0x59A8FFDA, 0xB5B204E4, 0xE25E1652, 0x6D002F1E)
    ensures Operates(22, 0x00000000, 0xD8A1E681, 14, 0xE25E1652, 0x6D002F1E, 0x59A8FFDA, 0xB5B204E4, 0xABFC7920)
    ensures Operates(23, 0x00000000, 0xE7D3FBC8, 20, 0xB5B204E4, 0xABFC7920, 0x6D002F1E, 0x59A8FFDA, 0x47092C07)
  {
  }

  lemma Operates3()
    ensures Operates(24, 0x00000000, 0x21E1CDE6, 5, 0x59A8FFDA, 0x47092C07, 0xABFC7920, 0x6D002F1E, 0xB7F268CF)
    ensures Operates(25, 0x00000018, 0xC33707D6, 9, 0x6D002F1E, 0xB7F268CF, 0x47092C07, 0xABFC7920, 0x09388EFF)
    ensures Operates(26, 0x00000000, 0xF4D50D87, 14, 0xABFC7920, 0x09388EFF, 0xB7F268CF, 0x47092C07, 0xFE1623B1)
    ensures Operates(27, 0x00000000, 0x455A14ED, 20, 0x47092C07, 0xFE1623B1, 0x09388EFF, 0xB7F268CF, 0x786ACB8F)
    ensures Operates(28, 0x00000000, 0xA9E3E905, 5, 0xB7F268CF, 0x786ACB8F, 0xFE1623B1, 0x09388EFF, 0x790A77FB)
    ensures Operates(29, 0x00000000, 0xFCEFA3F8, 9, 0x09388EFF, 0x790A77FB, 0x786ACB8F, 0xFE1623B1, 0x9F47E4F8)
    ensures Operates(30, 0x00000000, 0x676F02D9, 14, 0xFE1623B1, 0x9F47E4F8, 0x790A77FB, 0x786ACB8F, 0xA62884AA)
    ensures Operates(31, 0x00000000, 0x8D2A4C8A, 20, 0x786ACB8F, 0xA62884AA, 0x9F47E4F8, 0x790A77FB, 0x726342D3)
  {
  }

  lemma Operates4()
    ensures Operates(32, 0x00000000, 0xFFFA3942, 4, 0x790A77FB, 0x726342D3, 0xA62884AA, 0x9F47E4F8, 0xB3707EBF)
    ensures Operates(33, 0x00000000, 0x8771F681, 11, 0x9F47E4F8, 0xB3707EBF, 0x726342D3, 0xA62884AA, 0x60127B2E)
    ensures Operates(34, 0x00000000, 0x6D9D6122, 16, 0xA62884AA, 0x60127B2E, 0xB3707EBF, 0x726342D3, 0x8D212FF5)
    ensures Operates(35, 0x00000018, 0xFDE5380C, 23, 0x726342D3, 0x8D212FF5, 0x60127B2E, 0xB3707EBF, 0x3B0875C7)
    ensures Operates(36, 0x00000000, 0xA4BEEA44, 4, 0xB3707EBF, 0x3B0875C7, 0x8D212FF5, 0x60127B2E, 0x21B117B9)
    ensures Operates(37, 0x00000000, 0x4BDECFA9, 11, 0x60127B2E, 0x21B117B9, 0x3B0875C7, 0x8D212FF5, 0x6E7429D5)
    ensures Operates(38, 0x00000000, 0xF6BB4B60, 16, 0x8D212FF5, 0x6E7429D5, 0x21B117B9, 0x3B0875C7, 0x3575227E)
    ensures Operates(39, 0x00000000, 0xBEBFBC70, 23, 0x3B0875C7, 0x3575227E, 0x6E7429D5, 0x21B117B9, 0x5A2F5EA5)
  {
  }

  lemma Operates5()
    ensures Operates(40, 0x00000000, 0x289B7EC6, 4, 0x21B117B9, 0x5A2F5EA5, 0x3575227E, 0x6E7429D5, 0x11DE1779)
    ensures Operates(41, 0x80636261, 0xEAA127FA, 11, 0x6E7429D5, 0x11DE1779, 0x5A2F5EA5, 0x3575227E, 0xFADCAA38)
    ensures Operates(42, 0x00000000, 0xD4EF3085, 16, 0x3575227E, 0xFADCAA38, 0x11DE1779, 0x5A2F5EA5, 0x31C465CA)
    ensures Operates(43, 0x00000000, 0x04881D05, 23, 0x5A2F5EA5, 0x31C465CA, 0xFADCAA38, 0x11DE1779, 0x4C6124F4)
    ensures Operates(44, 0x00000000, 0xD9D4D039, 4, 0x11DE1779, 0x4C6124F4, 0x31C465CA, 0xFADCAA38, 0x7F2E507B)
    ensures Operates(45, 0x00000000, 0xE6DB99E5, 11, 0xFADCAA38, 0x7F2E507B, 0x4C6124F4, 0x31C465CA, 0x99D9679D)
    ensures Operates(46, 0x00000000, 0x1FA27CF8, 16, 0x31C465CA, 0x99D9679D, 0x7F2E507B, 0x4C6124F4, 0x8FAE6399)
    ensures Operates(47, 0x00000000, 0xC4AC5665, 23, 0x4C6124F4, 0x8FAE6399, 0x99D9679D, 0x7F2E507B, 0x7BEB9700)
  {
  }

  lemma Operates6()
    ensures Operates(48, 0x80636261, 0xF4292244, 6, 0x7F2E507B, 0x7BEB9700, 0x8FAE6399, 0x99D9679D, 0x7B201DF8)
    ensures Operates(49, 0x00000000, 0x432AFF97, 10, 0x99D9679D, 0x7B201DF8, 0x7BEB9700, 0x8FAE6399, 0xF4E8E96E)
    ensures Operates(50, 0x00000018, 0xAB9423A7, 15, 0x8FAE6399, 0xF4E8E96E, 0x7B201DF8, 0x7BEB9700, 0xB298CEFD)
    ensures Operates(51, 0x00000000, 0xFC93A039, 21, 0x7BEB9700, 0xB298CEFD, 0xF4E8E96E, 0x7B201DF8, 0x8BF025C4)
    ensures Operates(52, 0x00000000, 0x655B59C3, 6, 0x7B201DF8, 0x8BF025C4, 0xB298CEFD, 0xF4E8E96E, 0x06CC5E8A)
    ensures Operates(53, 0x00000000, 0x8F0CCC92, 10, 0xF4E8E96E, 0x06CC5E8A, 0x8BF025C4, 0xB298CEFD, 0x5B0D97AA)
    ensures Operates(54, 0x00000000, 0xFFEFF47D, 15, 0xB298CEFD, 0x5B0D97AA, 0x06CC5E8A, 0x8BF025C4, 0x7D632DD0)
    ensures Operates(55, 0x00000000, 0x85845DD1, 21, 0x8BF025C4, 0x7D632DD0, 0x5B0D97AA, 0x06CC5E8A, 0x3BFA2C27)
  {
  }

  lemma Operates7()
    ensures Operates(56, 0x00000000, 0x6FA87E4F, 6, 0x06CC5E8A, 0x3BFA2C27, 0x7D632DD0, 0x5B0D97AA, 0x7F81CC35)
    ensures Operates(57, 0x00000000, 0xFE2CE6E0, 10, 0x5B0D97AA, 0x7F81CC35, 0x3BFA2C27, 0x7D632DD0, 0x094454AB)
    ensures Operates(58, 0x00000000, 0xA3014314, 15, 0x7D632DD0, 0x094454AB, 0x7F81CC35, 0x3BFA2C27, 0x4F9DBE3F)
    ensures Operates(59, 0x00000000, 0x4E0811A1, 21, 0x3BFA2C27, 0x4F9DBE3F, 0x094454AB, 0x7F81CC35, 0x7327D604)
    ensures Operates(60, 0x00000000, 0xF7537E82, 6, 0x7F81CC35, 0x7327D604, 0x4F9DBE3F, 0x094454AB, 0x310ADE8F)
    ensures Operates(61, 0x00000000, 0xBD3AF235, 10, 0x094454AB, 0x310ADE8F, 0x7327D604, 0x4F9DBE3F, 0x624D8CB2)
    ensures Operates(62, 0x00000000, 0x2AD7D2BB, 15, 0x4F9DBE3F, 0x624D8CB2, 0x310ADE8F, 0x7327D604, 0xE484B9D8)
    ensures Operates(63, 0x00000000, 0xEB86D391, 21, 0x7327D604, 0xE484B9D8, 0x624D8CB2, 0x310ADE8F, 0xC08226B3)
  {
  }

  lemma Begins(m: seq<Word>)
    requires |m| == 16
    ensures At(m, 0, 0x67452301, 0xEFCDAB89, 0x98BADCFE, 0x10325476)
  {
  }

  lemma Steps0(m: seq<Word>)
    requires |m| == 16 && IsBlock(m)
    ensures At(m, 8, 0xC73741EF, 0x928D99F6, 0x207DC67B, 0x8BAC3051)
  {
    hide At, Uses, Operates, IsBlock;
    Begins(m);
    Uses0(m);
    Uses1(m);
    Operates0();
    EveryOperation(m, 0);
    EveryOperation(m, 1);
    EveryOperation(m, 2);
    EveryOperation(m, 3);
    EveryOperation(m, 4);
    EveryOperation(m, 5);
    EveryOperation(m, 6);
    EveryOperation(m, 7);
  }

  lemma Steps1(m: seq<Word>)
    requires |m| == 16 && IsBlock(m)
    ensures At(m, 16, 0xDDA9B9A6, 0x72AFF2E0, 0xE396856B, 0xA1051895)
  {
    hide At, Uses, Operates, IsBlock;
    Steps0(m);
    Uses2(m);
    Uses3(m);
    Operates1();
    EveryOperation(m, 8);
    EveryOperation(m, 9);
    EveryOperation(m, 10);
    EveryOperation(m, 11);
    EveryOperation(m, 12);
    EveryOperation(m, 13);
    EveryOperation(m, 14);
    EveryOperation(m, 15);
  }

  lemma Steps2(m: seq<Word>)
    requires |m| == 16 && IsBlock(m)
    ensures At(m, 24, 0x59A8FFDA, 0x47092C07, 0xABFC7920, 0x6D002F1E)
  {
    hide At, Uses, Operates, IsBlock;
    Steps1(m);
    Uses4(m);
    Uses5(m);
    Operates2();
    EveryOperation(m, 16);
    EveryOperation(m, 17);
    EveryOperation(m, 18);
    EveryOperation(m, 19);
    EveryOperation(m, 20);
    EveryOperation(m, 21);
    EveryOperation(m, 22);
    EveryOperation(m, 23);
  }

  lemma Steps3(m: seq<Word>)
    requires |m| == 16 && IsBlock(m)
    ensures At(m, 32, 0x790A77FB, 0x726342D3, 0xA62884AA, 0x9F47E4F8)
  {
    hide At, Uses, Operates, IsBlock;
    Steps2(m);
    Uses6(m);
    Uses7(m);
    Operates3();
    EveryOperation(m, 24);
    EveryOperation(m, 25);
    EveryOperation(m, 26);
    EveryOperation(m, 27);
    EveryOperation(m, 28);
    EveryOperation(m, 29);
    EveryOperation(m, 30);
    EveryOperation(m, 31);
  }

  lemma Steps4(m: seq<Word>)
    requires |m| == 16 && IsBlock(m)
    ensures At(m, 40, 0x21B117B9, 0x5A2F5EA5, 0x3575227E, 0x6E7429D5)
  {
    hide At, Uses, Operates, IsBlock;
    Steps3(m);
    Uses8(m);
    Uses9(m);
    Operates4();
    EveryOperation(m, 32);
    EveryOperation(m, 33);
    EveryOperation(m, 34);
    EveryOperation(m, 35);
    EveryOperation(m, 36);
    EveryOperation(m, 37);
    EveryOperation(m, 38);
    EveryOperation(m, 39);
  }

  lemma Steps5(m: seq<Word>)
    requires |m| == 16 && IsBlock(m)
    ensures At(m, 48, 0x7F2E507B, 0x7BEB9700, 0x8FAE6399, 0x99D9679D)
  {
    hide At, Uses, Operates, IsBlock;
    Steps4(m);
    Uses10(m);
    Uses11(m);
    Operates5();
    EveryOperation(m, 40);
    EveryOperation(m, 41);
    EveryOperation(m, 42);
    EveryOperation(m, 43);
    EveryOperation(m, 44);
    EveryOperation(m, 45);
    EveryOperation(m, 46);
    EveryOperation(m, 47);
  }

  lemma Steps6(m: seq<Word>)
    requires |m| == 16 && IsBlock(m)
    ensures At(m, 56, 0x06CC5E8A, 0x3BFA2C27, 0x7D632DD0, 0x5B0D97AA)
  {
    hide At, Uses, Operates, IsBlock;
    Steps5(m);
    Uses12(m);
    Uses13(m);
    Operates6();
    EveryOperation(m, 48);
    EveryOperation(m, 49);
    EveryOperation(m, 50);
    EveryOperation(m, 51);
    EveryOperation(m, 52);
    EveryOperation(m, 53);
    EveryOperation(m, 54);
    EveryOperation(m, 55);
  }

  lemma Steps7(m: seq<Word>)
    requires |m| == 16 && IsBlock(m)
    ensures At(m, 64, 0x310ADE8F, 0xC08226B3, 0xE484B9D8, 0x624D8CB2)
  {
    hide At, Uses, Operates, IsBlock;
    Steps6(m);
    Uses14(m);
    Uses15(m);
    Operates7();
    EveryOperation(m, 56);
    EveryOperation(m, 57);
    EveryOperation(m, 58);
    EveryOperation(m, 59);
    EveryOperation(m, 60);
    EveryOperation(m, 61);
    EveryOperation(m, 62);
    EveryOperation(m, 63);
  }

  // ---------- The digest ----------

  const DIGEST: seq<Word> := [0x98500190, 0xB04FD23C, 0x7D3F96D6, 0x727FE128]

  lemma Ends(m: seq<Word>)
    requires |m| == 16 && IsBlock(m)
    ensures CompressWords(INIT, m) == DIGEST
  {
    hide IsBlock;
    Steps7(m);
    assert Steps(64, m, START) == Regs(0x310ADE8F, 0xC08226B3, 0xE484B9D8, 0x624D8CB2);
    hide Steps;
  }

  lemma Output()
    ensures OutputLE(DIGEST) ==
      [0x90, 0x01, 0x50, 0x98] + [0x3C, 0xD2, 0x4F, 0xB0] + [0xD6, 0x96, 0x3F, 0x7D] + [0x28, 0xE1, 0x7F, 0x72]
  {
    assert BytesLE(0x98500190) == [0x90, 0x01, 0x50, 0x98];
    assert BytesLE(0xB04FD23C) == [0x3C, 0xD2, 0x4F, 0xB0];
    assert BytesLE(0x7D3F96D6) == [0xD6, 0x96, 0x3F, 0x7D];
    assert BytesLE(0x727FE128) == [0x28, 0xE1, 0x7F, 0x72];
    hide BytesLE, OutputLE;
    FourLE(0x98500190, 0xB04FD23C, 0x7D3F96D6, 0x727FE128, []);
    assert [0x98500190, 0xB04FD23C, 0x7D3F96D6, 0x727FE128] + [] == DIGEST;
    NoOutput([0x90, 0x01, 0x50, 0x98] + [0x3C, 0xD2, 0x4F, 0xB0] + [0xD6, 0x96, 0x3F, 0x7D] + [0x28, 0xE1, 0x7F, 0x72]);
  }

  // The example of appendix A.5 of RFC 1321.
  lemma AbcDigest()
    ensures HashStream.Digest(HashStream.Md5, ABC) ==
      [0x90, 0x01, 0x50, 0x98] + [0x3C, 0xD2, 0x4F, 0xB0] + [0xD6, 0x96, 0x3F, 0x7D] + [0x28, 0xE1, 0x7F, 0x72]
  {
    hide CompressWords, Padded, OutputLE, LengthField, IsAbc;
    var block := Padded(ABC, 64, LengthField(3));
    BlockLE();
    FoldBlock(HashStream.Compressor(HashStream.Md5), INIT, block, 64);
    Ends(WordsLE(block));
    Output();
  }
}
