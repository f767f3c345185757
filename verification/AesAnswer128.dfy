/** The example of FIPS 197 with a key of 16 bytes, word by word and round by round. */
module AesAnswer128 {
  import opened Common
  import opened Fips197
  import opened Aes
  import opened AesLaws

  const KEY: State := [
    Col(0x2B, 0x7E, 0x15, 0x16), Col(0x28, 0xAE, 0xD2, 0xA6), Col(0xAB, 0xF7, 0x15, 0x88), Col(0x09, 0xCF, 0x4F, 0x3C)]

  const TEXT: State := [
    Col(0x32, 0x43, 0xF6, 0xA8), Col(0x88, 0x5A, 0x30, 0x8D), Col(0x31, 0x31, 0x98, 0xA2), Col(0xE0, 0x37, 0x07, 0x34)]

  // ---------- The key schedule ----------

  lemma Sums1()
    ensures RotCol(Col(0x09, 0xCF, 0x4F, 0x3C)) == Col(0xCF, 0x4F, 0x3C, 0x09)
    ensures SubCol(Col(0xCF, 0x4F, 0x3C, 0x09)) == Col(0x8A, 0x84, 0xEB, 0x01)
    ensures AddCol(Col(0x8A, 0x84, 0xEB, 0x01), Col(0x01, 0, 0, 0)) == Col(0x8B, 0x84, 0xEB, 0x01)
    ensures AddCol(Col(0x2B, 0x7E, 0x15, 0x16), Col(0x8B, 0x84, 0xEB, 0x01)) == Col(0xA0, 0xFA, 0xFE, 0x17)
    ensures AddCol(Col(0x28, 0xAE, 0xD2, 0xA6), Col(0xA0, 0xFA, 0xFE, 0x17)) == Col(0x88, 0x54, 0x2C, 0xB1)
    ensures AddCol(Col(0xAB, 0xF7, 0x15, 0x88), Col(0x88, 0x54, 0x2C, 0xB1)) == Col(0x23, 0xA3, 0x39, 0x39)
    ensures AddCol(Col(0x09, 0xCF, 0x4F, 0x3C), Col(0x23, 0xA3, 0x39, 0x39)) == Col(0x2A, 0x6C, 0x76, 0x05)
  {
  }

  lemma Sums2()
    ensures RotCol(Col(0x2A, 0x6C, 0x76, 0x05)) == Col(0x6C, 0x76, 0x05, 0x2A)
    ensures SubCol(Col(0x6C, 0x76, 0x05, 0x2A)) == Col(0x50, 0x38, 0x6B, 0xE5)
    ensures AddCol(Col(0x50, 0x38, 0x6B, 0xE5), Col(0x02, 0, 0, 0)) == Col(0x52, 0x38, 0x6B, 0xE5)
    ensures AddCol(Col(0xA0, 0xFA, 0xFE, 0x17), Col(0x52, 0x38, 0x6B, 0xE5)) == Col(0xF2, 0xC2, 0x95, 0xF2)
    ensures AddCol(Col(0x88, 0x54, 0x2C, 0xB1), Col(0xF2, 0xC2, 0x95, 0xF2)) == Col(0x7A, 0x96, 0xB9, 0x43)
    ensures AddCol(Col(0x23, 0xA3, 0x39, 0x39), Col(0x7A, 0x96, 0xB9, 0x43)) == Col(0x59, 0x35, 0x80, 0x7A)
    ensures AddCol(Col(0x2A, 0x6C, 0x76, 0x05), Col(0x59, 0x35, 0x80, 0x7A)) == Col(0x73, 0x59, 0xF6, 0x7F)
  {
  }

  lemma Sums3()
    ensures RotCol(Col(0x73, 0x59, 0xF6, 0x7F)) == Col(0x59, 0xF6, 0x7F, 0x73)
    ensures SubCol(Col(0x59, 0xF6, 0x7F, 0x73)) == Col(0xCB, 0x42, 0xD2, 0x8F)
    ensures AddCol(Col(0xCB, 0x42, 0xD2, 0x8F), Col(0x04, 0, 0, 0)) == Col(0xCF, 0x42, 0xD2, 0x8F)
    ensures AddCol(Col(0xF2, 0xC2, 0x95, 0xF2), Col(0xCF, 0x42, 0xD2, 0x8F)) == Col(0x3D, 0x80, 0x47, 0x7D)
    ensures AddCol(Col(0x7A, 0x96, 0xB9, 0x43), Col(0x3D, 0x80, 0x47, 0x7D)) == Col(0x47, 0x16, 0xFE, 0x3E)
    ensures AddCol(Col(0x59, 0x35, 0x80, 0x7A), Col(0x47, 0x16, 0xFE, 0x3E)) == Col(0x1E, 0x23, 0x7E, 0x44)
    ensures AddCol(Col(0x73, 0x59, 0xF6, 0x7F), Col(0x1E, 0x23, 0x7E, 0x44)) == Col(0x6D, 0x7A, 0x88, 0x3B)
  {
  }

  lemma Sums4()
    ensures RotCol(Col(0x6D, 0x7A, 0x88, 0x3B)) == Col(0x7A, 0x88, 0x3B, 0x6D)
    ensures SubCol(Col(0x7A, 0x88, 0x3B, 0x6D)) == Col(0xDA, 0xC4, 0xE2, 0x3C)
    ensures AddCol(Col(0xDA, 0xC4, 0xE2, 0x3C), Col(0x08, 0, 0, 0)) == Col(0xD2, 0xC4, 0xE2, 0x3C)
    ensures AddCol(Col(0x3D, 0x80, 0x47, 0x7D), Col(0xD2, 0xC4, 0xE2, 0x3C)) == Col(0xEF, 0x44, 0xA5, 0x41)
    ensures AddCol(Col(0x47, 0x16, 0xFE, 0x3E), Col(0xEF, 0x44, 0xA5, 0x41)) == Col(0xA8, 0x52, 0x5B, 0x7F)
    ensures AddCol(Col(0x1E, 0x23, 0x7E, 0x44), Col(0xA8, 0x52, 0x5B, 0x7F)) == Col(0xB6, 0x71, 0x25, 0x3B)
    ensures AddCol(Col(0x6D, 0x7A, 0x88, 0x3B), Col(0xB6, 0x71, 0x25, 0x3B)) == Col(0xDB, 0x0B, 0xAD, 0x00)
  {
  }

  lemma Sums5()
    ensures RotCol(Col(0xDB, 0x0B, 0xAD, 0x00)) == Col(0x0B, 0xAD, 0x00, 0xDB)
    ensures SubCol(Col(0x0B, 0xAD, 0x00, 0xDB)) == Col(0x2B, 0x95, 0x63, 0xB9)
    ensures AddCol(Col(0x2B, 0x95, 0x63, 0xB9), Col(0x10, 0, 0, 0)) == Col(0x3B, 0x95, 0x63, 0xB9)
    ensures AddCol(Col(0xEF, 0x44, 0xA5, 0x41), Col(0x3B, 0x95, 0x63, 0xB9)) == Col(0xD4, 0xD1, 0xC6, 0xF8)
    ensures AddCol(Col(0xA8, 0x52, 0x5B, 0x7F), Col(0xD4, 0xD1, 0xC6, 0xF8)) == Col(0x7C, 0x83, 0x9D, 0x87)
    ensures AddCol(Col(0xB6, 0x71, 0x25, 0x3B), Col(0x7C, 0x83, 0x9D, 0x87)) == Col(0xCA, 0xF2, 0xB8, 0xBC)
    ensures AddCol(Col(0xDB, 0x0B, 0xAD, 0x00), Col(0xCA, 0xF2, 0xB8, 0xBC)) == Col(0x11, 0xF9, 0x15, 0xBC)
  {
  }

  lemma Sums6()
    ensures RotCol(Col(0x11, 0xF9, 0x15, 0xBC)) == Col(0xF9, 0x15, 0xBC, 0x11)
    ensures SubCol(Col(0xF9, 0x15, 0xBC, 0x11)) == Col(0x99, 0x59, 0x65, 0x82)
    ensures AddCol(Col(0x99, 0x59, 0x65, 0x82), Col(0x20, 0, 0, 0)) == Col(0xB9, 0x59, 0x65, 0x82)
    ensures AddCol(Col(0xD4, 0xD1, 0xC6, 0xF8), Col(0xB9, 0x59, 0x65, 0x82)) == Col(0x6D, 0x88, 0xA3, 0x7A)
    ensures AddCol(Col(0x7C, 0x83, 0x9D, 0x87), Col(0x6D, 0x88, 0xA3, 0x7A)) == Col(0x11, 0x0B, 0x3E, 0xFD)
    ensures AddCol(Col(0xCA, 0xF2, 0xB8, 0xBC), Col(0x11, 0x0B, 0x3E, 0xFD)) == Col(0xDB, 0xF9, 0x86, 0x41)
    ensures AddCol(Col(0x11, 0xF9, 0x15, 0xBC), Col(0xDB, 0xF9, 0x86, 0x41)) == Col(0xCA, 0x00, 0x93, 0xFD)
  {
  }

  lemma Sums7()
    ensures RotCol(Col(0xCA, 0x00, 0x93, 0xFD)) == Col(0x00, 0x93, 0xFD, 0xCA)
    ensures SubCol(Col(0x00, 0x93, 0xFD, 0xCA)) == Col(0x63, 0xDC, 0x54, 0x74)
    ensures AddCol(Col(0x63, 0xDC, 0x54, 0x74), Col(0x40, 0, 0, 0)) == Col(0x23, 0xDC, 0x54, 0x74)
    ensures AddCol(Col(0x6D, 0x88, 0xA3, 0x7A), Col(0x23, 0xDC, 0x54, 0x74)) == Col(0x4E, 0x54, 0xF7, 0x0E)
    ensures AddCol(Col(0x11, 0x0B, 0x3E, 0xFD), Col(0x4E, 0x54, 0xF7, 0x0E)) == Col(0x5F, 0x5F, 0xC9, 0xF3)
    ensures AddCol(Col(0xDB, 0xF9, 0x86, 0x41), Col(0x5F, 0x5F, 0xC9, 0xF3)) == Col(0x84, 0xA6, 0x4F, 0xB2)
    ensures AddCol(Col(0xCA, 0x00, 0x93, 0xFD), Col(0x84, 0xA6, 0x4F, 0xB2)) == Col(0x4E, 0xA6, 0xDC, 0x4F)
  {
  }

  lemma Sums8()
    ensures RotCol(Col(0x4E, 0xA6, 0xDC, 0x4F)) == Col(0xA6, 0xDC, 0x4F, 0x4E)
    ensures SubCol(Col(0xA6, 0xDC, 0x4F, 0x4E)) == Col(0x24, 0x86, 0x84, 0x2F)
    ensures AddCol(Col(0x24, 0x86, 0x84, 0x2F), Col(0x80, 0, 0, 0)) == Col(0xA4, 0x86, 0x84, 0x2F)
    ensures AddCol(Col(0x4E, 0x54, 0xF7, 0x0E), Col(0xA4, 0x86, 0x84, 0x2F)) == Col(0xEA, 0xD2, 0x73, 0x21)
    ensures AddCol(Col(0x5F, 0x5F, 0xC9, 0xF3), Col(0xEA, 0xD2, 0x73, 0x21)) == Col(0xB5, 0x8D, 0xBA, 0xD2)
    ensures AddCol(Col(0x84, 0xA6, 0x4F, 0xB2), Col(0xB5, 0x8D, 0xBA, 0xD2)) == Col(0x31, 0x2B, 0xF5, 0x60)
    ensures AddCol(Col(0x4E, 0xA6, 0xDC, 0x4F), Col(0x31, 0x2B, 0xF5, 0x60)) == Col(0x7F, 0x8D, 0x29, 0x2F)
  {
  }

  lemma Sums9()
    ensures RotCol(Col(0x7F, 0x8D, 0x29, 0x2F)) == Col(0x8D, 0x29, 0x2F, 0x7F)
    ensures SubCol(Col(0x8D, 0x29, 0x2F, 0x7F)) == Col(0x5D, 0xA5, 0x15, 0xD2)
    ensures AddCol(Col(0x5D, 0xA5, 0x15, 0xD2), Col(0x1B, 0, 0, 0)) == Col(0x46, 0xA5, 0x15, 0xD2)
    ensures AddCol(Col(0xEA, 0xD2, 0x73, 0x21), Col(0x46, 0xA5, 0x15, 0xD2)) == Col(0xAC, 0x77, 0x66, 0xF3)
    ensures AddCol(Col(0xB5, 0x8D, 0xBA, 0xD2), Col(0xAC, 0x77, 0x66, 0xF3)) == Col(0x19, 0xFA, 0xDC, 0x21)
    ensures AddCol(Col(0x31, 0x2B, 0xF5, 0x60), Col(0x19, 0xFA, 0xDC, 0x21)) == Col(0x28, 0xD1, 0x29, 0x41)
    ensures AddCol(Col(0x7F, 0x8D, 0x29, 0x2F), Col(0x28, 0xD1, 0x29, 0x41)) == Col(0x57, 0x5C, 0x00, 0x6E)
  {
  }

  lemma Sums10()
    ensures RotCol(Col(0x57, 0x5C, 0x00, 0x6E)) == Col(0x5C, 0x00, 0x6E, 0x57)
    ensures SubCol(Col(0x5C, 0x00, 0x6E, 0x57)) == Col(0x4A, 0x63, 0x9F, 0x5B)
    ensures AddCol(Col(0x4A, 0x63, 0x9F, 0x5B), Col(0x36, 0, 0, 0)) == Col(0x7C, 0x63, 0x9F, 0x5B)
    ensures AddCol(Col(0xAC, 0x77, 0x66, 0xF3), Col(0x7C, 0x63, 0x9F, 0x5B)) == Col(0xD0, 0x14, 0xF9, 0xA8)
    ensures AddCol(Col(0x19, 0xFA, 0xDC, 0x21), Col(0xD0, 0x14, 0xF9, 0xA8)) == Col(0xC9, 0xEE, 0x25, 0x89)
    ensures AddCol(Col(0x28, 0xD1, 0x29, 0x41), Col(0xC9, 0xEE, 0x25, 0x89)) == Col(0xE1, 0x3F, 0x0C, 0xC8)
    ensures AddCol(Col(0x57, 0x5C, 0x00, 0x6E), Col(0xE1, 0x3F, 0x0C, 0xC8)) == Col(0xB6, 0x63, 0x0C, 0xA6)
  {
  }

  lemma Words0()
    ensures KeyWord(KEY, 0) == Col(0x2B, 0x7E, 0x15, 0x16) && KeyWord(KEY, 1) == Col(0x28, 0xAE, 0xD2, 0xA6)
    ensures KeyWord(KEY, 2) == Col(0xAB, 0xF7, 0x15, 0x88) && KeyWord(KEY, 3) == Col(0x09, 0xCF, 0x4F, 0x3C)
  {
  }

  lemma Words1()
    ensures KeyWord(KEY, 4) == Col(0xA0, 0xFA, 0xFE, 0x17) && KeyWord(KEY, 5) == Col(0x88, 0x54, 0x2C, 0xB1)
    ensures KeyWord(KEY, 6) == Col(0x23, 0xA3, 0x39, 0x39) && KeyWord(KEY, 7) == Col(0x2A, 0x6C, 0x76, 0x05)
  {
    hide KeyWord, AddCol, SubCol, RotCol, Rcon;
    Powers();
    Words0();
    Sums1();
    KeyWordRule(KEY, 4, 4);
    KeyWordRule(KEY, 4, 5);
    KeyWordRule(KEY, 4, 6);
    KeyWordRule(KEY, 4, 7);
  }

  lemma Words2()
    ensures KeyWord(KEY, 8) == Col(0xF2, 0xC2, 0x95, 0xF2) && KeyWord(KEY, 9) == Col(0x7A, 0x96, 0xB9, 0x43)
    ensures KeyWord(KEY, 10) == Col(0x59, 0x35, 0x80, 0x7A) && KeyWord(KEY, 11) == Col(0x73, 0x59, 0xF6, 0x7F)
  {
    hide KeyWord, AddCol, SubCol, RotCol, Rcon;
    Powers();
    Words1();
    Sums2();
    KeyWordRule(KEY, 4, 8);
    KeyWordRule(KEY, 4, 9);
    KeyWordRule(KEY, 4, 10);
    KeyWordRule(KEY, 4, 11);
  }

  lemma Words3()
    ensures KeyWord(KEY, 12) == Col(0x3D, 0x80, 0x47, 0x7D) && KeyWord(KEY, 13) == Col(0x47, 0x16, 0xFE, 0x3E)
    ensures KeyWord(KEY, 14) == Col(0x1E, 0x23, 0x7E, 0x44) && KeyWord(KEY, 15) == Col(0x6D, 0x7A, 0x88, 0x3B)
  {
    hide KeyWord, AddCol, SubCol, RotCol, Rcon;
    Powers();
    Words2();
    Sums3();
    KeyWordRule(KEY, 4, 12);
    KeyWordRule(KEY, 4, 13);
    KeyWordRule(KEY, 4, 14);
    KeyWordRule(KEY, 4, 15);
  }

  lemma Words4()
    ensures KeyWord(KEY, 16) == Col(0xEF, 0x44, 0xA5, 0x41) && KeyWord(KEY, 17) == Col(0xA8, 0x52, 0x5B, 0x7F)
    ensures KeyWord(KEY, 18) == Col(0xB6, 0x71, 0x25, 0x3B) && KeyWord(KEY, 19) == Col(0xDB, 0x0B, 0xAD, 0x00)
  {
    hide KeyWord, AddCol, SubCol, RotCol, Rcon;
    Powers();
    Words3();
    Sums4();
    KeyWordRule(KEY, 4, 16);
    KeyWordRule(KEY, 4, 17);
    KeyWordRule(KEY, 4, 18);
    KeyWordRule(KEY, 4, 19);
  }

  lemma Words5()
    ensures KeyWord(KEY, 20) == Col(0xD4, 0xD1, 0xC6, 0xF8) && KeyWord(KEY, 21) == Col(0x7C, 0x83, 0x9D, 0x87)
    ensures KeyWord(KEY, 22) == Col(0xCA, 0xF2, 0xB8, 0xBC) && KeyWord(KEY, 23) == Col(0x11, 0xF9, 0x15, 0xBC)
  {
    hide KeyWord, AddCol, SubCol, RotCol, Rcon;
    Powers();
    Words4();
    Sums5();
    KeyWordRule(KEY, 4, 20);
    KeyWordRule(KEY, 4, 21);
    KeyWordRule(KEY, 4, 22);
    KeyWordRule(KEY, 4, 23);
  }

  lemma Words6()
    ensures KeyWord(KEY, 24) == Col(0x6D, 0x88, 0xA3, 0x7A) && KeyWord(KEY, 25) == Col(0x11, 0x0B, 0x3E, 0xFD)
    ensures KeyWord(KEY, 26) == Col(0xDB, 0xF9, 0x86, 0x41) && KeyWord(KEY, 27) == Col(0xCA, 0x00, 0x93, 0xFD)
  {
    hide KeyWord, AddCol, SubCol, RotCol, Rcon;
    Powers();
    Words5();
    Sums6();
    KeyWordRule(KEY, 4, 24);
    KeyWordRule(KEY, 4, 25);
    KeyWordRule(KEY, 4, 26);
    KeyWordRule(KEY, 4, 27);
  }

  lemma Words7()
    ensures KeyWord(KEY, 28) == Col(0x4E, 0x54, 0xF7, 0x0E) && KeyWord(KEY, 29) == Col(0x5F, 0x5F, 0xC9, 0xF3)
    ensures KeyWord(KEY, 30) == Col(0x84, 0xA6, 0x4F, 0xB2) && KeyWord(KEY, 31) == Col(0x4E, 0xA6, 0xDC, 0x4F)
  {
    hide KeyWord, AddCol, SubCol, RotCol, Rcon;
    Powers();
    Words6();
    Sums7();
    KeyWordRule(KEY, 4, 28);
    KeyWordRule(KEY, 4, 29);
    KeyWordRule(KEY, 4, 30);
    KeyWordRule(KEY, 4, 31);
  }

  lemma Words8()
    ensures KeyWord(KEY, 32) == Col(0xEA, 0xD2, 0x73, 0x21) && KeyWord(KEY, 33) == Col(0xB5, 0x8D, 0xBA, 0xD2)
    ensures KeyWord(KEY, 34) == Col(0x31, 0x2B, 0xF5, 0x60) && KeyWord(KEY, 35) == Col(0x7F, 0x8D, 0x29, 0x2F)
  {
    hide KeyWord, AddCol, SubCol, RotCol, Rcon;
    Powers();
    Words7();
    Sums8();
    KeyWordRule(KEY, 4, 32);
    KeyWordRule(KEY, 4, 33);
    KeyWordRule(KEY, 4, 34);
    KeyWordRule(KEY, 4, 35);
  }

  lemma Words9()
    ensures KeyWord(KEY, 36) == Col(0xAC, 0x77, 0x66, 0xF3) && KeyWord(KEY, 37) == Col(0x19, 0xFA, 0xDC, 0x21)
    ensures KeyWord(KEY, 38) == Col(0x28, 0xD1, 0x29, 0x41) && KeyWord(KEY, 39) == Col(0x57, 0x5C, 0x00, 0x6E)
  {
    hide KeyWord, AddCol, SubCol, RotCol, Rcon;
    Powers();
    Words8();
    Sums9();
    KeyWordRule(KEY, 4, 36);
    KeyWordRule(KEY, 4, 37);
    KeyWordRule(KEY, 4, 38);
    KeyWordRule(KEY, 4, 39);
  }

  lemma Words10()
    ensures KeyWord(KEY, 40) == Col(0xD0, 0x14, 0xF9, 0xA8) && KeyWord(KEY, 41) == Col(0xC9, 0xEE, 0x25, 0x89)
    ensures KeyWord(KEY, 42) == Col(0xE1, 0x3F, 0x0C, 0xC8) && KeyWord(KEY, 43) == Col(0xB6, 0x63, 0x0C, 0xA6)
  {
    hide KeyWord, AddCol, SubCol, RotCol, Rcon;
    Powers();
    Words9();
    Sums10();
    KeyWordRule(KEY, 4, 40);
    KeyWordRule(KEY, 4, 41);
    KeyWordRule(KEY, 4, 42);
    KeyWordRule(KEY, 4, 43);
  }

  // ---------- The rounds ----------

  lemma Begins()
    ensures After(KEY, TEXT, 0) == [
     Col(0x19, 0x3D, 0xE3, 0xBE), Col(0xA0, 0xF4, 0xE2, 0x2B), Col(0x9A, 0xC6, 0x8D, 0x2A), Col(0xE9, 0xF8, 0x48, 0x08)]
  {
    FirstRound(KEY, TEXT);
    Words0();
    hide KeyWord, After;
  }

  lemma Columns1()
    ensures SubCol(Col(0x19, 0xF4, 0x8D, 0x08)) == Col(0xD4, 0xBF, 0x5D, 0x30)
    ensures AddCol(MixCol(Col(0xD4, 0xBF, 0x5D, 0x30)), Col(0xA0, 0xFA, 0xFE, 0x17)) == Col(0xA4, 0x9C, 0x7F, 0xF2)
    ensures SubCol(Col(0xA0, 0xC6, 0x48, 0xBE)) == Col(0xE0, 0xB4, 0x52, 0xAE)
    ensures AddCol(MixCol(Col(0xE0, 0xB4, 0x52, 0xAE)), Col(0x88, 0x54, 0x2C, 0xB1)) == Col(0x68, 0x9F, 0x35, 0x2B)
    ensures SubCol(Col(0x9A, 0xF8, 0xE3, 0x2B)) == Col(0xB8, 0x41, 0x11, 0xF1)
    ensures AddCol(MixCol(Col(0xB8, 0x41, 0x11, 0xF1)), Col(0x23, 0xA3, 0x39, 0x39)) == Col(0x6B, 0x5B, 0xEA, 0x43)
    ensures SubCol(Col(0xE9, 0x3D, 0xE2, 0x2A)) == Col(0x1E, 0x27, 0x98, 0xE5)
    ensures AddCol(MixCol(Col(0x1E, 0x27, 0x98, 0xE5)), Col(0x2A, 0x6C, 0x76, 0x05)) == Col(0x02, 0x6A, 0x50, 0x49)
  {
  }

  lemma Columns2()
    ensures SubCol(Col(0xA4, 0x9F, 0xEA, 0x49)) == Col(0x49, 0xDB, 0x87, 0x3B)
    ensures AddCol(MixCol(Col(0x49, 0xDB, 0x87, 0x3B)), Col(0xF2, 0xC2, 0x95, 0xF2)) == Col(0xAA, 0x8F, 0x5F, 0x03)
    ensures SubCol(Col(0x68, 0x5B, 0x50, 0xF2)) == Col(0x45, 0x39, 0x53, 0x89)
    ensures AddCol(MixCol(Col(0x45, 0x39, 0x53, 0x89)), Col(0x7A, 0x96, 0xB9, 0x43)) == Col(0x61, 0xDD, 0xE3, 0xEF)
    ensures SubCol(Col(0x6B, 0x6A, 0x7F, 0x2B)) == Col(0x7F, 0x02, 0xD2, 0xF1)
    ensures AddCol(MixCol(Col(0x7F, 0x02, 0xD2, 0xF1)), Col(0x59, 0x35, 0x80, 0x7A)) == Col(0x82, 0xD2, 0x4A, 0xD2)
    ensures SubCol(Col(0x02, 0x9C, 0x35, 0x43)) == Col(0x77, 0xDE, 0x96, 0x1A)
    ensures AddCol(MixCol(Col(0x77, 0xDE, 0x96, 0x1A)), Col(0x73, 0x59, 0xF6, 0x7F)) == Col(0x68, 0x32, 0x46, 0x9A)
  {
  }

  lemma Columns3()
    ensures SubCol(Col(0xAA, 0xDD, 0x4A, 0x9A)) == Col(0xAC, 0xC1, 0xD6, 0xB8)
    ensures AddCol(MixCol(Col(0xAC, 0xC1, 0xD6, 0xB8)), Col(0x3D, 0x80, 0x47, 0x7D)) == Col(0x48, 0x6C, 0x4E, 0xEE)
    ensures SubCol(Col(0x61, 0xD2, 0x46, 0x03)) == Col(0xEF, 0xB5, 0x5A, 0x7B)
    ensures AddCol(MixCol(Col(0xEF, 0xB5, 0x5A, 0x7B)), Col(0x47, 0x16, 0xFE, 0x3E)) == Col(0x67, 0x1D, 0x9D, 0x0D)
    ensures SubCol(Col(0x82, 0x32, 0x5F, 0xEF)) == Col(0x13, 0x23, 0xCF, 0xDF)
    ensures AddCol(MixCol(Col(0x13, 0x23, 0xCF, 0xDF)), Col(0x1E, 0x23, 0x7E, 0x44)) == Col(0x4D, 0xE3, 0xB1, 0x38)
    ensures SubCol(Col(0x68, 0x8F, 0xE3, 0xD2)) == Col(0x45, 0x73, 0x11, 0xB5)
    ensures AddCol(MixCol(Col(0x45, 0x73, 0x11, 0xB5)), Col(0x6D, 0x7A, 0x88, 0x3B)) == Col(0xD6, 0x5F, 0x58, 0xE7)
  {
  }

  lemma Rounds1()
    ensures After(KEY, TEXT, 3) == [
     Col(0x48, 0x6C, 0x4E, 0xEE), Col(0x67, 0x1D, 0x9D, 0x0D), Col(0x4D, 0xE3, 0xB1, 0x38), Col(0xD6, 0x5F, 0x58, 0xE7)]
  {
    hide KeyWord, After, SubCol, MixCol, AddCol;
    Begins();
    Words1();
    Words2();
    Words3();
    Columns1();
    NextRound(KEY, TEXT, 1);
    Columns2();
    NextRound(KEY, TEXT, 2);
    Columns3();
    NextRound(KEY, TEXT, 3);
  }

  lemma Columns4()
    ensures SubCol(Col(0x48, 0x1D, 0xB1, 0xE7)) == Col(0x52, 0xA4, 0xC8, 0x94)
    ensures AddCol(MixCol(Col(0x52, 0xA4, 0xC8, 0x94)), Col(0xEF, 0x44, 0xA5, 0x41)) == Col(0xE0, 0x92, 0x7F, 0xE8)
    ensures SubCol(Col(0x67, 0xE3, 0x58, 0xEE)) == Col(0x85, 0x11, 0x6A, 0x28)
    ensures AddCol(MixCol(Col(0x85, 0x11, 0x6A, 0x28)), Col(0xA8, 0x52, 0x5B, 0x7F)) == Col(0xC8, 0x63, 0x63, 0xC0)
    ensures SubCol(Col(0x4D, 0x5F, 0x4E, 0x0D)) == Col(0xE3, 0xCF, 0x2F, 0xD7)
    ensures AddCol(MixCol(Col(0xE3, 0xCF, 0x2F, 0xD7)), Col(0xB6, 0x71, 0x25, 0x3B)) == Col(0xD9, 0xB1, 0x35, 0x50)
    ensures SubCol(Col(0xD6, 0x6C, 0x9D, 0x38)) == Col(0xF6, 0x50, 0x5E, 0x07)
    ensures AddCol(MixCol(Col(0xF6, 0x50, 0x5E, 0x07)), Col(0xDB, 0x0B, 0xAD, 0x00)) == Col(0x85, 0xB8, 0xBE, 0x01)
  {
  }

  lemma Columns5()
    ensures SubCol(Col(0xE0, 0x63, 0x35, 0x01)) == Col(0xE1, 0xFB, 0x96, 0x7C)
    ensures AddCol(MixCol(Col(0xE1, 0xFB, 0x96, 0x7C)), Col(0xD4, 0xD1, 0xC6, 0xF8)) == Col(0xF1, 0x00, 0x6F, 0x55)
    ensures SubCol(Col(0xC8, 0xB1, 0xBE, 0xE8)) == Col(0xE8, 0xC8, 0xAE, 0x9B)
    ensures AddCol(MixCol(Col(0xE8, 0xC8, 0xAE, 0x9B)), Col(0x7C, 0x83, 0x9D, 0x87)) == Col(0xC1, 0x92, 0x4C, 0xEF)
    ensures SubCol(Col(0xD9, 0xB8, 0x7F, 0xC0)) == Col(0x35, 0x6C, 0xD2, 0xBA)
    ensures AddCol(MixCol(Col(0x35, 0x6C, 0xD2, 0xBA)), Col(0xCA, 0xF2, 0xB8, 0xBC)) == Col(0x7C, 0xC8, 0x8B, 0x32)
    ensures SubCol(Col(0x85, 0x92, 0x63, 0x50)) == Col(0x97, 0x4F, 0xFB, 0x53)
    ensures AddCol(MixCol(Col(0x97, 0x4F, 0xFB, 0x53)), Col(0x11, 0xF9, 0x15, 0xBC)) == Col(0x5D, 0xB5, 0xD5, 0x0C)
  {
  }

  lemma Columns6()
    ensures SubCol(Col(0xF1, 0x92, 0x8B, 0x0C)) == Col(0xA1, 0x4F, 0x3D, 0xFE)
    ensures AddCol(MixCol(Col(0xA1, 0x4F, 0x3D, 0xFE)), Col(0x6D, 0x88, 0xA3, 0x7A)) == Col(0x26, 0x0E, 0x2E, 0x17)
    ensures SubCol(Col(0xC1, 0xC8, 0xD5, 0x55)) == Col(0x78, 0xE8, 0x03, 0xFC)
    ensures AddCol(MixCol(Col(0x78, 0xE8, 0x03, 0xFC)), Col(0x11, 0x0B, 0x3E, 0xFD)) == Col(0x3D, 0x41, 0xB7, 0x7D)
    ensures SubCol(Col(0x7C, 0xB5, 0x6F, 0xEF)) == Col(0x10, 0xD5, 0xA8, 0xDF)
    ensures AddCol(MixCol(Col(0x10, 0xD5, 0xA8, 0xDF)), Col(0xDB, 0xF9, 0x86, 0x41)) == Col(0xE8, 0x64, 0x72, 0xA9)
    ensures SubCol(Col(0x5D, 0x00, 0x4C, 0x32)) == Col(0x4C, 0x63, 0x29, 0x23)
    ensures AddCol(MixCol(Col(0x4C, 0x63, 0x29, 0x23)), Col(0xCA, 0x00, 0x93, 0xFD)) == Col(0xFD, 0xD2, 0x8B, 0x25)
  {
  }

  lemma Rounds2()
    ensures After(KEY, TEXT, 6) == [
     Col(0x26, 0x0E, 0x2E, 0x17), Col(0x3D, 0x41, 0xB7, 0x7D), Col(0xE8, 0x64, 0x72, 0xA9), Col(0xFD, 0xD2, 0x8B, 0x25)]
  {
    hide KeyWord, After, SubCol, MixCol, AddCol;
    Rounds1();
    Words4();
    Words5();
    Words6();
    Columns4();
    NextRound(KEY, TEXT, 4);
    Columns5();
    NextRound(KEY, TEXT, 5);
    Columns6();
    NextRound(KEY, TEXT, 6);
  }

  lemma Columns7()
    ensures SubCol(Col(0x26, 0x41, 0x72, 0x25)) == Col(0xF7, 0x83, 0x40, 0x3F)
    ensures AddCol(MixCol(Col(0xF7, 0x83, 0x40, 0x3F)), Col(0x4E, 0x54, 0xF7, 0x0E)) == Col(0x5A, 0x41, 0x42, 0xB1)
    ensures SubCol(Col(0x3D, 0x64, 0x8B, 0x17)) == Col(0x27, 0x43, 0x3D, 0xF0)
    ensures AddCol(MixCol(Col(0x27, 0x43, 0x3D, 0xF0)), Col(0x5F, 0x5F, 0xC9, 0xF3)) == Col(0x19, 0x49, 0xDC, 0x1F)
    ensures SubCol(Col(0xE8, 0xD2, 0x2E, 0x7D)) == Col(0x9B, 0xB5, 0x31, 0xFF)
    ensures AddCol(MixCol(Col(0x9B, 0xB5, 0x31, 0xFF)), Col(0x84, 0xA6, 0x4F, 0xB2)) == Col(0xA3, 0xE0, 0x19, 0x65)
    ensures SubCol(Col(0xFD, 0x0E, 0xB7, 0xA9)) == Col(0x54, 0xAB, 0xA9, 0xD3)
    ensures AddCol(MixCol(Col(0x54, 0xAB, 0xA9, 0xD3)), Col(0x4E, 0xA6, 0xDC, 0x4F)) == Col(0x7A, 0x8C, 0x04, 0x0C)
  {
  }

  lemma Columns8()
    ensures SubCol(Col(0x5A, 0x49, 0x19, 0x0C)) == Col(0xBE, 0x3B, 0xD4, 0xFE)
    ensures AddCol(MixCol(Col(0xBE, 0x3B, 0xD4, 0xFE)), Col(0xEA, 0xD2, 0x73, 0x21)) == Col(0xEA, 0x83, 0x5C, 0xF0)
    ensures SubCol(Col(0x19, 0xE0, 0x04, 0xB1)) == Col(0xD4, 0xE1, 0xF2, 0xC8)
    ensures AddCol(MixCol(Col(0xD4, 0xE1, 0xF2, 0xC8)), Col(0xB5, 0x8D, 0xBA, 0xD2)) == Col(0x04, 0x45, 0x33, 0x2D)
    ensures SubCol(Col(0xA3, 0x8C, 0x42, 0x1F)) == Col(0x0A, 0x64, 0x2C, 0xC0)
    ensures AddCol(MixCol(Col(0x0A, 0x64, 0x2C, 0xC0)), Col(0x31, 0x2B, 0xF5, 0x60)) == Col(0x65, 0x5D, 0x98, 0xAD)
    ensures SubCol(Col(0x7A, 0x41, 0xDC, 0x65)) == Col(0xDA, 0x83, 0x86, 0x4D)
    ensures AddCol(MixCol(Col(0xDA, 0x83, 0x86, 0x4D)), Col(0x7F, 0x8D, 0x29, 0x2F)) == Col(0x85, 0x96, 0xB0, 0xC5)
  {
  }

  lemma Columns9()
    ensures SubCol(Col(0xEA, 0x45, 0x98, 0xC5)) == Col(0x87, 0x6E, 0x46, 0xA6)
    ensures AddCol(MixCol(Col(0x87, 0x6E, 0x46, 0xA6)), Col(0xAC, 0x77, 0x66, 0xF3)) == Col(0xEB, 0x40, 0xF2, 0x1E)
    ensures SubCol(Col(0x04, 0x5D, 0xB0, 0xF0)) == Col(0xF2, 0x4C, 0xE7, 0x8C)
    ensures AddCol(MixCol(Col(0xF2, 0x4C, 0xE7, 0x8C)), Col(0x19, 0xFA, 0xDC, 0x21)) == Col(0x59, 0x2E, 0x38, 0x84)
    ensures SubCol(Col(0x65, 0x96, 0x5C, 0x2D)) == Col(0x4D, 0x90, 0x4A, 0xD8)
    ensures AddCol(MixCol(Col(0x4D, 0x90, 0x4A, 0xD8)), Col(0x28, 0xD1, 0x29, 0x41)) == Col(0x8B, 0xA1, 0x13, 0xE7)
    ensures SubCol(Col(0x85, 0x83, 0x33, 0xAD)) == Col(0x97, 0xEC, 0xC3, 0x95)
    ensures AddCol(MixCol(Col(0x97, 0xEC, 0xC3, 0x95)), Col(0x57, 0x5C, 0x00, 0x6E)) == Col(0x1B, 0xC3, 0x42, 0xD2)
  {
  }

  lemma Rounds3()
    ensures After(KEY, TEXT, 9) == [
     Col(0xEB, 0x40, 0xF2, 0x1E), Col(0x59, 0x2E, 0x38, 0x84), Col(0x8B, 0xA1, 0x13, 0xE7), Col(0x1B, 0xC3, 0x42, 0xD2)]
  {
    hide KeyWord, After, SubCol, MixCol, AddCol;
    Rounds2();
    Words7();
    Words8();
    Words9();
    Columns7();
    NextRound(KEY, TEXT, 7);
    Columns8();
    NextRound(KEY, TEXT, 8);
    Columns9();
    NextRound(KEY, TEXT, 9);
  }

  lemma LastColumns()
    ensures SubCol(Col(0xEB, 0x2E, 0x13, 0xD2)) == Col(0xE9, 0x31, 0x7D, 0xB5)
    ensures AddCol(Col(0xE9, 0x31, 0x7D, 0xB5), Col(0xD0, 0x14, 0xF9, 0xA8)) == Col(0x39, 0x25, 0x84, 0x1D)
    ensures SubCol(Col(0x59, 0xA1, 0x42, 0x1E)) == Col(0xCB, 0x32, 0x2C, 0x72)
    ensures AddCol(Col(0xCB, 0x32, 0x2C, 0x72), Col(0xC9, 0xEE, 0x25, 0x89)) == Col(0x02, 0xDC, 0x09, 0xFB)
    ensures SubCol(Col(0x8B, 0xC3, 0xF2, 0x84)) == Col(0x3D, 0x2E, 0x89, 0x5F)
    ensures AddCol(Col(0x3D, 0x2E, 0x89, 0x5F), Col(0xE1, 0x3F, 0x0C, 0xC8)) == Col(0xDC, 0x11, 0x85, 0x97)
    ensures SubCol(Col(0x1B, 0x40, 0x38, 0xE7)) == Col(0xAF, 0x09, 0x07, 0x94)
    ensures AddCol(Col(0xAF, 0x09, 0x07, 0x94), Col(0xB6, 0x63, 0x0C, 0xA6)) == Col(0x19, 0x6A, 0x0B, 0x32)
  {
  }

  lemma Ends()
    ensures IsSchedule(KeyExpansion(KEY, 4), 4, 10)
    ensures Cipher(TEXT, KeyExpansion(KEY, 4), 10) == [
     Col(0x39, 0x25, 0x84, 0x1D), Col(0x02, 0xDC, 0x09, 0xFB), Col(0xDC, 0x11, 0x85, 0x97), Col(0x19, 0x6A, 0x0B, 0x32)]
  {
    hide KeyWord, After, SubCol, MixCol, AddCol, Cipher, KeyExpansion;
    Rounds3();
    Words10();
    LastColumns();
    LastRound(KEY, TEXT, 10);
  }

  // ---------- The answer ----------

  lemma KeyState()
    ensures ToState([
      0x2B, 0x7E, 0x15, 0x16, 0x28, 0xAE, 0xD2, 0xA6, 0xAB, 0xF7, 0x15, 0x88, 0x09, 0xCF, 0x4F, 0x3C]) == KEY
  {
  }

  lemma TextState()
    ensures ToState([
      0x32, 0x43, 0xF6, 0xA8, 0x88, 0x5A, 0x30, 0x8D, 0x31, 0x31, 0x98, 0xA2, 0xE0, 0x37, 0x07, 0x34]) == TEXT
  {
  }

  lemma AnswerBytes()
    ensures ToBytes([
     Col(0x39, 0x25, 0x84, 0x1D), Col(0x02, 0xDC, 0x09, 0xFB), Col(0xDC, 0x11, 0x85, 0x97), Col(0x19, 0x6A, 0x0B, 0x32)]
    ) == [
      0x39, 0x25, 0x84, 0x1D, 0x02, 0xDC, 0x09, 0xFB, 0xDC, 0x11, 0x85, 0x97, 0x19, 0x6A, 0x0B, 0x32]
  {
  }

  // Appendix B of FIPS 197; its key schedule is the one of appendix A.1.
  lemma Answer()
    ensures EncryptBytes([
      0x2B, 0x7E, 0x15, 0x16, 0x28, 0xAE, 0xD2, 0xA6, 0xAB, 0xF7, 0x15, 0x88, 0x09, 0xCF, 0x4F, 0x3C], 4, [
      0x32, 0x43, 0xF6, 0xA8, 0x88, 0x5A, 0x30, 0x8D, 0x31, 0x31, 0x98, 0xA2, 0xE0, 0x37, 0x07, 0x34]) == [
      0x39, 0x25, 0x84, 0x1D, 0x02, 0xDC, 0x09, 0xFB, 0xDC, 0x11, 0x85, 0x97, 0x19, 0x6A, 0x0B, 0x32]
  {
    hide ToState, ToBytes, Cipher, KeyExpansion;
    KeyState();
    TextState();
    AnswerBytes();
    Ends();
  }
}
