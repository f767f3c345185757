/** The example of FIPS 197 with a key of 32 bytes, word by word and round by round. */
module AesAnswer256 {
  import opened Common
  import opened Fips197
  import opened Aes
  import opened AesLaws

  const KEY: State := [
    Col(0x00, 0x01, 0x02, 0x03), Col(0x04, 0x05, 0x06, 0x07), Col(0x08, 0x09, 0x0A, 0x0B), Col(0x0C, 0x0D, 0x0E, 0x0F),
    Col(0x10, 0x11, 0x12, 0x13), Col(0x14, 0x15, 0x16, 0x17), Col(0x18, 0x19, 0x1A, 0x1B), Col(0x1C, 0x1D, 0x1E, 0x1F)]

  const TEXT: State := [
    Col(0x00, 0x11, 0x22, 0x33), Col(0x44, 0x55, 0x66, 0x77), Col(0x88, 0x99, 0xAA, 0xBB), Col(0xCC, 0xDD, 0xEE, 0xFF)]

  // ---------- The key schedule ----------

  lemma Sums1()
    ensures RotCol(Col(0x1C, 0x1D, 0x1E, 0x1F)) == Col(0x1D, 0x1E, 0x1F, 0x1C)
    ensures SubCol(Col(0x1D, 0x1E, 0x1F, 0x1C)) == Col(0xA4, 0x72, 0xC0, 0x9C)
    ensures AddCol(Col(0xA4, 0x72, 0xC0, 0x9C), Col(0x01, 0, 0, 0)) == Col(0xA5, 0x72, 0xC0, 0x9C)
    ensures AddCol(Col(0x00, 0x01, 0x02, 0x03), Col(0xA5, 0x72, 0xC0, 0x9C)) == Col(0xA5, 0x73, 0xC2, 0x9F)
    ensures AddCol(Col(0x04, 0x05, 0x06, 0x07), Col(0xA5, 0x73, 0xC2, 0x9F)) == Col(0xA1, 0x76, 0xC4, 0x98)
    ensures AddCol(Col(0x08, 0x09, 0x0A, 0x0B), Col(0xA1, 0x76, 0xC4, 0x98)) == Col(0xA9, 0x7F, 0xCE, 0x93)
    ensures AddCol(Col(0x0C, 0x0D, 0x0E, 0x0F), Col(0xA9, 0x7F, 0xCE, 0x93)) == Col(0xA5, 0x72, 0xC0, 0x9C)
    ensures SubCol(Col(0xA5, 0x72, 0xC0, 0x9C)) == Col(0x06, 0x40, 0xBA, 0xDE)
    ensures AddCol(Col(0x10, 0x11, 0x12, 0x13), Col(0x06, 0x40, 0xBA, 0xDE)) == Col(0x16, 0x51, 0xA8, 0xCD)
    ensures AddCol(Col(0x14, 0x15, 0x16, 0x17), Col(0x16, 0x51, 0xA8, 0xCD)) == Col(0x02, 0x44, 0xBE, 0xDA)
    ensures AddCol(Col(0x18, 0x19, 0x1A, 0x1B), Col(0x02, 0x44, 0xBE, 0xDA)) == Col(0x1A, 0x5D, 0xA4, 0xC1)
    ensures AddCol(Col(0x1C, 0x1D, 0x1E, 0x1F), Col(0x1A, 0x5D, 0xA4, 0xC1)) == Col(0x06, 0x40, 0xBA, 0xDE)
  {
  }

  lemma Sums2()
    ensures RotCol(Col(0x06, 0x40, 0xBA, 0xDE)) == Col(0x40, 0xBA, 0xDE, 0x06)
    ensures SubCol(Col(0x40, 0xBA, 0xDE, 0x06)) == Col(0x09, 0xF4, 0x1D, 0x6F)
    ensures AddCol(Col(0x09, 0xF4, 0x1D, 0x6F), Col(0x02, 0, 0, 0)) == Col(0x0B, 0xF4, 0x1D, 0x6F)
    ensures AddCol(Col(0xA5, 0x73, 0xC2, 0x9F), Col(0x0B, 0xF4, 0x1D, 0x6F)) == Col(0xAE, 0x87, 0xDF, 0xF0)
    ensures AddCol(Col(0xA1, 0x76, 0xC4, 0x98), Col(0xAE, 0x87, 0xDF, 0xF0)) == Col(0x0F, 0xF1, 0x1B, 0x68)
    ensures AddCol(Col(0xA9, 0x7F, 0xCE, 0x93), Col(0x0F, 0xF1, 0x1B, 0x68)) == Col(0xA6, 0x8E, 0xD5, 0xFB)
    ensures AddCol(Col(0xA5, 0x72, 0xC0, 0x9C), Col(0xA6, 0x8E, 0xD5, 0xFB)) == Col(0x03, 0xFC, 0x15, 0x67)
    ensures SubCol(Col(0x03, 0xFC, 0x15, 0x67)) == Col(0x7B, 0xB0, 0x59, 0x85)
    ensures AddCol(Col(0x16, 0x51, 0xA8, 0xCD), Col(0x7B, 0xB0, 0x59, 0x85)) == Col(0x6D, 0xE1, 0xF1, 0x48)
    ensures AddCol(Col(0x02, 0x44, 0xBE, 0xDA), Col(0x6D, 0xE1, 0xF1, 0x48)) == Col(0x6F, 0xA5, 0x4F, 0x92)
    ensures AddCol(Col(0x1A, 0x5D, 0xA4, 0xC1), Col(0x6F, 0xA5, 0x4F, 0x92)) == Col(0x75, 0xF8, 0xEB, 0x53)
    ensures AddCol(Col(0x06, 0x40, 0xBA, 0xDE), Col(0x75, 0xF8, 0xEB, 0x53)) == Col(0x73, 0xB8, 0x51, 0x8D)
  {
  }

  lemma Sums3()
    ensures RotCol(Col(0x73, 0xB8, 0x51, 0x8D)) == Col(0xB8, 0x51, 0x8D, 0x73)
    ensures SubCol(Col(0xB8, 0x51, 0x8D, 0x73)) == Col(0x6C, 0xD1, 0x5D, 0x8F)
    ensures AddCol(Col(0x6C, 0xD1, 0x5D, 0x8F), Col(0x04, 0, 0, 0)) == Col(0x68, 0xD1, 0x5D, 0x8F)
    ensures AddCol(Col(0xAE, 0x87, 0xDF, 0xF0), Col(0x68, 0xD1, 0x5D, 0x8F)) == Col(0xC6, 0x56, 0x82, 0x7F)
    ensures AddCol(Col(0x0F, 0xF1, 0x1B, 0x68), Col(0xC6, 0x56, 0x82, 0x7F)) == Col(0xC9, 0xA7, 0x99, 0x17)
    ensures AddCol(Col(0xA6, 0x8E, 0xD5, 0xFB), Col(0xC9, 0xA7, 0x99, 0x17)) == Col(0x6F, 0x29, 0x4C, 0xEC)
    ensures AddCol(Col(0x03, 0xFC, 0x15, 0x67), Col(0x6F, 0x29, 0x4C, 0xEC)) == Col(0x6C, 0xD5, 0x59, 0x8B)
    ensures SubCol(Col(0x6C, 0xD5, 0x59, 0x8B)) == Col(0x50, 0x03, 0xCB, 0x3D)
    ensures AddCol(Col(0x6D, 0xE1, 0xF1, 0x48), Col(0x50, 0x03, 0xCB, 0x3D)) == Col(0x3D, 0xE2, 0x3A, 0x75)
    ensures AddCol(Col(0x6F, 0xA5, 0x4F, 0x92), Col(0x3D, 0xE2, 0x3A, 0x75)) == Col(0x52, 0x47, 0x75, 0xE7)
    ensures AddCol(Col(0x75, 0xF8, 0xEB, 0x53), Col(0x52, 0x47, 0x75, 0xE7)) == Col(0x27, 0xBF, 0x9E, 0xB4)
    ensures AddCol(Col(0x73, 0xB8, 0x51, 0x8D), Col(0x27, 0xBF, 0x9E, 0xB4)) == Col(0x54, 0x07, 0xCF, 0x39)
  {
  }

  lemma Sums4()
    ensures RotCol(Col(0x54, 0x07, 0xCF, 0x39)) == Col(0x07, 0xCF, 0x39, 0x54)
    ensures SubCol(Col(0x07, 0xCF, 0x39, 0x54)) == Col(0xC5, 0x8A, 0x12, 0x20)
    ensures AddCol(Col(0xC5, 0x8A, 0x12, 0x20), Col(0x08, 0, 0, 0)) == Col(0xCD, 0x8A, 0x12, 0x20)
    ensures AddCol(Col(0xC6, 0x56, 0x82, 0x7F), Col(0xCD, 0x8A, 0x12, 0x20)) == Col(0x0B, 0xDC, 0x90, 0x5F)
    ensures AddCol(Col(0xC9, 0xA7, 0x99, 0x17), Col(0x0B, 0xDC, 0x90, 0x5F)) == Col(0xC2, 0x7B, 0x09, 0x48)
    ensures AddCol(Col(0x6F, 0x29, 0x4C, 0xEC), Col(0xC2, 0x7B, 0x09, 0x48)) == Col(0xAD, 0x52, 0x45, 0xA4)
    ensures AddCol(Col(0x6C, 0xD5, 0x59, 0x8B), Col(0xAD, 0x52, 0x45, 0xA4)) == Col(0xC1, 0x87, 0x1C, 0x2F)
    ensures SubCol(Col(0xC1, 0x87, 0x1C, 0x2F)) == Col(0x78, 0x17, 0x9C, 0x15)
    ensures AddCol(Col(0x3D, 0xE2, 0x3A, 0x75), Col(0x78, 0x17, 0x9C, 0x15)) == Col(0x45, 0xF5, 0xA6, 0x60)
    ensures AddCol(Col(0x52, 0x47, 0x75, 0xE7), Col(0x45, 0xF5, 0xA6, 0x60)) == Col(0x17, 0xB2, 0xD3, 0x87)
    ensures AddCol(Col(0x27, 0xBF, 0x9E, 0xB4), Col(0x17, 0xB2, 0xD3, 0x87)) == Col(0x30, 0x0D, 0x4D, 0x33)
    ensures AddCol(Col(0x54, 0x07, 0xCF, 0x39), Col(0x30, 0x0D, 0x4D, 0x33)) == Col(0x64, 0x0A, 0x82, 0x0A)
  {
  }

  lemma Sums5()
    ensures RotCol(Col(0x64, 0x0A, 0x82, 0x0A)) == Col(0x0A, 0x82, 0x0A, 0x64)
    ensures SubCol(Col(0x0A, 0x82, 0x0A, 0x64)) == Col(0x67, 0x13, 0x67, 0x43)
    ensures AddCol(Col(0x67, 0x13, 0x67, 0x43), Col(0x10, 0, 0, 0)) == Col(0x77, 0x13, 0x67, 0x43)
    ensures AddCol(Col(0x0B, 0xDC, 0x90, 0x5F), Col(0x77, 0x13, 0x67, 0x43)) == Col(0x7C, 0xCF, 0xF7, 0x1C)
    ensures AddCol(Col(0xC2, 0x7B, 0x09, 0x48), Col(0x7C, 0xCF, 0xF7, 0x1C)) == Col(0xBE, 0xB4, 0xFE, 0x54)
    ensures AddCol(Col(0xAD, 0x52, 0x45, 0xA4), Col(0xBE, 0xB4, 0xFE, 0x54)) == Col(0x13, 0xE6, 0xBB, 0xF0)
    ensures AddCol(Col(0xC1, 0x87, 0x1C, 0x2F), Col(0x13, 0xE6, 0xBB, 0xF0)) == Col(0xD2, 0x61, 0xA7, 0xDF)
    ensures SubCol(Col(0xD2, 0x61, 0xA7, 0xDF)) == Col(0xB5, 0xEF, 0x5C, 0x9E)
    ensures AddCol(Col(0x45, 0xF5, 0xA6, 0x60), Col(0xB5, 0xEF, 0x5C, 0x9E)) == Col(0xF0, 0x1A, 0xFA, 0xFE)
    ensures AddCol(Col(0x17, 0xB2, 0xD3, 0x87), Col(0xF0, 0x1A, 0xFA, 0xFE)) == Col(0xE7, 0xA8, 0x29, 0x79)
    ensures AddCol(Col(0x30, 0x0D, 0x4D, 0x33), Col(0xE7, 0xA8, 0x29, 0x79)) == Col(0xD7, 0xA5, 0x64, 0x4A)
    ensures AddCol(Col(0x64, 0x0A, 0x82, 0x0A), Col(0xD7, 0xA5, 0x64, 0x4A)) == Col(0xB3, 0xAF, 0xE6, 0x40)
  {
  }

  lemma Sums6()
    ensures RotCol(Col(0xB3, 0xAF, 0xE6, 0x40)) == Col(0xAF, 0xE6, 0x40, 0xB3)
    ensures SubCol(Col(0xAF, 0xE6, 0x40, 0xB3)) == Col(0x79, 0x8E, 0x09, 0x6D)
    ensures AddCol(Col(0x79, 0x8E, 0x09, 0x6D), Col(0x20, 0, 0, 0)) == Col(0x59, 0x8E, 0x09, 0x6D)
    ensures AddCol(Col(0x7C, 0xCF, 0xF7, 0x1C), Col(0x59, 0x8E, 0x09, 0x6D)) == Col(0x25, 0x41, 0xFE, 0x71)
    ensures AddCol(Col(0xBE, 0xB4, 0xFE, 0x54), Col(0x25, 0x41, 0xFE, 0x71)) == Col(0x9B, 0xF5, 0x00, 0x25)
    ensures AddCol(Col(0x13, 0xE6, 0xBB, 0xF0), Col(0x9B, 0xF5, 0x00, 0x25)) == Col(0x88, 0x13, 0xBB, 0xD5)
    ensures AddCol(Col(0xD2, 0x61, 0xA7, 0xDF), Col(0x88, 0x13, 0xBB, 0xD5)) == Col(0x5A, 0x72, 0x1C, 0x0A)
    ensures SubCol(Col(0x5A, 0x72, 0x1C, 0x0A)) == Col(0xBE, 0x40, 0x9C, 0x67)
    ensures AddCol(Col(0xF0, 0x1A, 0xFA, 0xFE), Col(0xBE, 0x40, 0x9C, 0x67)) == Col(0x4E, 0x5A, 0x66, 0x99)
    ensures AddCol(Col(0xE7, 0xA8, 0x29, 0x79), Col(0x4E, 0x5A, 0x66, 0x99)) == Col(0xA9, 0xF2, 0x4F, 0xE0)
    ensures AddCol(Col(0xD7, 0xA5, 0x64, 0x4A), Col(0xA9, 0xF2, 0x4F, 0xE0)) == Col(0x7E, 0x57, 0x2B, 0xAA)
    ensures AddCol(Col(0xB3, 0xAF, 0xE6, 0x40), Col(0x7E, 0x57, 0x2B, 0xAA)) == Col(0xCD, 0xF8, 0xCD, 0xEA)
  {
  }

  lemma Sums7()
    ensures RotCol(Col(0xCD, 0xF8, 0xCD, 0xEA)) == Col(0xF8, 0xCD, 0xEA, 0xCD)
    ensures SubCol(Col(0xF8, 0xCD, 0xEA, 0xCD)) == Col(0x41, 0xBD, 0x87, 0xBD)
    ensures AddCol(Col(0x41, 0xBD, 0x87, 0xBD), Col(0x40, 0, 0, 0)) == Col(0x01, 0xBD, 0x87, 0xBD)
    ensures AddCol(Col(0x25, 0x41, 0xFE, 0x71), Col(0x01, 0xBD, 0x87, 0xBD)) == Col(0x24, 0xFC, 0x79, 0xCC)
    ensures AddCol(Col(0x9B, 0xF5, 0x00, 0x25), Col(0x24, 0xFC, 0x79, 0xCC)) == Col(0xBF, 0x09, 0x79, 0xE9)
    ensures AddCol(Col(0x88, 0x13, 0xBB, 0xD5), Col(0xBF, 0x09, 0x79, 0xE9)) == Col(0x37, 0x1A, 0xC2, 0x3C)
    ensures AddCol(Col(0x5A, 0x72, 0x1C, 0x0A), Col(0x37, 0x1A, 0xC2, 0x3C)) == Col(0x6D, 0x68, 0xDE, 0x36)
  {
  }

  lemma Words0()
    ensures KeyWord(KEY, 0) == Col(0x00, 0x01, 0x02, 0x03) && KeyWord(KEY, 1) == Col(0x04, 0x05, 0x06, 0x07)
    ensures KeyWord(KEY, 2) == Col(0x08, 0x09, 0x0A, 0x0B) && KeyWord(KEY, 3) == Col(0x0C, 0x0D, 0x0E, 0x0F)
    ensures KeyWord(KEY, 4) == Col(0x10, 0x11, 0x12, 0x13) && KeyWord(KEY, 5) == Col(0x14, 0x15, 0x16, 0x17)
    ensures KeyWord(KEY, 6) == Col(0x18, 0x19, 0x1A, 0x1B) && KeyWord(KEY, 7) == Col(0x1C, 0x1D, 0x1E, 0x1F)
  {
  }

  lemma Words1()
    ensures KeyWord(KEY, 8) == Col(0xA5, 0x73, 0xC2, 0x9F) && KeyWord(KEY, 9) == Col(0xA1, 0x76, 0xC4, 0x98)
    ensures KeyWord(KEY, 10) == Col(0xA9, 0x7F, 0xCE, 0x93) && KeyWord(KEY, 11) == Col(0xA5, 0x72, 0xC0, 0x9C)
    ensures KeyWord(KEY, 12) == Col(0x16, 0x51, 0xA8, 0xCD) && KeyWord(KEY, 13) == Col(0x02, 0x44, 0xBE, 0xDA)
    ensures KeyWord(KEY, 14) == Col(0x1A, 0x5D, 0xA4, 0xC1) && KeyWord(KEY, 15) == Col(0x06, 0x40, 0xBA, 0xDE)
  {
    hide KeyWord, AddCol, SubCol, RotCol, Rcon;
    Powers();
    Words0();
    Sums1();
    KeyWordRule(KEY, 8, 8);
    KeyWordRule(KEY, 8, 9);
    KeyWordRule(KEY, 8, 10);
    KeyWordRule(KEY, 8, 11);
    KeyWordRule(KEY, 8, 12);
    KeyWordRule(KEY, 8, 13);
    KeyWordRule(KEY, 8, 14);
    KeyWordRule(KEY, 8, 15);
  }

  lemma Words2()
    ensures KeyWord(KEY, 16) == Col(0xAE, 0x87, 0xDF, 0xF0) && KeyWord(KEY, 17) == Col(0x0F, 0xF1, 0x1B, 0x68)
    ensures KeyWord(KEY, 18) == Col(0xA6, 0x8E, 0xD5, 0xFB) && KeyWord(KEY, 19) == Col(0x03, 0xFC, 0x15, 0x67)
    ensures KeyWord(KEY, 20) == Col(0x6D, 0xE1, 0xF1, 0x48) && KeyWord(KEY, 21) == Col(0x6F, 0xA5, 0x4F, 0x92)
    ensures KeyWord(KEY, 22) == Col(0x75, 0xF8, 0xEB, 0x53) && KeyWord(KEY, 23) == Col(0x73, 0xB8, 0x51, 0x8D)
  {
    hide KeyWord, AddCol, SubCol, RotCol, Rcon;
    Powers();
    Words1();
    Sums2();
    KeyWordRule(KEY, 8, 16);
    KeyWordRule(KEY, 8, 17);
    KeyWordRule(KEY, 8, 18);
    KeyWordRule(KEY, 8, 19);
    KeyWordRule(KEY, 8, 20);
    KeyWordRule(KEY, 8, 21);
    KeyWordRule(KEY, 8, 22);
    KeyWordRule(KEY, 8, 23);
  }

  lemma Words3()
    ensures KeyWord(KEY, 24) == Col(0xC6, 0x56, 0x82, 0x7F) && KeyWord(KEY, 25) == Col(0xC9, 0xA7, 0x99, 0x17)
    ensures KeyWord(KEY, 26) == Col(0x6F, 0x29, 0x4C, 0xEC) && KeyWord(KEY, 27) == Col(0x6C, 0xD5, 0x59, 0x8B)
    ensures KeyWord(KEY, 28) == Col(0x3D, 0xE2, 0x3A, 0x75) && KeyWord(KEY, 29) == Col(0x52, 0x47, 0x75, 0xE7)
    ensures KeyWord(KEY, 30) == Col(0x27, 0xBF, 0x9E, 0xB4) && KeyWord(KEY, 31) == Col(0x54, 0x07, 0xCF, 0x39)
  {
    hide KeyWord, AddCol, SubCol, RotCol, Rcon;
    Powers();
    Words2();
    Sums3();
    KeyWordRule(KEY, 8, 24);
    KeyWordRule(KEY, 8, 25);
    KeyWordRule(KEY, 8, 26);
    KeyWordRule(KEY, 8, 27);
    KeyWordRule(KEY, 8, 28);
    KeyWordRule(KEY, 8, 29);
    KeyWordRule(KEY, 8, 30);
    KeyWordRule(KEY, 8, 31);
  }

  lemma Words4()
    ensures KeyWord(KEY, 32) == Col(0x0B, 0xDC, 0x90, 0x5F) && KeyWord(KEY, 33) == Col(0xC2, 0x7B, 0x09, 0x48)
    ensures KeyWord(KEY, 34) == Col(0xAD, 0x52, 0x45, 0xA4) && KeyWord(KEY, 35) == Col(0xC1, 0x87, 0x1C, 0x2F)
    ensures KeyWord(KEY, 36) == Col(0x45, 0xF5, 0xA6, 0x60) && KeyWord(KEY, 37) == Col(0x17, 0xB2, 0xD3, 0x87)
    ensures KeyWord(KEY, 38) == Col(0x30, 0x0D, 0x4D, 0x33) && KeyWord(KEY, 39) == Col(0x64, 0x0A, 0x82, 0x0A)
  {
    hide KeyWord, AddCol, SubCol, RotCol, Rcon;
    Powers();
    Words3();
    Sums4();
    KeyWordRule(KEY, 8, 32);
    KeyWordRule(KEY, 8, 33);
    KeyWordRule(KEY, 8, 34);
    KeyWordRule(KEY, 8, 35);
    KeyWordRule(KEY, 8, 36);
    KeyWordRule(KEY, 8, 37);
    KeyWordRule(KEY, 8, 38);
    KeyWordRule(KEY, 8, 39);
  }

  lemma Words5()
    ensures KeyWord(KEY, 40) == Col(0x7C, 0xCF, 0xF7, 0x1C) && KeyWord(KEY, 41) == Col(0xBE, 0xB4, 0xFE, 0x54)
    ensures KeyWord(KEY, 42) == Col(0x13, 0xE6, 0xBB, 0xF0) && KeyWord(KEY, 43) == Col(0xD2, 0x61, 0xA7, 0xDF)
    ensures KeyWord(KEY, 44) == Col(0xF0, 0x1A, 0xFA, 0xFE) && KeyWord(KEY, 45) == Col(0xE7, 0xA8, 0x29, 0x79)
    ensures KeyWord(KEY, 46) == Col(0xD7, 0xA5, 0x64, 0x4A) && KeyWord(KEY, 47) == Col(0xB3, 0xAF, 0xE6, 0x40)
  {
    hide KeyWord, AddCol, SubCol, RotCol, Rcon;
    Powers();
    Words4();
    Sums5();
    KeyWordRule(KEY, 8, 40);
    KeyWordRule(KEY, 8, 41);
    KeyWordRule(KEY, 8, 42);
    KeyWordRule(KEY, 8, 43);
    KeyWordRule(KEY, 8, 44);
    KeyWordRule(KEY, 8, 45);
    KeyWordRule(KEY, 8, 46);
    KeyWordRule(KEY, 8, 47);
  }

  lemma Words6()
    ensures KeyWord(KEY, 48) == Col(0x25, 0x41, 0xFE, 0x71) && KeyWord(KEY, 49) == Col(0x9B, 0xF5, 0x00, 0x25)
    ensures KeyWord(KEY, 50) == Col(0x88, 0x13, 0xBB, 0xD5) && KeyWord(KEY, 51) == Col(0x5A, 0x72, 0x1C, 0x0A)
    ensures KeyWord(KEY, 52) == Col(0x4E, 0x5A, 0x66, 0x99) && KeyWord(KEY, 53) == Col(0xA9, 0xF2, 0x4F, 0xE0)
    ensures KeyWord(KEY, 54) == Col(0x7E, 0x57, 0x2B, 0xAA) && KeyWord(KEY, 55) == Col(0xCD, 0xF8, 0xCD, 0xEA)
  {
    hide KeyWord, AddCol, SubCol, RotCol, Rcon;
    Powers();
    Words5();
    Sums6();
    KeyWordRule(KEY, 8, 48);
    KeyWordRule(KEY, 8, 49);
    KeyWordRule(KEY, 8, 50);
    KeyWordRule(KEY, 8, 51);
    KeyWordRule(KEY, 8, 52);
    KeyWordRule(KEY, 8, 53);
    KeyWordRule(KEY, 8, 54);
    KeyWordRule(KEY, 8, 55);
  }

  lemma Words7()
    ensures KeyWord(KEY, 56) == Col(0x24, 0xFC, 0x79, 0xCC) && KeyWord(KEY, 57) == Col(0xBF, 0x09, 0x79, 0xE9)
    ensures KeyWord(KEY, 58) == Col(0x37, 0x1A, 0xC2, 0x3C) && KeyWord(KEY, 59) == Col(0x6D, 0x68, 0xDE, 0x36)
  {
    hide KeyWord, AddCol, SubCol, RotCol, Rcon;
    Powers();
    Words6();
    Sums7();
    KeyWordRule(KEY, 8, 56);
    KeyWordRule(KEY, 8, 57);
    KeyWordRule(KEY, 8, 58);
    KeyWordRule(KEY, 8, 59);
  }

  // ---------- The rounds ----------

  lemma Begins()
    ensures After(KEY, TEXT, 0) == [
     Col(0x00, 0x10, 0x20, 0x30), Col(0x40, 0x50, 0x60, 0x70), Col(0x80, 0x90, 0xA0, 0xB0), Col(0xC0, 0xD0, 0xE0, 0xF0)]
  {
    FirstRound(KEY, TEXT);
    Words0();
    hide KeyWord, After;
  }

  lemma Columns1()
    ensures SubCol(Col(0x00, 0x50, 0xA0, 0xF0)) == Col(0x63, 0x53, 0xE0, 0x8C)
    ensures AddCol(MixCol(Col(0x63, 0x53, 0xE0, 0x8C)), Col(0x10, 0x11, 0x12, 0x13)) == Col(0x4F, 0x63, 0x76, 0x06)
    ensures SubCol(Col(0x40, 0x90, 0xE0, 0x30)) == Col(0x09, 0x60, 0xE1, 0x04)
    ensures AddCol(MixCol(Col(0x09, 0x60, 0xE1, 0x04)), Col(0x14, 0x15, 0x16, 0x17)) == Col(0x43, 0xE0, 0xAA, 0x85)
    ensures SubCol(Col(0x80, 0xD0, 0x20, 0x70)) == Col(0xCD, 0x70, 0xB7, 0x51)
    ensures AddCol(MixCol(Col(0xCD, 0x70, 0xB7, 0x51)), Col(0x18, 0x19, 0x1A, 0x1B)) == Col(0xEF, 0xA7, 0x21, 0x32)
    ensures SubCol(Col(0xC0, 0x10, 0x60, 0xB0)) == Col(0xBA, 0xCA, 0xD0, 0xE7)
    ensures AddCol(MixCol(Col(0xBA, 0xCA, 0xD0, 0xE7)), Col(0x1C, 0x1D, 0x1E, 0x1F)) == Col(0x01, 0xA4, 0xE7, 0x05)
  {
  }

  lemma Columns2()
    ensures SubCol(Col(0x4F, 0xE0, 0x21, 0x05)) == Col(0x84, 0xE1, 0xFD, 0x6B)
    ensures AddCol(MixCol(Col(0x84, 0xE1, 0xFD, 0x6B)), Col(0xA5, 0x73, 0xC2, 0x9F)) == Col(0x18, 0x59, 0xFB, 0xC2)
    ensures SubCol(Col(0x43, 0xA7, 0xE7, 0x06)) == Col(0x1A, 0x5C, 0x94, 0x6F)
    ensures AddCol(MixCol(Col(0x1A, 0x5C, 0x94, 0x6F)), Col(0xA1, 0x76, 0xC4, 0x98)) == Col(0x8A, 0x1C, 0x00, 0xA0)
    ensures SubCol(Col(0xEF, 0xA4, 0x76, 0x85)) == Col(0xDF, 0x49, 0x38, 0x97)
    ensures AddCol(MixCol(Col(0xDF, 0x49, 0x38, 0x97)), Col(0xA9, 0x7F, 0xCE, 0x93)) == Col(0x78, 0xED, 0x8A, 0xAD)
    ensures SubCol(Col(0x01, 0x63, 0xAA, 0x32)) == Col(0x7C, 0xFB, 0xAC, 0x23)
    ensures AddCol(MixCol(Col(0x7C, 0xFB, 0xAC, 0x23)), Col(0xA5, 0x72, 0xC0, 0x9C)) == Col(0xC4, 0x2F, 0x61, 0x09)
  {
  }

  lemma Columns3()
    ensures SubCol(Col(0x18, 0x1C, 0x8A, 0x09)) == Col(0xAD, 0x9C, 0x7E, 0x01)
    ensures AddCol(MixCol(Col(0xAD, 0x9C, 0x7E, 0x01)), Col(0x16, 0x51, 0xA8, 0xCD)) == Col(0x97, 0x5C, 0x66, 0xC1)
    ensures SubCol(Col(0x8A, 0xED, 0x61, 0xC2)) == Col(0x7E, 0x55, 0xEF, 0x25)
    ensures AddCol(MixCol(Col(0x7E, 0x55, 0xEF, 0x25)), Col(0x02, 0x44, 0xBE, 0xDA)) == Col(0xCB, 0x9F, 0x3F, 0xA8)
    ensures SubCol(Col(0x78, 0x2F, 0xFB, 0xA0)) == Col(0xBC, 0x15, 0x0F, 0xE0)
    ensures AddCol(MixCol(Col(0xBC, 0x15, 0x0F, 0xE0)), Col(0x1A, 0x5D, 0xA4, 0xC1)) == Col(0xA9, 0x3A, 0x28, 0xDF)
    ensures SubCol(Col(0xC4, 0x59, 0x00, 0xAD)) == Col(0x1C, 0xCB, 0x63, 0x95)
    ensures AddCol(MixCol(Col(0x1C, 0xCB, 0x63, 0x95)), Col(0x06, 0x40, 0xBA, 0xDE)) == Col(0x8E, 0xE1, 0x0F, 0x63)
  {
  }

  lemma Rounds1()
    ensures After(KEY, TEXT, 3) == [
     Col(0x97, 0x5C, 0x66, 0xC1), Col(0xCB, 0x9F, 0x3F, 0xA8), Col(0xA9, 0x3A, 0x28, 0xDF), Col(0x8E, 0xE1, 0x0F, 0x63)]
  {
    hide KeyWord, After, SubCol, MixCol, AddCol;
    Begins();
    Words0();
    Words1();
    Columns1();
    NextRound(KEY, TEXT, 1);
    Columns2();
    NextRound(KEY, TEXT, 2);
    Columns3();
    NextRound(KEY, TEXT, 3);
  }

  lemma Columns4()
    ensures SubCol(Col(0x97, 0x9F, 0x28, 0x63)) == Col(0x88, 0xDB, 0x34, 0xFB)
    ensures AddCol(MixCol(Col(0x88, 0xDB, 0x34, 0xFB)), Col(0xAE, 0x87, 0xDF, 0xF0)) == Col(0x1C, 0x05, 0xF2, 0x71)
    ensures SubCol(Col(0xCB, 0x3A, 0x0F, 0xC1)) == Col(0x1F, 0x80, 0x76, 0x78)
    ensures AddCol(MixCol(Col(0x1F, 0x80, 0x76, 0x78)), Col(0x0F, 0xF1, 0x1B, 0x68)) == Col(0xA4, 0x17, 0xE0, 0x4F)
    ensures SubCol(Col(0xA9, 0xE1, 0x66, 0xA8)) == Col(0xD3, 0xF8, 0x33, 0xC2)
    ensures AddCol(MixCol(Col(0xD3, 0xF8, 0x33, 0xC2)), Col(0xA6, 0x8E, 0xD5, 0xFB)) == Col(0xF9, 0x21, 0xC5, 0xC1)
    ensures SubCol(Col(0x8E, 0x5C, 0x3F, 0xDF)) == Col(0x19, 0x4A, 0x75, 0x9E)
    ensures AddCol(MixCol(Col(0x19, 0x4A, 0x75, 0x9E)), Col(0x03, 0xFC, 0x15, 0x67)) == Col(0x04, 0x70, 0x15, 0x54)
  {
  }

  lemma Columns5()
    ensures SubCol(Col(0x1C, 0x17, 0xC5, 0x54)) == Col(0x9C, 0xF0, 0xA6, 0x20)
    ensures AddCol(MixCol(Col(0x9C, 0xF0, 0xA6, 0x20)), Col(0x6D, 0xE1, 0xF1, 0x48)) == Col(0xC3, 0x57, 0xAA, 0xE1)
    ensures SubCol(Col(0xA4, 0x21, 0x15, 0x71)) == Col(0x49, 0xFD, 0x59, 0xA3)
    ensures AddCol(MixCol(Col(0x49, 0xFD, 0x59, 0xA3)), Col(0x6F, 0xA5, 0x4F, 0x92)) == Col(0x1B, 0x45, 0xB7, 0xB0)
    ensures SubCol(Col(0xF9, 0x70, 0xF2, 0x4F)) == Col(0x99, 0x51, 0x89, 0x84)
    ensures AddCol(MixCol(Col(0x99, 0x51, 0x89, 0x84)), Col(0x75, 0xF8, 0xEB, 0x53)) == Col(0xA2, 0xC7, 0xBD, 0x28)
    ensures SubCol(Col(0x04, 0x05, 0xE0, 0xC1)) == Col(0xF2, 0x6B, 0xE1, 0x78)
    ensures AddCol(MixCol(Col(0xF2, 0x6B, 0xE1, 0x78)), Col(0x73, 0xB8, 0x51, 0x8D)) == Col(0xA8, 0xDC, 0x99, 0xFA)
  {
  }

  lemma Columns6()
    ensures SubCol(Col(0xC3, 0x45, 0xBD, 0xFA)) == Col(0x2E, 0x6E, 0x7A, 0x2D)
    ensures AddCol(MixCol(Col(0x2E, 0x6E, 0x7A, 0x2D)), Col(0xC6, 0x56, 0x82, 0x7F)) == Col(0x7F, 0x07, 0x41, 0x43)
    ensures SubCol(Col(0x1B, 0xC7, 0x99, 0xE1)) == Col(0xAF, 0xC6, 0xEE, 0xF8)
    ensures AddCol(MixCol(Col(0xAF, 0xC6, 0xEE, 0xF8)), Col(0xC9, 0xA7, 0x99, 0x17)) == Col(0xCB, 0x4E, 0x24, 0x3E)
    ensures SubCol(Col(0xA2, 0xDC, 0xAA, 0xB0)) == Col(0x3A, 0x86, 0xAC, 0xE7)
    ensures AddCol(MixCol(Col(0x3A, 0x86, 0xAC, 0xE7)), Col(0x6F, 0x29, 0x4C, 0xEC)) == Col(0xC1, 0x0C, 0x81, 0x5D)
    ensures SubCol(Col(0xA8, 0x57, 0xB7, 0x28)) == Col(0xC2, 0x5B, 0xA9, 0x34)
    ensures AddCol(MixCol(Col(0xC2, 0x5B, 0xA9, 0x34)), Col(0x6C, 0xD5, 0x59, 0x8B)) == Col(0x83, 0x75, 0xD5, 0x4C)
  {
  }

  lemma Rounds2()
    ensures After(KEY, TEXT, 6) == [
     Col(0x7F, 0x07, 0x41, 0x43), Col(0xCB, 0x4E, 0x24, 0x3E), Col(0xC1, 0x0C, 0x81, 0x5D), Col(0x83, 0x75, 0xD5, 0x4C)]
  {
    hide KeyWord, After, SubCol, MixCol, AddCol;
    Rounds1();
    Words2();
    Words3();
    Columns4();
    NextRound(KEY, TEXT, 4);
    Columns5();
    NextRound(KEY, TEXT, 5);
    Columns6();
    NextRound(KEY, TEXT, 6);
  }

  lemma Columns7()
    ensures SubCol(Col(0x7F, 0x4E, 0x81, 0x4C)) == Col(0xD2, 0x2F, 0x0C, 0x29)
    ensures AddCol(MixCol(Col(0xD2, 0x2F, 0x0C, 0x29)), Col(0x3D, 0xE2, 0x3A, 0x75)) == Col(0xD6, 0x53, 0xA4, 0x69)
    ensures SubCol(Col(0xCB, 0x0C, 0xD5, 0x43)) == Col(0x1F, 0xFE, 0x03, 0x1A)
    ensures AddCol(MixCol(Col(0x1F, 0xFE, 0x03, 0x1A)), Col(0x52, 0x47, 0x75, 0xE7)) == Col(0x6C, 0xA0, 0xBC, 0x0F)
    ensures SubCol(Col(0xC1, 0x75, 0x41, 0x3E)) == Col(0x78, 0x9D, 0x83, 0xB2)
    ensures AddCol(MixCol(Col(0x78, 0x9D, 0x83, 0xB2)), Col(0x27, 0xBF, 0x9E, 0xB4)) == Col(0x5A, 0xCA, 0xAB, 0x5D)
    ensures SubCol(Col(0x83, 0x07, 0x24, 0x5D)) == Col(0xEC, 0xC5, 0x36, 0x4C)
    ensures AddCol(MixCol(Col(0xEC, 0xC5, 0x36, 0x4C)), Col(0x54, 0x07, 0xCF, 0x39)) == Col(0xB9, 0x6C, 0x5E, 0x7D)
  {
  }

  lemma Columns8()
    ensures SubCol(Col(0xD6, 0xA0, 0xAB, 0x7D)) == Col(0xF6, 0xE0, 0x62, 0xFF)
    ensures AddCol(MixCol(Col(0xF6, 0xE0, 0x62, 0xFF)), Col(0x0B, 0xDC, 0x90, 0x5F)) == Col(0x5A, 0xA8, 0x58, 0x39)
    ensures SubCol(Col(0x6C, 0xCA, 0x5E, 0x69)) == Col(0x50, 0x74, 0x58, 0xF9)
    ensures AddCol(MixCol(Col(0x50, 0x74, 0x58, 0xF9)), Col(0xC2, 0x7B, 0x09, 0x48)) == Col(0x5F, 0xD2, 0x8D, 0x7D)
    ensures SubCol(Col(0x5A, 0x6C, 0xA4, 0x0F)) == Col(0xBE, 0x50, 0x49, 0x76)
    ensures AddCol(MixCol(Col(0xBE, 0x50, 0x49, 0x76)), Col(0xAD, 0x52, 0x45, 0xA4)) == Col(0x05, 0xE1, 0xA3, 0x88)
    ensures SubCol(Col(0xB9, 0x53, 0xBC, 0x5D)) == Col(0x56, 0xED, 0x65, 0x4C)
    ensures AddCol(MixCol(Col(0x56, 0xED, 0x65, 0x4C)), Col(0xC1, 0x87, 0x1C, 0x2F)) == Col(0x68, 0xF3, 0xB9, 0xC5)
  {
  }

  lemma Columns9()
    ensures SubCol(Col(0x5A, 0xD2, 0xA3, 0xC5)) == Col(0xBE, 0xB5, 0x0A, 0xA6)
    ensures AddCol(MixCol(Col(0xBE, 0xB5, 0x0A, 0xA6)), Col(0x45, 0xF5, 0xA6, 0x60)) == Col(0x4A, 0x82, 0x48, 0x51)
    ensures SubCol(Col(0x5F, 0xE1, 0xB9, 0x39)) == Col(0xCF, 0xF8, 0x56, 0x12)
    ensures AddCol(MixCol(Col(0xCF, 0xF8, 0x56, 0x12)), Col(0x17, 0xB2, 0xD3, 0x87)) == Col(0xC5, 0x7E, 0x7E, 0x47)
    ensures SubCol(Col(0x05, 0xF3, 0x58, 0x7D)) == Col(0x6B, 0x0D, 0x6A, 0xFF)
    ensures AddCol(MixCol(Col(0x6B, 0x0D, 0x6A, 0xFF)), Col(0x30, 0x0D, 0x4D, 0x33)) == Col(0x64, 0x3D, 0xE5, 0x0C)
    ensures SubCol(Col(0x68, 0xA8, 0x8D, 0x88)) == Col(0x45, 0xC2, 0x5D, 0xC4)
    ensures AddCol(MixCol(Col(0x45, 0xC2, 0x5D, 0xC4)), Col(0x64, 0x0A, 0x82, 0x0A)) == Col(0x2A, 0xF3, 0xE8, 0xC9)
  {
  }

  lemma Rounds3()
    ensures After(KEY, TEXT, 9) == [
     Col(0x4A, 0x82, 0x48, 0x51), Col(0xC5, 0x7E, 0x7E, 0x47), Col(0x64, 0x3D, 0xE5, 0x0C), Col(0x2A, 0xF3, 0xE8, 0xC9)]
  {
    hide KeyWord, After, SubCol, MixCol, AddCol;
    Rounds2();
    Words3();
    Words4();
    Columns7();
    NextRound(KEY, TEXT, 7);
    Columns8();
    NextRound(KEY, TEXT, 8);
    Columns9();
    NextRound(KEY, TEXT, 9);
  }

  lemma Columns10()
    ensures SubCol(Col(0x4A, 0x7E, 0xE5, 0xC9)) == Col(0xD6, 0xF3, 0xD9, 0xDD)
    ensures AddCol(MixCol(Col(0xD6, 0xF3, 0xD9, 0xDD)), Col(0x7C, 0xCF, 0xF7, 0x1C)) == Col(0xC1, 0x49, 0x07, 0xF6)
    ensures SubCol(Col(0xC5, 0x3D, 0xE8, 0x51)) == Col(0xA6, 0x27, 0x9B, 0xD1)
    ensures AddCol(MixCol(Col(0xA6, 0x27, 0x9B, 0xD1)), Col(0xBE, 0xB4, 0xFE, 0x54)) == Col(0xCA, 0x3B, 0x3A, 0xA0)
    ensures SubCol(Col(0x64, 0xF3, 0x48, 0x47)) == Col(0x43, 0x0D, 0x52, 0xA0)
    ensures AddCol(MixCol(Col(0x43, 0x0D, 0x52, 0xA0)), Col(0x13, 0xE6, 0xBB, 0xF0)) == Col(0x70, 0xE9, 0xAA, 0x31)
    ensures SubCol(Col(0x2A, 0x82, 0x7E, 0x0C)) == Col(0xE5, 0x13, 0xF3, 0xFE)
    ensures AddCol(MixCol(Col(0xE5, 0x13, 0xF3, 0xFE)), Col(0xD2, 0x61, 0xA7, 0xDF)) == Col(0x3B, 0x52, 0xB5, 0xEC)
  {
  }

  lemma Columns11()
    ensures SubCol(Col(0xC1, 0x3B, 0xAA, 0xEC)) == Col(0x78, 0xE2, 0xAC, 0xCE)
    ensures AddCol(MixCol(Col(0x78, 0xE2, 0xAC, 0xCE)), Col(0xF0, 0x1A, 0xFA, 0xFE)) == Col(0x5F, 0x9C, 0x6A, 0xBF)
    ensures SubCol(Col(0xCA, 0xE9, 0xB5, 0xF6)) == Col(0x74, 0x1E, 0xD5, 0x42)
    ensures AddCol(MixCol(Col(0x74, 0x1E, 0xD5, 0x42)), Col(0xE7, 0xA8, 0x29, 0x79)) == Col(0xBA, 0xC6, 0x34, 0xAA)
    ensures SubCol(Col(0x70, 0x52, 0x07, 0xA0)) == Col(0x51, 0x00, 0xC5, 0xE0)
    ensures AddCol(MixCol(Col(0x51, 0x00, 0xC5, 0xE0)), Col(0xD7, 0xA5, 0x64, 0x4A)) == Col(0x50, 0x40, 0x9F, 0xA7)
    ensures SubCol(Col(0x3B, 0x49, 0x3A, 0x31)) == Col(0xE2, 0x3B, 0x80, 0xC7)
    ensures AddCol(MixCol(Col(0xE2, 0x3B, 0x80, 0xC7)), Col(0xB3, 0xAF, 0xE6, 0x40)) == Col(0x66, 0x67, 0x76, 0x53)
  {
  }

  lemma Columns12()
    ensures SubCol(Col(0x5F, 0xC6, 0x9F, 0x53)) == Col(0xCF, 0xB4, 0xDB, 0xED)
    ensures AddCol(MixCol(Col(0xCF, 0xB4, 0xDB, 0xED)), Col(0x25, 0x41, 0xFE, 0x71)) == Col(0x51, 0x66, 0x04, 0x95)
    ensures SubCol(Col(0xBA, 0x40, 0x76, 0xBF)) == Col(0xF4, 0x09, 0x38, 0x08)
    ensures AddCol(MixCol(Col(0xF4, 0x09, 0x38, 0x08)), Col(0x9B, 0xF5, 0x00, 0x25)) == Col(0x43, 0x53, 0x95, 0x03)
    ensures SubCol(Col(0x50, 0x67, 0x6A, 0xAA)) == Col(0x53, 0x85, 0x02, 0xAC)
    ensures AddCol(MixCol(Col(0x53, 0x85, 0x02, 0xAC)), Col(0x88, 0x13, 0xBB, 0xD5)) == Col(0x14, 0xFB, 0x86, 0xE4)
    ensures SubCol(Col(0x66, 0x9C, 0x34, 0xA7)) == Col(0x33, 0xDE, 0x18, 0x5C)
    ensures AddCol(MixCol(Col(0x33, 0xDE, 0x18, 0x5C)), Col(0x5A, 0x72, 0x1C, 0x0A)) == Col(0x01, 0x92, 0x25, 0x21)
  {
  }

  lemma Rounds4()
    ensures After(KEY, TEXT, 12) == [
     Col(0x51, 0x66, 0x04, 0x95), Col(0x43, 0x53, 0x95, 0x03), Col(0x14, 0xFB, 0x86, 0xE4), Col(0x01, 0x92, 0x25, 0x21)]
  {
    hide KeyWord, After, SubCol, MixCol, AddCol;
    Rounds3();
    Words5();
    Words6();
    Columns10();
    NextRound(KEY, TEXT, 10);
    Columns11();
    NextRound(KEY, TEXT, 11);
    Columns12();
    NextRound(KEY, TEXT, 12);
  }

  lemma Columns13()
    ensures SubCol(Col(0x51, 0x53, 0x86, 0x21)) == Col(0xD1, 0xED, 0x44, 0xFD)
    ensures AddCol(MixCol(Col(0xD1, 0xED, 0x44, 0xFD)), Col(0x4E, 0x5A, 0x66, 0x99)) == Col(0x62, 0x7B, 0xCE, 0xB9)
    ensures SubCol(Col(0x43, 0xFB, 0x25, 0x95)) == Col(0x1A, 0x0F, 0x3F, 0x2A)
    ensures AddCol(MixCol(Col(0x1A, 0x0F, 0x3F, 0x2A)), Col(0xA9, 0xF2, 0x4F, 0xE0)) == Col(0x99, 0x9D, 0x5A, 0xAA)
    ensures SubCol(Col(0x14, 0x92, 0x04, 0x03)) == Col(0xFA, 0x4F, 0xF2, 0x7B)
    ensures AddCol(MixCol(Col(0xFA, 0x4F, 0xF2, 0x7B)), Col(0x7E, 0x57, 0x2B, 0xAA)) == Col(0xC9, 0x45, 0xEC, 0xF4)
    ensures SubCol(Col(0x01, 0x66, 0x95, 0xE4)) == Col(0x7C, 0x33, 0x2A, 0x69)
    ensures AddCol(MixCol(Col(0x7C, 0x33, 0x2A, 0x69)), Col(0xCD, 0xF8, 0xCD, 0xEA)) == Col(0x23, 0xF5, 0x6D, 0xA5)
  {
  }

  lemma Rounds5()
    ensures After(KEY, TEXT, 13) == [
     Col(0x62, 0x7B, 0xCE, 0xB9), Col(0x99, 0x9D, 0x5A, 0xAA), Col(0xC9, 0x45, 0xEC, 0xF4), Col(0x23, 0xF5, 0x6D, 0xA5)]
  {
    hide KeyWord, After, SubCol, MixCol, AddCol;
    Rounds4();
    Words6();
    Columns13();
    NextRound(KEY, TEXT, 13);
  }

  lemma LastColumns()
    ensures SubCol(Col(0x62, 0x9D, 0xEC, 0xA5)) == Col(0xAA, 0x5E, 0xCE, 0x06)
    ensures AddCol(Col(0xAA, 0x5E, 0xCE, 0x06), Col(0x24, 0xFC, 0x79, 0xCC)) == Col(0x8E, 0xA2, 0xB7, 0xCA)
    ensures SubCol(Col(0x99, 0x45, 0x6D, 0xB9)) == Col(0xEE, 0x6E, 0x3C, 0x56)
    ensures AddCol(Col(0xEE, 0x6E, 0x3C, 0x56), Col(0xBF, 0x09, 0x79, 0xE9)) == Col(0x51, 0x67, 0x45, 0xBF)
    ensures SubCol(Col(0xC9, 0xF5, 0xCE, 0xAA)) == Col(0xDD, 0xE6, 0x8B, 0xAC)
    ensures AddCol(Col(0xDD, 0xE6, 0x8B, 0xAC), Col(0x37, 0x1A, 0xC2, 0x3C)) == Col(0xEA, 0xFC, 0x49, 0x90)
    ensures SubCol(Col(0x23, 0x7B, 0x5A, 0xF4)) == Col(0x26, 0x21, 0xBE, 0xBF)
    ensures AddCol(Col(0x26, 0x21, 0xBE, 0xBF), Col(0x6D, 0x68, 0xDE, 0x36)) == Col(0x4B, 0x49, 0x60, 0x89)
  {
  }

  lemma Ends()
    ensures IsSchedule(KeyExpansion(KEY, 4), 4, 14)
    ensures Cipher(TEXT, KeyExpansion(KEY, 4), 14) == [
     Col(0x8E, 0xA2, 0xB7, 0xCA), Col(0x51, 0x67, 0x45, 0xBF), Col(0xEA, 0xFC, 0x49, 0x90), Col(0x4B, 0x49, 0x60, 0x89)]
  {
    hide KeyWord, After, SubCol, MixCol, AddCol, Cipher, KeyExpansion;
    Rounds5();
    Words7();
    LastColumns();
    LastRound(KEY, TEXT, 14);
  }

  // ---------- The answer ----------

  lemma FirstHalf()
    ensures ToState([
      0x00, 0x01, 0x02, 0x03, 0x04, 0x05, 0x06, 0x07, 0x08, 0x09, 0x0A, 0x0B, 0x0C, 0x0D, 0x0E, 0x0F]) == KEY[..4]
  {
  }

  lemma SecondHalf()
    ensures ToState([
      0x10, 0x11, 0x12, 0x13, 0x14, 0x15, 0x16, 0x17, 0x18, 0x19, 0x1A, 0x1B, 0x1C, 0x1D, 0x1E, 0x1F]) == KEY[4..]
  {
  }

  lemma KeyState()
    ensures ToState([
      0x00, 0x01, 0x02, 0x03, 0x04, 0x05, 0x06, 0x07, 0x08, 0x09, 0x0A, 0x0B, 0x0C, 0x0D, 0x0E, 0x0F,
      0x10, 0x11, 0x12, 0x13, 0x14, 0x15, 0x16, 0x17, 0x18, 0x19, 0x1A, 0x1B, 0x1C, 0x1D, 0x1E, 0x1F]) == KEY
  {
    hide ToState;
    FirstHalf();
    SecondHalf();
    var a: Bytes, b: Bytes := [
      0x00, 0x01, 0x02, 0x03, 0x04, 0x05, 0x06, 0x07, 0x08, 0x09, 0x0A, 0x0B, 0x0C, 0x0D, 0x0E, 0x0F], [
      0x10, 0x11, 0x12, 0x13, 0x14, 0x15, 0x16, 0x17, 0x18, 0x19, 0x1A, 0x1B, 0x1C, 0x1D, 0x1E, 0x1F];
    assert a + b == [
      0x00, 0x01, 0x02, 0x03, 0x04, 0x05, 0x06, 0x07, 0x08, 0x09, 0x0A, 0x0B, 0x0C, 0x0D, 0x0E, 0x0F,
      0x10, 0x11, 0x12, 0x13, 0x14, 0x15, 0x16, 0x17, 0x18, 0x19, 0x1A, 0x1B, 0x1C, 0x1D, 0x1E, 0x1F];
    StatesJoin(a, b);
    assert KEY[..4] + KEY[4..] == KEY;
  }

  lemma TextState()
    ensures ToState([
      0x00, 0x11, 0x22, 0x33, 0x44, 0x55, 0x66, 0x77, 0x88, 0x99, 0xAA, 0xBB, 0xCC, 0xDD, 0xEE, 0xFF]) == TEXT
  {
  }

  lemma AnswerBytes()
    ensures ToBytes([
     Col(0x8E, 0xA2, 0xB7, 0xCA), Col(0x51, 0x67, 0x45, 0xBF), Col(0xEA, 0xFC, 0x49, 0x90), Col(0x4B, 0x49, 0x60, 0x89)]
    ) == [
      0x8E, 0xA2, 0xB7, 0xCA, 0x51, 0x67, 0x45, 0xBF, 0xEA, 0xFC, 0x49, 0x90, 0x4B, 0x49, 0x60, 0x89]
  {
  }

  // Appendix C.3 of FIPS 197.
  lemma Answer()
    ensures EncryptBytes([
      0x00, 0x01, 0x02, 0x03, 0x04, 0x05, 0x06, 0x07, 0x08, 0x09, 0x0A, 0x0B, 0x0C, 0x0D, 0x0E, 0x0F,
      0x10, 0x11, 0x12, 0x13, 0x14, 0x15, 0x16, 0x17, 0x18, 0x19, 0x1A, 0x1B, 0x1C, 0x1D, 0x1E, 0x1F], 4, [
      0x00, 0x11, 0x22, 0x33, 0x44, 0x55, 0x66, 0x77, 0x88, 0x99, 0xAA, 0xBB, 0xCC, 0xDD, 0xEE, 0xFF]) == [
      0x8E, 0xA2, 0xB7, 0xCA, 0x51, 0x67, 0x45, 0xBF, 0xEA, 0xFC, 0x49, 0x90, 0x4B, 0x49, 0x60, 0x89]
  {
    hide ToState, ToBytes, Cipher, KeyExpansion;
    KeyState();
    TextState();
    AnswerBytes();
    Ends();
  }
}
