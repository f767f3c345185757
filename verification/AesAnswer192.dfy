/** The example of FIPS 197 with a key of 24 bytes, word by word and round by round. */
module AesAnswer192 {
  import opened Common
  import opened Fips197
  import opened Aes
  import opened AesLaws

  const KEY: State := [
    Col(0x00, 0x01, 0x02, 0x03), Col(0x04, 0x05, 0x06, 0x07), Col(0x08, 0x09, 0x0A, 0x0B), Col(0x0C, 0x0D, 0x0E, 0x0F),
    Col(0x10, 0x11, 0x12, 0x13), Col(0x14, 0x15, 0x16, 0x17)]

  const TEXT: State := [
    Col(0x00, 0x11, 0x22, 0x33), Col(0x44, 0x55, 0x66, 0x77), Col(0x88, 0x99, 0xAA, 0xBB), Col(0xCC, 0xDD, 0xEE, 0xFF)]

  // ---------- The key schedule ----------

  lemma Sums1()
    ensures RotCol(Col(0x14, 0x15, 0x16, 0x17)) == Col(0x15, 0x16, 0x17, 0x14)
    ensures SubCol(Col(0x15, 0x16, 0x17, 0x14)) == Col(0x59, 0x47, 0xF0, 0xFA)
    ensures AddCol(Col(0x59, 0x47, 0xF0, 0xFA), Col(0x01, 0, 0, 0)) == Col(0x58, 0x47, 0xF0, 0xFA)
    ensures AddCol(Col(0x00, 0x01, 0x02, 0x03), Col(0x58, 0x47, 0xF0, 0xFA)) == Col(0x58, 0x46, 0xF2, 0xF9)
    ensures AddCol(Col(0x04, 0x05, 0x06, 0x07), Col(0x58, 0x46, 0xF2, 0xF9)) == Col(0x5C, 0x43, 0xF4, 0xFE)
    ensures AddCol(Col(0x08, 0x09, 0x0A, 0x0B), Col(0x5C, 0x43, 0xF4, 0xFE)) == Col(0x54, 0x4A, 0xFE, 0xF5)
    ensures AddCol(Col(0x0C, 0x0D, 0x0E, 0x0F), Col(0x54, 0x4A, 0xFE, 0xF5)) == Col(0x58, 0x47, 0xF0, 0xFA)
    ensures AddCol(Col(0x10, 0x11, 0x12, 0x13), Col(0x58, 0x47, 0xF0, 0xFA)) == Col(0x48, 0x56, 0xE2, 0xE9)
    ensures AddCol(Col(0x14, 0x15, 0x16, 0x17), Col(0x48, 0x56, 0xE2, 0xE9)) == Col(0x5C, 0x43, 0xF4, 0xFE)
  {
  }

  lemma Sums2()
    ensures RotCol(Col(0x5C, 0x43, 0xF4, 0xFE)) == Col(0x43, 0xF4, 0xFE, 0x5C)
    ensures SubCol(Col(0x43, 0xF4, 0xFE, 0x5C)) == Col(0x1A, 0xBF, 0xBB, 0x4A)
    ensures AddCol(Col(0x1A, 0xBF, 0xBB, 0x4A), Col(0x02, 0, 0, 0)) == Col(0x18, 0xBF, 0xBB, 0x4A)
    ensures AddCol(Col(0x58, 0x46, 0xF2, 0xF9), Col(0x18, 0xBF, 0xBB, 0x4A)) == Col(0x40, 0xF9, 0x49, 0xB3)
    ensures AddCol(Col(0x5C, 0x43, 0xF4, 0xFE), Col(0x40, 0xF9, 0x49, 0xB3)) == Col(0x1C, 0xBA, 0xBD, 0x4D)
    ensures AddCol(Col(0x54, 0x4A, 0xFE, 0xF5), Col(0x1C, 0xBA, 0xBD, 0x4D)) == Col(0x48, 0xF0, 0x43, 0xB8)
    ensures AddCol(Col(0x58, 0x47, 0xF0, 0xFA), Col(0x48, 0xF0, 0x43, 0xB8)) == Col(0x10, 0xB7, 0xB3, 0x42)
    ensures AddCol(Col(0x48, 0x56, 0xE2, 0xE9), Col(0x10, 0xB7, 0xB3, 0x42)) == Col(0x58, 0xE1, 0x51, 0xAB)
    ensures AddCol(Col(0x5C, 0x43, 0xF4, 0xFE), Col(0x58, 0xE1, 0x51, 0xAB)) == Col(0x04, 0xA2, 0xA5, 0x55)
  {
  }

  lemma Sums3()
    ensures RotCol(Col(0x04, 0xA2, 0xA5, 0x55)) == Col(0xA2, 0xA5, 0x55, 0x04)
    ensures SubCol(Col(0xA2, 0xA5, 0x55, 0x04)) == Col(0x3A, 0x06, 0xFC, 0xF2)
    ensures AddCol(Col(0x3A, 0x06, 0xFC, 0xF2), Col(0x04, 0, 0, 0)) == Col(0x3E, 0x06, 0xFC, 0xF2)
    ensures AddCol(Col(0x40, 0xF9, 0x49, 0xB3), Col(0x3E, 0x06, 0xFC, 0xF2)) == Col(0x7E, 0xFF, 0xB5, 0x41)
    ensures AddCol(Col(0x1C, 0xBA, 0xBD, 0x4D), Col(0x7E, 0xFF, 0xB5, 0x41)) == Col(0x62, 0x45, 0x08, 0x0C)
    ensures AddCol(Col(0x48, 0xF0, 0x43, 0xB8), Col(0x62, 0x45, 0x08, 0x0C)) == Col(0x2A, 0xB5, 0x4B, 0xB4)
    ensures AddCol(Col(0x10, 0xB7, 0xB3, 0x42), Col(0x2A, 0xB5, 0x4B, 0xB4)) == Col(0x3A, 0x02, 0xF8, 0xF6)
    ensures AddCol(Col(0x58, 0xE1, 0x51, 0xAB), Col(0x3A, 0x02, 0xF8, 0xF6)) == Col(0x62, 0xE3, 0xA9, 0x5D)
    ensures AddCol(Col(0x04, 0xA2, 0xA5, 0x55), Col(0x62, 0xE3, 0xA9, 0x5D)) == Col(0x66, 0x41, 0x0C, 0x08)
  {
  }

  lemma Sums4()
    ensures RotCol(Col(0x66, 0x41, 0x0C, 0x08)) == Col(0x41, 0x0C, 0x08, 0x66)
    ensures SubCol(Col(0x41, 0x0C, 0x08, 0x66)) == Col(0x83, 0xFE, 0x30, 0x33)
    ensures AddCol(Col(0x83, 0xFE, 0x30, 0x33), Col(0x08, 0, 0, 0)) == Col(0x8B, 0xFE, 0x30, 0x33)
    ensures AddCol(Col(0x7E, 0xFF, 0xB5, 0x41), Col(0x8B, 0xFE, 0x30, 0x33)) == Col(0xF5, 0x01, 0x85, 0x72)
    ensures AddCol(Col(0x62, 0x45, 0x08, 0x0C), Col(0xF5, 0x01, 0x85, 0x72)) == Col(0x97, 0x44, 0x8D, 0x7E)
    ensures AddCol(Col(0x2A, 0xB5, 0x4B, 0xB4), Col(0x97, 0x44, 0x8D, 0x7E)) == Col(0xBD, 0xF1, 0xC6, 0xCA)
    ensures AddCol(Col(0x3A, 0x02, 0xF8, 0xF6), Col(0xBD, 0xF1, 0xC6, 0xCA)) == Col(0x87, 0xF3, 0x3E, 0x3C)
    ensures AddCol(Col(0x62, 0xE3, 0xA9, 0x5D), Col(0x87, 0xF3, 0x3E, 0x3C)) == Col(0xE5, 0x10, 0x97, 0x61)
    ensures AddCol(Col(0x66, 0x41, 0x0C, 0x08), Col(0xE5, 0x10, 0x97, 0x61)) == Col(0x83, 0x51, 0x9B, 0x69)
  {
  }

  lemma Sums5()
    ensures RotCol(Col(0x83, 0x51, 0x9B, 0x69)) == Col(0x51, 0x9B, 0x69, 0x83)
    ensures SubCol(Col(0x51, 0x9B, 0x69, 0x83)) == Col(0xD1, 0x14, 0xF9, 0xEC)
    ensures AddCol(Col(0xD1, 0x14, 0xF9, 0xEC), Col(0x10, 0, 0, 0)) == Col(0xC1, 0x14, 0xF9, 0xEC)
    ensures AddCol(Col(0xF5, 0x01, 0x85, 0x72), Col(0xC1, 0x14, 0xF9, 0xEC)) == Col(0x34, 0x15, 0x7C, 0x9E)
    ensures AddCol(Col(0x97, 0x44, 0x8D, 0x7E), Col(0x34, 0x15, 0x7C, 0x9E)) == Col(0xA3, 0x51, 0xF1, 0xE0)
    ensures AddCol(Col(0xBD, 0xF1, 0xC6, 0xCA), Col(0xA3, 0x51, 0xF1, 0xE0)) == Col(0x1E, 0xA0, 0x37, 0x2A)
    ensures AddCol(Col(0x87, 0xF3, 0x3E, 0x3C), Col(0x1E, 0xA0, 0x37, 0x2A)) == Col(0x99, 0x53, 0x09, 0x16)
    ensures AddCol(Col(0xE5, 0x10, 0x97, 0x61), Col(0x99, 0x53, 0x09, 0x16)) == Col(0x7C, 0x43, 0x9E, 0x77)
    ensures AddCol(Col(0x83, 0x51, 0x9B, 0x69), Col(0x7C, 0x43, 0x9E, 0x77)) == Col(0xFF, 0x12, 0x05, 0x1E)
  {
  }

  lemma Sums6()
    ensures RotCol(Col(0xFF, 0x12, 0x05, 0x1E)) == Col(0x12, 0x05, 0x1E, 0xFF)
    ensures SubCol(Col(0x12, 0x05, 0x1E, 0xFF)) == Col(0xC9, 0x6B, 0x72, 0x16)
    ensures AddCol(Col(0xC9, 0x6B, 0x72, 0x16), Col(0x20, 0, 0, 0)) == Col(0xE9, 0x6B, 0x72, 0x16)
    ensures AddCol(Col(0x34, 0x15, 0x7C, 0x9E), Col(0xE9, 0x6B, 0x72, 0x16)) == Col(0xDD, 0x7E, 0x0E, 0x88)
    ensures AddCol(Col(0xA3, 0x51, 0xF1, 0xE0), Col(0xDD, 0x7E, 0x0E, 0x88)) == Col(0x7E, 0x2F, 0xFF, 0x68)
    ensures AddCol(Col(0x1E, 0xA0, 0x37, 0x2A), Col(0x7E, 0x2F, 0xFF, 0x68)) == Col(0x60, 0x8F, 0xC8, 0x42)
    ensures AddCol(Col(0x99, 0x53, 0x09, 0x16), Col(0x60, 0x8F, 0xC8, 0x42)) == Col(0xF9, 0xDC, 0xC1, 0x54)
    ensures AddCol(Col(0x7C, 0x43, 0x9E, 0x77), Col(0xF9, 0xDC, 0xC1, 0x54)) == Col(0x85, 0x9F, 0x5F, 0x23)
    ensures AddCol(Col(0xFF, 0x12, 0x05, 0x1E), Col(0x85, 0x9F, 0x5F, 0x23)) == Col(0x7A, 0x8D, 0x5A, 0x3D)
  {
  }

  lemma Sums7()
    ensures RotCol(Col(0x7A, 0x8D, 0x5A, 0x3D)) == Col(0x8D, 0x5A, 0x3D, 0x7A)
    ensures SubCol(Col(0x8D, 0x5A, 0x3D, 0x7A)) == Col(0x5D, 0xBE, 0x27, 0xDA)
    ensures AddCol(Col(0x5D, 0xBE, 0x27, 0xDA), Col(0x40, 0, 0, 0)) == Col(0x1D, 0xBE, 0x27, 0xDA)
    ensures AddCol(Col(0xDD, 0x7E, 0x0E, 0x88), Col(0x1D, 0xBE, 0x27, 0xDA)) == Col(0xC0, 0xC0, 0x29, 0x52)
    ensures AddCol(Col(0x7E, 0x2F, 0xFF, 0x68), Col(0xC0, 0xC0, 0x29, 0x52)) == Col(0xBE, 0xEF, 0xD6, 0x3A)
    ensures AddCol(Col(0x60, 0x8F, 0xC8, 0x42), Col(0xBE, 0xEF, 0xD6, 0x3A)) == Col(0xDE, 0x60, 0x1E, 0x78)
    ensures AddCol(Col(0xF9, 0xDC, 0xC1, 0x54), Col(0xDE, 0x60, 0x1E, 0x78)) == Col(0x27, 0xBC, 0xDF, 0x2C)
    ensures AddCol(Col(0x85, 0x9F, 0x5F, 0x23), Col(0x27, 0xBC, 0xDF, 0x2C)) == Col(0xA2, 0x23, 0x80, 0x0F)
    ensures AddCol(Col(0x7A, 0x8D, 0x5A, 0x3D), Col(0xA2, 0x23, 0x80, 0x0F)) == Col(0xD8, 0xAE, 0xDA, 0x32)
  {
  }

  lemma Sums8()
    ensures RotCol(Col(0xD8, 0xAE, 0xDA, 0x32)) == Col(0xAE, 0xDA, 0x32, 0xD8)
    ensures SubCol(Col(0xAE, 0xDA, 0x32, 0xD8)) == Col(0xE4, 0x57, 0x23, 0x61)
    ensures AddCol(Col(0xE4, 0x57, 0x23, 0x61), Col(0x80, 0, 0, 0)) == Col(0x64, 0x57, 0x23, 0x61)
    ensures AddCol(Col(0xC0, 0xC0, 0x29, 0x52), Col(0x64, 0x57, 0x23, 0x61)) == Col(0xA4, 0x97, 0x0A, 0x33)
    ensures AddCol(Col(0xBE, 0xEF, 0xD6, 0x3A), Col(0xA4, 0x97, 0x0A, 0x33)) == Col(0x1A, 0x78, 0xDC, 0x09)
    ensures AddCol(Col(0xDE, 0x60, 0x1E, 0x78), Col(0x1A, 0x78, 0xDC, 0x09)) == Col(0xC4, 0x18, 0xC2, 0x71)
    ensures AddCol(Col(0x27, 0xBC, 0xDF, 0x2C), Col(0xC4, 0x18, 0xC2, 0x71)) == Col(0xE3, 0xA4, 0x1D, 0x5D)
  {
  }

  lemma Words0()
    ensures KeyWord(KEY, 0) == Col(0x00, 0x01, 0x02, 0x03) && KeyWord(KEY, 1) == Col(0x04, 0x05, 0x06, 0x07)
    ensures KeyWord(KEY, 2) == Col(0x08, 0x09, 0x0A, 0x0B) && KeyWord(KEY, 3) == Col(0x0C, 0x0D, 0x0E, 0x0F)
    ensures KeyWord(KEY, 4) == Col(0x10, 0x11, 0x12, 0x13) && KeyWord(KEY, 5) == Col(0x14, 0x15, 0x16, 0x17)
  {
  }

  lemma Words1()
    ensures KeyWord(KEY, 6) == Col(0x58, 0x46, 0xF2, 0xF9) && KeyWord(KEY, 7) == Col(0x5C, 0x43, 0xF4, 0xFE)
    ensures KeyWord(KEY, 8) == Col(0x54, 0x4A, 0xFE, 0xF5) && KeyWord(KEY, 9) == Col(0x58, 0x47, 0xF0, 0xFA)
    ensures KeyWord(KEY, 10) == Col(0x48, 0x56, 0xE2, 0xE9) && KeyWord(KEY, 11) == Col(0x5C, 0x43, 0xF4, 0xFE)
  {
    hide KeyWord, AddCol, SubCol, RotCol, Rcon;
    Powers();
    Words0();
    Sums1();
    KeyWordRule(KEY, 6, 6);
    KeyWordRule(KEY, 6, 7);
    KeyWordRule(KEY, 6, 8);
    KeyWordRule(KEY, 6, 9);
    KeyWordRule(KEY, 6, 10);
    KeyWordRule(KEY, 6, 11);
  }

  lemma Words2()
    ensures KeyWord(KEY, 12) == Col(0x40, 0xF9, 0x49, 0xB3) && KeyWord(KEY, 13) == Col(0x1C, 0xBA, 0xBD, 0x4D)
    ensures KeyWord(KEY, 14) == Col(0x48, 0xF0, 0x43, 0xB8) && KeyWord(KEY, 15) == Col(0x10, 0xB7, 0xB3, 0x42)
    ensures KeyWord(KEY, 16) == Col(0x58, 0xE1, 0x51, 0xAB) && KeyWord(KEY, 17) == Col(0x04, 0xA2, 0xA5, 0x55)
  {
    hide KeyWord, AddCol, SubCol, RotCol, Rcon;
    Powers();
    Words1();
    Sums2();
    KeyWordRule(KEY, 6, 12);
    KeyWordRule(KEY, 6, 13);
    KeyWordRule(KEY, 6, 14);
    KeyWordRule(KEY, 6, 15);
    KeyWordRule(KEY, 6, 16);
    KeyWordRule(KEY, 6, 17);
  }

  lemma Words3()
    ensures KeyWord(KEY, 18) == Col(0x7E, 0xFF, 0xB5, 0x41) && KeyWord(KEY, 19) == Col(0x62, 0x45, 0x08, 0x0C)
    ensures KeyWord(KEY, 20) == Col(0x2A, 0xB5, 0x4B, 0xB4) && KeyWord(KEY, 21) == Col(0x3A, 0x02, 0xF8, 0xF6)
    ensures KeyWord(KEY, 22) == Col(0x62, 0xE3, 0xA9, 0x5D) && KeyWord(KEY, 23) == Col(0x66, 0x41, 0x0C, 0x08)
  {
    hide KeyWord, AddCol, SubCol, RotCol, Rcon;
    Powers();
    Words2();
    Sums3();
    KeyWordRule(KEY, 6, 18);
    KeyWordRule(KEY, 6, 19);
    KeyWordRule(KEY, 6, 20);
    KeyWordRule(KEY, 6, 21);
    KeyWordRule(KEY, 6, 22);
    KeyWordRule(KEY, 6, 23);
  }

  lemma Words4()
    ensures KeyWord(KEY, 24) == Col(0xF5, 0x01, 0x85, 0x72) && KeyWord(KEY, 25) == Col(0x97, 0x44, 0x8D, 0x7E)
    ensures KeyWord(KEY, 26) == Col(0xBD, 0xF1, 0xC6, 0xCA) && KeyWord(KEY, 27) == Col(0x87, 0xF3, 0x3E, 0x3C)
    ensures KeyWord(KEY, 28) == Col(0xE5, 0x10, 0x97, 0x61) && KeyWord(KEY, 29) == Col(0x83, 0x51, 0x9B, 0x69)
  {
    hide KeyWord, AddCol, SubCol, RotCol, Rcon;
    Powers();
    Words3();
    Sums4();
    KeyWordRule(KEY, 6, 24);
    KeyWordRule(KEY, 6, 25);
    KeyWordRule(KEY, 6, 26);
    KeyWordRule(KEY, 6, 27);
    KeyWordRule(KEY, 6, 28);
    KeyWordRule(KEY, 6, 29);
  }

  lemma Words5()
    ensures KeyWord(KEY, 30) == Col(0x34, 0x15, 0x7C, 0x9E) && KeyWord(KEY, 31) == Col(0xA3, 0x51, 0xF1, 0xE0)
    ensures KeyWord(KEY, 32) == Col(0x1E, 0xA0, 0x37, 0x2A) && KeyWord(KEY, 33) == Col(0x99, 0x53, 0x09, 0x16)
    ensures KeyWord(KEY, 34) == Col(0x7C, 0x43, 0x9E, 0x77) && KeyWord(KEY, 35) == Col(0xFF, 0x12, 0x05, 0x1E)
  {
    hide KeyWord, AddCol, SubCol, RotCol, Rcon;
    Powers();
    Words4();
    Sums5();
    KeyWordRule(KEY, 6, 30);
    KeyWordRule(KEY, 6, 31);
    KeyWordRule(KEY, 6, 32);
    KeyWordRule(KEY, 6, 33);
    KeyWordRule(KEY, 6, 34);
    KeyWordRule(KEY, 6, 35);
  }

  lemma Words6()
    ensures KeyWord(KEY, 36) == Col(0xDD, 0x7E, 0x0E, 0x88) && KeyWord(KEY, 37) == Col(0x7E, 0x2F, 0xFF, 0x68)
    ensures KeyWord(KEY, 38) == Col(0x60, 0x8F, 0xC8, 0x42) && KeyWord(KEY, 39) == Col(0xF9, 0xDC, 0xC1, 0x54)
    ensures KeyWord(KEY, 40) == Col(0x85, 0x9F, 0x5F, 0x23) && KeyWord(KEY, 41) == Col(0x7A, 0x8D, 0x5A, 0x3D)
  {
    hide KeyWord, AddCol, SubCol, RotCol, Rcon;
    Powers();
    Words5();
    Sums6();
    KeyWordRule(KEY, 6, 36);
    KeyWordRule(KEY, 6, 37);
    KeyWordRule(KEY, 6, 38);
    KeyWordRule(KEY, 6, 39);
    KeyWordRule(KEY, 6, 40);
    KeyWordRule(KEY, 6, 41);
  }

  lemma Words7()
    ensures KeyWord(KEY, 42) == Col(0xC0, 0xC0, 0x29, 0x52) && KeyWord(KEY, 43) == Col(0xBE, 0xEF, 0xD6, 0x3A)
    ensures KeyWord(KEY, 44) == Col(0xDE, 0x60, 0x1E, 0x78) && KeyWord(KEY, 45) == Col(0x27, 0xBC, 0xDF, 0x2C)
    ensures KeyWord(KEY, 46) == Col(0xA2, 0x23, 0x80, 0x0F) && KeyWord(KEY, 47) == Col(0xD8, 0xAE, 0xDA, 0x32)
  {
    hide KeyWord, AddCol, SubCol, RotCol, Rcon;
    Powers();
    Words6();
    Sums7();
    KeyWordRule(KEY, 6, 42);
    KeyWordRule(KEY, 6, 43);
    KeyWordRule(KEY, 6, 44);
    KeyWordRule(KEY, 6, 45);
    KeyWordRule(KEY, 6, 46);
    KeyWordRule(KEY, 6, 47);
  }

  lemma Words8()
    ensures KeyWord(KEY, 48) == Col(0xA4, 0x97, 0x0A, 0x33) && KeyWord(KEY, 49) == Col(0x1A, 0x78, 0xDC, 0x09)
    ensures KeyWord(KEY, 50) == Col(0xC4, 0x18, 0xC2, 0x71) && KeyWord(KEY, 51) == Col(0xE3, 0xA4, 0x1D, 0x5D)
  {
    hide KeyWord, AddCol, SubCol, RotCol, Rcon;
    Powers();
    Words7();
    Sums8();
    KeyWordRule(KEY, 6, 48);
    KeyWordRule(KEY, 6, 49);
    KeyWordRule(KEY, 6, 50);
    KeyWordRule(KEY, 6, 51);
  }

  // ---------- The rounds ----------

  lemma Begins()
    ensures After(KEY, TEXT, 0) == [
     Col(0x00, 0x10, 0x20, 0x30), Col(0x40, 0x50, 0x60, 0x70), Col(0x80, 0x90, 0xA0, 0xB0), Col(0xC0, 0xD0, 0xE0, 0xF0)]
  {
    FirstRound(KEY, TEXT);
    Words0();
    hide KeyWord, After;
  }

  lemma Columns1()
    ensures SubCol(Col(0x00, 0x50, 0xA0, 0xF0)) == Col(0x63, 0x53, 0xE0, 0x8C)
    ensures AddCol(MixCol(Col(0x63, 0x53, 0xE0, 0x8C)), Col(0x10, 0x11, 0x12, 0x13)) == Col(0x4F, 0x63, 0x76, 0x06)
    ensures SubCol(Col(0x40, 0x90, 0xE0, 0x30)) == Col(0x09, 0x60, 0xE1, 0x04)
    ensures AddCol(MixCol(Col(0x09, 0x60, 0xE1, 0x04)), Col(0x14, 0x15, 0x16, 0x17)) == Col(0x43, 0xE0, 0xAA, 0x85)
    ensures SubCol(Col(0x80, 0xD0, 0x20, 0x70)) == Col(0xCD, 0x70, 0xB7, 0x51)
    ensures AddCol(MixCol(Col(0xCD, 0x70, 0xB7, 0x51)), Col(0x58, 0x46, 0xF2, 0xF9)) == Col(0xAF, 0xF8, 0xC9, 0xD0)
    ensures SubCol(Col(0xC0, 0x10, 0x60, 0xB0)) == Col(0xBA, 0xCA, 0xD0, 0xE7)
    ensures AddCol(MixCol(Col(0xBA, 0xCA, 0xD0, 0xE7)), Col(0x5C, 0x43, 0xF4, 0xFE)) == Col(0x41, 0xFA, 0x0D, 0xE4)
  {
  }

  lemma Columns2()
    ensures SubCol(Col(0x4F, 0xE0, 0xC9, 0xE4)) == Col(0x84, 0xE1, 0xDD, 0x69)
    ensures AddCol(MixCol(Col(0x84, 0xE1, 0xDD, 0x69)), Col(0x54, 0x4A, 0xFE, 0xF5)) == Col(0xCB, 0x02, 0x81, 0x8C)
    ensures SubCol(Col(0x43, 0xF8, 0x0D, 0x06)) == Col(0x1A, 0x41, 0xD7, 0x6F)
    ensures AddCol(MixCol(Col(0x1A, 0x41, 0xD7, 0x6F)), Col(0x58, 0x47, 0xF0, 0xFA)) == Col(0x17, 0xD2, 0xAF, 0x9C)
    ensures SubCol(Col(0xAF, 0xFA, 0x76, 0x85)) == Col(0x79, 0x2D, 0x38, 0x97)
    ensures AddCol(MixCol(Col(0x79, 0x2D, 0x38, 0x97)), Col(0x48, 0x56, 0xE2, 0xE9)) == Col(0x62, 0xAA, 0x64, 0x42)
    ensures SubCol(Col(0x41, 0x63, 0xAA, 0xD0)) == Col(0x83, 0xFB, 0xAC, 0x70)
    ensures AddCol(MixCol(Col(0x83, 0xFB, 0xAC, 0x70)), Col(0x5C, 0x43, 0xF4, 0xFE)) == Col(0x8B, 0xB2, 0x5F, 0xD7)
  {
  }

  lemma Columns3()
    ensures SubCol(Col(0xCB, 0xD2, 0x64, 0xD7)) == Col(0x1F, 0xB5, 0x43, 0x0E)
    ensures AddCol(MixCol(Col(0x1F, 0xB5, 0x43, 0x0E)), Col(0x40, 0xF9, 0x49, 0xB3)) == Col(0xF7, 0x5C, 0x77, 0x78)
    ensures SubCol(Col(0x17, 0xAA, 0x5F, 0x8C)) == Col(0xF0, 0xAC, 0xCF, 0x64)
    ensures AddCol(MixCol(Col(0xF0, 0xAC, 0xCF, 0x64)), Col(0x1C, 0xBA, 0xBD, 0x4D)) == Col(0xA3, 0x27, 0xC8, 0xED)
    ensures SubCol(Col(0x62, 0xB2, 0x81, 0x9C)) == Col(0xAA, 0x37, 0x0C, 0xDE)
    ensures AddCol(MixCol(Col(0xAA, 0x37, 0x0C, 0xDE)), Col(0x48, 0xF0, 0x43, 0xB8)) == Col(0x8C, 0xFE, 0xBF, 0xC1)
    ensures SubCol(Col(0x8B, 0x02, 0xAF, 0x42)) == Col(0x3D, 0x77, 0x79, 0x2C)
    ensures AddCol(MixCol(Col(0x3D, 0x77, 0x79, 0x2C)), Col(0x10, 0xB7, 0xB3, 0x42)) == Col(0xA6, 0xC3, 0x7F, 0x53)
  {
  }

  lemma Rounds1()
    ensures After(KEY, TEXT, 3) == [
     Col(0xF7, 0x5C, 0x77, 0x78), Col(0xA3, 0x27, 0xC8, 0xED), Col(0x8C, 0xFE, 0xBF, 0xC1), Col(0xA6, 0xC3, 0x7F, 0x53)]
  {
    hide KeyWord, After, SubCol, MixCol, AddCol;
    Begins();
    Words0();
    Words1();
    Words2();
    Columns1();
    NextRound(KEY, TEXT, 1);
    Columns2();
    NextRound(KEY, TEXT, 2);
    Columns3();
    NextRound(KEY, TEXT, 3);
  }

  lemma Columns4()
    ensures SubCol(Col(0xF7, 0x27, 0xBF, 0x53)) == Col(0x68, 0xCC, 0x08, 0xED)
    ensures AddCol(MixCol(Col(0x68, 0xCC, 0x08, 0xED)), Col(0x58, 0xE1, 0x51, 0xAB)) == Col(0x22, 0xFF, 0xC9, 0x16)
    ensures SubCol(Col(0xA3, 0xFE, 0x7F, 0x78)) == Col(0x0A, 0xBB, 0xD2, 0xBC)
    ensures AddCol(MixCol(Col(0x0A, 0xBB, 0xD2, 0xBC)), Col(0x04, 0xA2, 0xA5, 0x55)) == Col(0xA8, 0x14, 0x74, 0x41)
    ensures SubCol(Col(0x8C, 0xC3, 0x77, 0xED)) == Col(0x64, 0x2E, 0xF5, 0x55)
    ensures AddCol(MixCol(Col(0x64, 0x2E, 0xF5, 0x55)), Col(0x7E, 0xFF, 0xB5, 0x41)) == Col(0x64, 0x96, 0xF1, 0x9C)
    ensures SubCol(Col(0xA6, 0x5C, 0xC8, 0xC1)) == Col(0x24, 0x4A, 0xE8, 0x78)
    ensures AddCol(MixCol(Col(0x24, 0x4A, 0xE8, 0x78)), Col(0x62, 0x45, 0x08, 0x0C)) == Col(0x64, 0xAE, 0x25, 0x32)
  {
  }

  lemma Columns5()
    ensures SubCol(Col(0x22, 0x14, 0xF1, 0x32)) == Col(0x93, 0xFA, 0xA1, 0x23)
    ensures AddCol(MixCol(Col(0x93, 0xFA, 0xA1, 0x23)), Col(0x2A, 0xB5, 0x4B, 0xB4)) == Col(0x80, 0x12, 0x1E, 0x07)
    ensures SubCol(Col(0xA8, 0x96, 0x25, 0x16)) == Col(0xC2, 0x90, 0x3F, 0x47)
    ensures AddCol(MixCol(Col(0xC2, 0x90, 0x3F, 0x47)), Col(0x3A, 0x02, 0xF8, 0xF6)) == Col(0x76, 0xFD, 0x1D, 0x8A)
    ensures SubCol(Col(0x64, 0xAE, 0xC9, 0x41)) == Col(0x43, 0xE4, 0xDD, 0x83)
    ensures AddCol(MixCol(Col(0x43, 0xE4, 0xDD, 0x83)), Col(0x62, 0xE3, 0xA9, 0x5D)) == Col(0x8D, 0x8C, 0x31, 0xBC)
    ensures SubCol(Col(0x64, 0xFF, 0x74, 0x9C)) == Col(0x43, 0x16, 0x92, 0xDE)
    ensures AddCol(MixCol(Col(0x43, 0x16, 0x92, 0xDE)), Col(0x66, 0x41, 0x0C, 0x08)) == Col(0x96, 0x5D, 0x1F, 0xEE)
  {
  }

  lemma Columns6()
    ensures SubCol(Col(0x80, 0xFD, 0x31, 0xEE)) == Col(0xCD, 0x54, 0xC7, 0x28)
    ensures AddCol(MixCol(Col(0xCD, 0x54, 0xC7, 0x28)), Col(0xF5, 0x01, 0x85, 0x72)) == Col(0x67, 0x1E, 0xF1, 0xFD)
    ensures SubCol(Col(0x76, 0x8C, 0x1F, 0x07)) == Col(0x38, 0x64, 0xC0, 0xC5)
    ensures AddCol(MixCol(Col(0x38, 0x64, 0xC0, 0xC5)), Col(0x97, 0x44, 0x8D, 0x7E)) == Col(0x4E, 0x2A, 0x1E, 0x03)
    ensures SubCol(Col(0x8D, 0x5D, 0x1E, 0x8A)) == Col(0x5D, 0x4C, 0x72, 0x7E)
    ensures AddCol(MixCol(Col(0x5D, 0x4C, 0x72, 0x7E)), Col(0xBD, 0xF1, 0xC6, 0xCA)) == Col(0xDF, 0xDC, 0xB1, 0xEF)
    ensures SubCol(Col(0x96, 0x12, 0x1D, 0xBC)) == Col(0x90, 0xC9, 0xA4, 0x65)
    ensures AddCol(MixCol(Col(0x90, 0xC9, 0xA4, 0x65)), Col(0x87, 0xF3, 0x3E, 0x3C)) == Col(0x3D, 0x78, 0x9B, 0x30)
  {
  }

  lemma Rounds2()
    ensures After(KEY, TEXT, 6) == [
     Col(0x67, 0x1E, 0xF1, 0xFD), Col(0x4E, 0x2A, 0x1E, 0x03), Col(0xDF, 0xDC, 0xB1, 0xEF), Col(0x3D, 0x78, 0x9B, 0x30)]
  {
    hide KeyWord, After, SubCol, MixCol, AddCol;
    Rounds1();
    Words2();
    Words3();
    Words4();
    Columns4();
    NextRound(KEY, TEXT, 4);
    Columns5();
    NextRound(KEY, TEXT, 5);
    Columns6();
    NextRound(KEY, TEXT, 6);
  }

  lemma Columns7()
    ensures SubCol(Col(0x67, 0x2A, 0xB1, 0x30)) == Col(0x85, 0xE5, 0xC8, 0x04)
    ensures AddCol(MixCol(Col(0x85, 0xE5, 0xC8, 0x04)), Col(0xE5, 0x10, 0x97, 0x61)) == Col(0x0C, 0x03, 0x70, 0xD0)
    ensures SubCol(Col(0x4E, 0xDC, 0x9B, 0xFD)) == Col(0x2F, 0x86, 0x14, 0x54)
    ensures AddCol(MixCol(Col(0x2F, 0x86, 0x14, 0x54)), Col(0x83, 0x51, 0x9B, 0x69)) == Col(0x0C, 0x01, 0xE6, 0x22)
    ensures SubCol(Col(0xDF, 0x78, 0xF1, 0x03)) == Col(0x9E, 0xBC, 0xA1, 0x7B)
    ensures AddCol(MixCol(Col(0x9E, 0xBC, 0xA1, 0x7B)), Col(0x34, 0x15, 0x7C, 0x9E)) == Col(0x16, 0x6B, 0x8A, 0xCC)
    ensures SubCol(Col(0x3D, 0x1E, 0x1E, 0xEF)) == Col(0x27, 0x72, 0x72, 0xDF)
    ensures AddCol(MixCol(Col(0x27, 0x72, 0x72, 0xDF)), Col(0xA3, 0x51, 0xF1, 0xE0)) == Col(0xD6, 0xDB, 0x3A, 0x2C)
  {
  }

  lemma Columns8()
    ensures SubCol(Col(0x0C, 0x01, 0x8A, 0x2C)) == Col(0xFE, 0x7C, 0x7E, 0x71)
    ensures AddCol(MixCol(Col(0xFE, 0x7C, 0x7E, 0x71)), Col(0x1E, 0xA0, 0x37, 0x2A)) == Col(0x72, 0x55, 0xDA, 0xD3)
    ensures SubCol(Col(0x0C, 0x6B, 0x3A, 0xD0)) == Col(0xFE, 0x7F, 0x80, 0x70)
    ensures AddCol(MixCol(Col(0xFE, 0x7F, 0x80, 0x70)), Col(0x99, 0x53, 0x09, 0x16)) == Col(0x0F, 0xB8, 0x03, 0x10)
    ensures SubCol(Col(0x16, 0xDB, 0x70, 0x22)) == Col(0x47, 0xB9, 0x51, 0x93)
    ensures AddCol(MixCol(Col(0x47, 0xB9, 0x51, 0x93)), Col(0x7C, 0x43, 0x9E, 0x77)) == Col(0xE0, 0x0D, 0x6C, 0x6B)
    ensures SubCol(Col(0xD6, 0x03, 0xE6, 0xCC)) == Col(0xF6, 0x7B, 0x8E, 0x4B)
    ensures AddCol(MixCol(Col(0xF6, 0x7B, 0x8E, 0x4B)), Col(0xFF, 0x12, 0x05, 0x1E)) == Col(0x40, 0xD0, 0x52, 0x7C)
  {
  }

  lemma Columns9()
    ensures SubCol(Col(0x72, 0xB8, 0x6C, 0x7C)) == Col(0x40, 0x6C, 0x50, 0x10)
    ensures AddCol(MixCol(Col(0x40, 0x6C, 0x50, 0x10)), Col(0xDD, 0x7E, 0x0E, 0x88)) == Col(0xA9, 0x06, 0xB2, 0x54)
    ensures SubCol(Col(0x0F, 0x0D, 0x52, 0xD3)) == Col(0x76, 0xD7, 0x00, 0x66)
    ensures AddCol(MixCol(Col(0x76, 0xD7, 0x00, 0x66)), Col(0x7E, 0x2F, 0xFF, 0x68)) == Col(0x96, 0x8A, 0xF4, 0xE9)
    ensures SubCol(Col(0xE0, 0xD0, 0xDA, 0x10)) == Col(0xE1, 0x70, 0x57, 0xCA)
    ensures AddCol(MixCol(Col(0xE1, 0x70, 0x57, 0xCA)), Col(0x60, 0x8F, 0xC8, 0x42)) == Col(0xB4, 0xBD, 0xB2, 0xD2)
    ensures SubCol(Col(0x40, 0x55, 0x03, 0x6B)) == Col(0x09, 0xFC, 0x7B, 0x7F)
    ensures AddCol(MixCol(Col(0x09, 0xFC, 0x7B, 0x7F)), Col(0xF9, 0xDC, 0xC1, 0x54)) == Col(0xF0, 0xC4, 0x43, 0x36)
  {
  }

  lemma Rounds3()
    ensures After(KEY, TEXT, 9) == [
     Col(0xA9, 0x06, 0xB2, 0x54), Col(0x96, 0x8A, 0xF4, 0xE9), Col(0xB4, 0xBD, 0xB2, 0xD2), Col(0xF0, 0xC4, 0x43, 0x36)]
  {
    hide KeyWord, After, SubCol, MixCol, AddCol;
    Rounds2();
    Words4();
    Words5();
    Words6();
    Columns7();
    NextRound(KEY, TEXT, 7);
    Columns8();
    NextRound(KEY, TEXT, 8);
    Columns9();
    NextRound(KEY, TEXT, 9);
  }

  lemma Columns10()
    ensures SubCol(Col(0xA9, 0x8A, 0xB2, 0x36)) == Col(0xD3, 0x7E, 0x37, 0x05)
    ensures AddCol(MixCol(Col(0xD3, 0x7E, 0x37, 0x05)), Col(0x85, 0x9F, 0x5F, 0x23)) == Col(0x88, 0xEC, 0x93, 0x0E)
    ensures SubCol(Col(0x96, 0xBD, 0x43, 0x54)) == Col(0x90, 0x7A, 0x1A, 0x20)
    ensures AddCol(MixCol(Col(0x90, 0x7A, 0x1A, 0x20)), Col(0x7A, 0x8D, 0x5A, 0x3D)) == Col(0xF5, 0xE7, 0xE4, 0xB6)
    ensures SubCol(Col(0xB4, 0xC4, 0xB2, 0xE9)) == Col(0x8D, 0x1C, 0x37, 0x1E)
    ensures AddCol(MixCol(Col(0x8D, 0x1C, 0x37, 0x1E)), Col(0xC0, 0xC0, 0x29, 0x52)) == Col(0xCC, 0x32, 0xF4, 0xC9)
    ensures SubCol(Col(0xF0, 0x06, 0xF4, 0xD2)) == Col(0x8C, 0x6F, 0xBF, 0xB5)
    ensures AddCol(MixCol(Col(0x8C, 0x6F, 0xBF, 0xB5)), Col(0xBE, 0xEF, 0xD6, 0x3A)) == Col(0x06, 0xD2, 0x94, 0x14)
  {
  }

  lemma Columns11()
    ensures SubCol(Col(0x88, 0xE7, 0xF4, 0x14)) == Col(0xC4, 0x94, 0xBF, 0xFA)
    ensures AddCol(MixCol(Col(0xC4, 0x94, 0xBF, 0xFA)), Col(0xDE, 0x60, 0x1E, 0x78)) == Col(0xAF, 0xB7, 0x3E, 0xEB)
    ensures SubCol(Col(0xF5, 0x32, 0x94, 0x0E)) == Col(0xE6, 0x23, 0x22, 0xAB)
    ensures AddCol(MixCol(Col(0xE6, 0x23, 0x22, 0xAB)), Col(0x27, 0xBC, 0xDF, 0x2C)) == Col(0x1C, 0xD1, 0xB8, 0x51)
    ensures SubCol(Col(0xCC, 0xD2, 0x93, 0xB6)) == Col(0x4B, 0xB5, 0xDC, 0x4E)
    ensures AddCol(MixCol(Col(0x4B, 0xB5, 0xDC, 0x4E)), Col(0xA2, 0x23, 0x80, 0x0F)) == Col(0x62, 0x28, 0x0F, 0x27)
    ensures SubCol(Col(0x06, 0xEC, 0xE4, 0xC9)) == Col(0x6F, 0xCE, 0x69, 0xDD)
    ensures AddCol(MixCol(Col(0x6F, 0xCE, 0x69, 0xDD)), Col(0xD8, 0xAE, 0xDA, 0x32)) == Col(0xFB, 0x20, 0xD5, 0x85)
  {
  }

  lemma Rounds4()
    ensures After(KEY, TEXT, 11) == [
     Col(0xAF, 0xB7, 0x3E, 0xEB), Col(0x1C, 0xD1, 0xB8, 0x51), Col(0x62, 0x28, 0x0F, 0x27), Col(0xFB, 0x20, 0xD5, 0x85)]
  {
    hide KeyWord, After, SubCol, MixCol, AddCol;
    Rounds3();
    Words6();
    Words7();
    Columns10();
    NextRound(KEY, TEXT, 10);
    Columns11();
    NextRound(KEY, TEXT, 11);
  }

  lemma LastColumns()
    ensures SubCol(Col(0xAF, 0xD1, 0x0F, 0x85)) == Col(0x79, 0x3E, 0x76, 0x97)
    ensures AddCol(Col(0x79, 0x3E, 0x76, 0x97), Col(0xA4, 0x97, 0x0A, 0x33)) == Col(0xDD, 0xA9, 0x7C, 0xA4)
    ensures SubCol(Col(0x1C, 0x28, 0xD5, 0xEB)) == Col(0x9C, 0x34, 0x03, 0xE9)
    ensures AddCol(Col(0x9C, 0x34, 0x03, 0xE9), Col(0x1A, 0x78, 0xDC, 0x09)) == Col(0x86, 0x4C, 0xDF, 0xE0)
    ensures SubCol(Col(0x62, 0x20, 0x3E, 0x51)) == Col(0xAA, 0xB7, 0xB2, 0xD1)
    ensures AddCol(Col(0xAA, 0xB7, 0xB2, 0xD1), Col(0xC4, 0x18, 0xC2, 0x71)) == Col(0x6E, 0xAF, 0x70, 0xA0)
    ensures SubCol(Col(0xFB, 0xB7, 0xB8, 0x27)) == Col(0x0F, 0xA9, 0x6C, 0xCC)
    ensures AddCol(Col(0x0F, 0xA9, 0x6C, 0xCC), Col(0xE3, 0xA4, 0x1D, 0x5D)) == Col(0xEC, 0x0D, 0x71, 0x91)
  {
  }

  lemma Ends()
    ensures IsSchedule(KeyExpansion(KEY, 4), 4, 12)
    ensures Cipher(TEXT, KeyExpansion(KEY, 4), 12) == [
     Col(0xDD, 0xA9, 0x7C, 0xA4), Col(0x86, 0x4C, 0xDF, 0xE0), Col(0x6E, 0xAF, 0x70, 0xA0), Col(0xEC, 0x0D, 0x71, 0x91)]
  {
    hide KeyWord, After, SubCol, MixCol, AddCol, Cipher, KeyExpansion;
    Rounds4();
    Words8();
    LastColumns();
    LastRound(KEY, TEXT, 12);
  }

  // ---------- The answer ----------

  lemma KeyState()
    ensures ToState([
      0x00, 0x01, 0x02, 0x03, 0x04, 0x05, 0x06, 0x07, 0x08, 0x09, 0x0A, 0x0B, 0x0C, 0x0D, 0x0E, 0x0F,
      0x10, 0x11, 0x12, 0x13, 0x14, 0x15, 0x16, 0x17]) == KEY
  {
  }

  lemma TextState()
    ensures ToState([
      0x00, 0x11, 0x22, 0x33, 0x44, 0x55, 0x66, 0x77, 0x88, 0x99, 0xAA, 0xBB, 0xCC, 0xDD, 0xEE, 0xFF]) == TEXT
  {
  }

  lemma AnswerBytes()
    ensures ToBytes([
     Col(0xDD, 0xA9, 0x7C, 0xA4), Col(0x86, 0x4C, 0xDF, 0xE0), Col(0x6E, 0xAF, 0x70, 0xA0), Col(0xEC, 0x0D, 0x71, 0x91)]
    ) == [
      0xDD, 0xA9, 0x7C, 0xA4, 0x86, 0x4C, 0xDF, 0xE0, 0x6E, 0xAF, 0x70, 0xA0, 0xEC, 0x0D, 0x71, 0x91]
  {
  }

  // Appendix C.2 of FIPS 197.
  lemma Answer()
    ensures EncryptBytes([
      0x00, 0x01, 0x02, 0x03, 0x04, 0x05, 0x06, 0x07, 0x08, 0x09, 0x0A, 0x0B, 0x0C, 0x0D, 0x0E, 0x0F,
      0x10, 0x11, 0x12, 0x13, 0x14, 0x15, 0x16, 0x17], 4, [
      0x00, 0x11, 0x22, 0x33, 0x44, 0x55, 0x66, 0x77, 0x88, 0x99, 0xAA, 0xBB, 0xCC, 0xDD, 0xEE, 0xFF]) == [
      0xDD, 0xA9, 0x7C, 0xA4, 0x86, 0x4C, 0xDF, 0xE0, 0x6E, 0xAF, 0x70, 0xA0, 0xEC, 0x0D, 0x71, 0x91]
  {
    hide ToState, ToBytes, Cipher, KeyExpansion;
    KeyState();
    TextState();
    AnswerBytes();
    Ends();
  }
}
