/** The SHA-512 digest of "abc", round by round. */
module Sha512Answer {
  import opened Common
  import opened HashCore
  import opened Fips180
  import opened AbcBlock
  import Sha512Stream

  const START := Regs8(SHA512_INIT[0], SHA512_INIT[1], SHA512_INIT[2], SHA512_INIT[3],
    SHA512_INIT[4], SHA512_INIT[5], SHA512_INIT[6], SHA512_INIT[7])

  // ---------- The message schedule ----------

  predicate IsBlock(m: seq<Long>) {
    IsAbc(m, 0x6162638000000000, 0, 15, 0x18)
  }

  predicate Mixes(w2: Long, w7: Long, w15: Long, w16: Long, w: Long) {
    Sha512Mix(w2, w7, w15, w16) == w
  }

  predicate Word(m: seq<Long>, t: nat, w: Long)
    requires |m| == 16
  {
    Sha512W(m, t) == w
  }

  lemma NextWord(m: seq<Long>, t: nat)
    requires |m| == 16
    ensures forall w2, w7, w15, w16, w
      {:trigger Word(m, t + 14, w2), Word(m, t + 9, w7), Word(m, t + 1, w15), Word(m, t, w16),
        Mixes(w2, w7, w15, w16, w)} |
      Word(m, t + 14, w2) && Word(m, t + 9, w7) && Word(m, t + 1, w15) && Word(m, t, w16)
      && Mixes(w2, w7, w15, w16, w) :: Word(m, t + 16, w)
  {
    hide Sha512Mix;
  }

  lemma Mixed2()
    ensures Mixes(0x0000000000000000, 0x0000000000000000, 0x0000000000000000, 0x6162638000000000, 0x6162638000000000)
    ensures Mixes(0x0000000000000018, 0x0000000000000000, 0x0000000000000000, 0x0000000000000000, 0x00030000000000C0)
    ensures Mixes(0x6162638000000000, 0x0000000000000000, 0x0000000000000000, 0x0000000000000000, 0x0A9699A24C700003)
    ensures Mixes(0x00030000000000C0, 0x0000000000000000, 0x0000000000000000, 0x0000000000000000, 0x00000C0060000603)
    ensures Mixes(0x0A9699A24C700003, 0x0000000000000000, 0x0000000000000000, 0x0000000000000000, 0x549EF62639858996)
    ensures Mixes(0x00000C0060000603, 0x0000000000000000, 0x0000000000000000, 0x0000000000000000, 0x00C0003300003C00)
    ensures Mixes(0x549EF62639858996, 0x0000000000000018, 0x0000000000000000, 0x0000000000000000, 0x1497007A8A0E9DBC)
    ensures Mixes(0x00C0003300003C00, 0x6162638000000000, 0x0000000000000000, 0x0000000000000000, 0x62E56500CC0780F0)
  {
  }

  lemma Mixed3()
    ensures Mixes(0x1497007A8A0E9DBC, 0x00030000000000C0, 0x0000000000000000, 0x0000000000000000, 0x7760DD475A538797)
    ensures Mixes(0x62E56500CC0780F0, 0x0A9699A24C700003, 0x0000000000000000, 0x0000000000000000, 0xF1554B711C1C0003)
    ensures Mixes(0x7760DD475A538797, 0x00000C0060000603, 0x0000000000000000, 0x0000000000000000, 0xCA2993A4345D9FF2)
    ensures Mixes(0xF1554B711C1C0003, 0x549EF62639858996, 0x0000000000000000, 0x0000000000000000, 0x5E0E66B5C783DD32)
    ensures Mixes(0xCA2993A4345D9FF2, 0x00C0003300003C00, 0x0000000000000000, 0x0000000000000000, 0xE25A625D00494B62)
    ensures Mixes(0x5E0E66B5C783DD32, 0x1497007A8A0E9DBC, 0x0000000000000000, 0x0000000000000000, 0x9F44486FB1E4FBD2)
    ensures Mixes(0xE25A625D00494B62, 0x62E56500CC0780F0, 0x0000000000000018, 0x0000000000000000, 0xB31B8C2B06085F2F)
    ensures Mixes(0x9F44486FB1E4FBD2, 0x7760DD475A538797, 0x6162638000000000, 0x0000000000000018, 0x0E987660934142F6)
  {
  }

  lemma Mixed4()
    ensures Mixes(0xB31B8C2B06085F2F, 0xF1554B711C1C0003, 0x00030000000000C0, 0x6162638000000000, 0xA4AF2CFD09FBB924)
    ensures Mixes(0x0E987660934142F6, 0xCA2993A4345D9FF2, 0x0A9699A24C700003, 0x00030000000000C0, 0xAD289E2E0BD53186)
    ensures Mixes(0xA4AF2CFD09FBB924, 0x5E0E66B5C783DD32, 0x00000C0060000603, 0x0A9699A24C700003, 0x3C74563AA2F9673E)
    ensures Mixes(0xAD289E2E0BD53186, 0xE25A625D00494B62, 0x549EF62639858996, 0x00000C0060000603, 0x6CCDCD14CC14B53F)
    ensures Mixes(0x3C74563AA2F9673E, 0x9F44486FB1E4FBD2, 0x00C0003300003C00, 0x549EF62639858996, 0xC3F925B337F22BDE)
    ensures Mixes(0x6CCDCD14CC14B53F, 0xB31B8C2B06085F2F, 0x1497007A8A0E9DBC, 0x00C0003300003C00, 0x5BCC77A75AD95B54)
    ensures Mixes(0xC3F925B337F22BDE, 0x0E987660934142F6, 0x62E56500CC0780F0, 0x1497007A8A0E9DBC, 0x3EC2257ADCA09A52)
    ensures Mixes(0x5BCC77A75AD95B54, 0xA4AF2CFD09FBB924, 0x7760DD475A538797, 0x62E56500CC0780F0, 0x28246960001FC5EB)
  {
  }

  lemma Mixed5()
    ensures Mixes(0x3EC2257ADCA09A52, 0xAD289E2E0BD53186, 0xF1554B711C1C0003, 0x7760DD475A538797, 0x04E33A75CE2BE88A)
    ensures Mixes(0x28246960001FC5EB, 0x3C74563AA2F9673E, 0xCA2993A4345D9FF2, 0xF1554B711C1C0003, 0x7D5314B3C359E0E7)
    ensures Mixes(0x04E33A75CE2BE88A, 0x6CCDCD14CC14B53F, 0x5E0E66B5C783DD32, 0xCA2993A4345D9FF2, 0xAEF7A285FF251266)
    ensures Mixes(0x7D5314B3C359E0E7, 0xC3F925B337F22BDE, 0xE25A625D00494B62, 0x5E0E66B5C783DD32, 0x0B8472581DEEA04F)
    ensures Mixes(0xAEF7A285FF251266, 0x5BCC77A75AD95B54, 0x9F44486FB1E4FBD2, 0xE25A625D00494B62, 0xB174E26EDDC7B033)
    ensures Mixes(0x0B8472581DEEA04F, 0x3EC2257ADCA09A52, 0xB31B8C2B06085F2F, 0x9F44486FB1E4FBD2, 0x5D63BAE58DDD88DE)
    ensures Mixes(0xB174E26EDDC7B033, 0x28246960001FC5EB, 0x0E987660934142F6, 0xB31B8C2B06085F2F, 0x4C044007B744CCBB)
    ensures Mixes(0x5D63BAE58DDD88DE, 0x04E33A75CE2BE88A, 0xA4AF2CFD09FBB924, 0x0E987660934142F6, 0xE6A9AA4D74DC7D43)
  {
  }

  lemma Mixed6()
    ensures Mixes(0x4C044007B744CCBB, 0x7D5314B3C359E0E7, 0xAD289E2E0BD53186, 0xA4AF2CFD09FBB924, 0xEBEAF1237248019C)
    ensures Mixes(0xE6A9AA4D74DC7D43, 0xAEF7A285FF251266, 0x3C74563AA2F9673E, 0xAD289E2E0BD53186, 0x361E80B2D00F3193)
    ensures Mixes(0xEBEAF1237248019C, 0x0B8472581DEEA04F, 0x6CCDCD14CC14B53F, 0x3C74563AA2F9673E, 0x2E9839125DF3B175)
    ensures Mixes(0x361E80B2D00F3193, 0xB174E26EDDC7B033, 0xC3F925B337F22BDE, 0x6CCDCD14CC14B53F, 0x3319629293AD5363)
    ensures Mixes(0x2E9839125DF3B175, 0x5D63BAE58DDD88DE, 0x5BCC77A75AD95B54, 0xC3F925B337F22BDE, 0x9CBC5D89AC1B89D5)
    ensures Mixes(0x3319629293AD5363, 0x4C044007B744CCBB, 0x3EC2257ADCA09A52, 0x5BCC77A75AD95B54, 0x275E23FFEECA50B7)
    ensures Mixes(0x9CBC5D89AC1B89D5, 0xE6A9AA4D74DC7D43, 0x28246960001FC5EB, 0x3EC2257ADCA09A52, 0x3B80D680BF69EF58)
    ensures Mixes(0x275E23FFEECA50B7, 0xEBEAF1237248019C, 0x04E33A75CE2BE88A, 0x28246960001FC5EB, 0x0D0696933945A125)
  {
  }

  lemma Mixed7()
    ensures Mixes(0x3B80D680BF69EF58, 0x361E80B2D00F3193, 0x7D5314B3C359E0E7, 0x04E33A75CE2BE88A, 0x7533EABCB786FF00)
    ensures Mixes(0x0D0696933945A125, 0x2E9839125DF3B175, 0xAEF7A285FF251266, 0x7D5314B3C359E0E7, 0xB89826CEE6FBF0E5)
    ensures Mixes(0x7533EABCB786FF00, 0x3319629293AD5363, 0x0B8472581DEEA04F, 0xAEF7A285FF251266, 0x249B4FBCAD623E9F)
    ensures Mixes(0xB89826CEE6FBF0E5, 0x9CBC5D89AC1B89D5, 0xB174E26EDDC7B033, 0x0B8472581DEEA04F, 0x4AEA9DF2B02D6F1E)
    ensures Mixes(0x249B4FBCAD623E9F, 0x275E23FFEECA50B7, 0x5D63BAE58DDD88DE, 0xB174E26EDDC7B033, 0x2CC57475A55E8D8F)
    ensures Mixes(0x4AEA9DF2B02D6F1E, 0x3B80D680BF69EF58, 0x4C044007B744CCBB, 0x5D63BAE58DDD88DE, 0xB2574AE938D8BE89)
    ensures Mixes(0x2CC57475A55E8D8F, 0x0D0696933945A125, 0xE6A9AA4D74DC7D43, 0x4C044007B744CCBB, 0xC1B35A57B16D6AEA)
    ensures Mixes(0xB2574AE938D8BE89, 0x7533EABCB786FF00, 0xEBEAF1237248019C, 0xE6A9AA4D74DC7D43, 0xCC4918B5949206BB)
  {
  }

  lemma Mixed8()
    ensures Mixes(0xC1B35A57B16D6AEA, 0xB89826CEE6FBF0E5, 0x361E80B2D00F3193, 0xEBEAF1237248019C, 0x5099C3ADD79F90EC)
    ensures Mixes(0xCC4918B5949206BB, 0x249B4FBCAD623E9F, 0x2E9839125DF3B175, 0x361E80B2D00F3193, 0x5EA81D78E7660BF1)
    ensures Mixes(0x5099C3ADD79F90EC, 0x4AEA9DF2B02D6F1E, 0x3319629293AD5363, 0x2E9839125DF3B175, 0xEBEE6267405AC2A9)
    ensures Mixes(0x5EA81D78E7660BF1, 0x2CC57475A55E8D8F, 0x9CBC5D89AC1B89D5, 0x3319629293AD5363, 0xB01F21926108A4AB)
    ensures Mixes(0xEBEE6267405AC2A9, 0xB2574AE938D8BE89, 0x275E23FFEECA50B7, 0x9CBC5D89AC1B89D5, 0x786433DD2FE65556)
    ensures Mixes(0xB01F21926108A4AB, 0xC1B35A57B16D6AEA, 0x3B80D680BF69EF58, 0x275E23FFEECA50B7, 0xC54A6EAA24A0552C)
    ensures Mixes(0x786433DD2FE65556, 0xCC4918B5949206BB, 0x0D0696933945A125, 0x3B80D680BF69EF58, 0xB3C8F1530BDBAA9E)
    ensures Mixes(0xC54A6EAA24A0552C, 0x5099C3ADD79F90EC, 0x7533EABCB786FF00, 0x0D0696933945A125, 0xBB8ABFE56F469338)
  {
  }

  lemma Mixed9()
    ensures Mixes(0xB3C8F1530BDBAA9E, 0x5EA81D78E7660BF1, 0xB89826CEE6FBF0E5, 0x7533EABCB786FF00, 0xF63D4265CC1C5A78)
    ensures Mixes(0xBB8ABFE56F469338, 0xEBEE6267405AC2A9, 0x249B4FBCAD623E9F, 0xB89826CEE6FBF0E5, 0xBE8355EA73129AFB)
    ensures Mixes(0xF63D4265CC1C5A78, 0xB01F21926108A4AB, 0x4AEA9DF2B02D6F1E, 0x249B4FBCAD623E9F, 0x49E2DB8EBDCFBEB5)
    ensures Mixes(0xBE8355EA73129AFB, 0x786433DD2FE65556, 0x2CC57475A55E8D8F, 0x4AEA9DF2B02D6F1E, 0x82269D4A883A3D99)
    ensures Mixes(0x49E2DB8EBDCFBEB5, 0xC54A6EAA24A0552C, 0xB2574AE938D8BE89, 0x2CC57475A55E8D8F, 0xFDF53DF3011F362B)
    ensures Mixes(0x82269D4A883A3D99, 0xB3C8F1530BDBAA9E, 0xC1B35A57B16D6AEA, 0xB2574AE938D8BE89, 0x464AF5671D71C12E)
    ensures Mixes(0xFDF53DF3011F362B, 0xBB8ABFE56F469338, 0xCC4918B5949206BB, 0xC1B35A57B16D6AEA, 0xE449B68198EC611C)
    ensures Mixes(0x464AF5671D71C12E, 0xF63D4265CC1C5A78, 0x5099C3ADD79F90EC, 0xCC4918B5949206BB, 0x92AEEED1A7BCF7D2)
  {
  }

  lemma Words0(m: seq<Long>)
    requires |m| == 16 && IsBlock(m)
    ensures Word(m, 0, 0x6162638000000000) && Word(m, 1, 0x0000000000000000)
    ensures Word(m, 2, 0x0000000000000000) && Word(m, 3, 0x0000000000000000)
    ensures Word(m, 4, 0x0000000000000000) && Word(m, 5, 0x0000000000000000)
    ensures Word(m, 6, 0x0000000000000000) && Word(m, 7, 0x0000000000000000)
  {
  }

  lemma Words1(m: seq<Long>)
    requires |m| == 16 && IsBlock(m)
    ensures Word(m, 8, 0x0000000000000000) && Word(m, 9, 0x0000000000000000)
    ensures Word(m, 10, 0x0000000000000000) && Word(m, 11, 0x0000000000000000)
    ensures Word(m, 12, 0x0000000000000000) && Word(m, 13, 0x0000000000000000)
    ensures Word(m, 14, 0x0000000000000000) && Word(m, 15, 0x0000000000000018)
  {
  }

  lemma Words2(m: seq<Long>)
    requires |m| == 16 && IsBlock(m)
    ensures Word(m, 16, 0x6162638000000000) && Word(m, 17, 0x00030000000000C0)
    ensures Word(m, 18, 0x0A9699A24C700003) && Word(m, 19, 0x00000C0060000603)
    ensures Word(m, 20, 0x549EF62639858996) && Word(m, 21, 0x00C0003300003C00)
    ensures Word(m, 22, 0x1497007A8A0E9DBC) && Word(m, 23, 0x62E56500CC0780F0)
  {
    Words0(m);
    Words1(m);
    Mixed2();
    hide Word, Mixes, IsBlock;
    NextWord(m, 0);
    NextWord(m, 1);
    NextWord(m, 2);
    NextWord(m, 3);
    NextWord(m, 4);
    NextWord(m, 5);
    NextWord(m, 6);
    NextWord(m, 7);
  }

  lemma Words3(m: seq<Long>)
    requires |m| == 16 && IsBlock(m)
    ensures Word(m, 24, 0x7760DD475A538797) && Word(m, 25, 0xF1554B711C1C0003)
    ensures Word(m, 26, 0xCA2993A4345D9FF2) && Word(m, 27, 0x5E0E66B5C783DD32)
    ensures Word(m, 28, 0xE25A625D00494B62) && Word(m, 29, 0x9F44486FB1E4FBD2)
    ensures Word(m, 30, 0xB31B8C2B06085F2F) && Word(m, 31, 0x0E987660934142F6)
  {
    Words1(m);
    Words2(m);
    Mixed3();
    hide Word, Mixes, IsBlock;
    NextWord(m, 8);
    NextWord(m, 9);
    NextWord(m, 10);
    NextWord(m, 11);
    NextWord(m, 12);
    NextWord(m, 13);
    NextWord(m, 14);
    NextWord(m, 15);
  }

  lemma Words4(m: seq<Long>)
    requires |m| == 16 && IsBlock(m)
    ensures Word(m, 32, 0xA4AF2CFD09FBB924) && Word(m, 33, 0xAD289E2E0BD53186)
    ensures Word(m, 34, 0x3C74563AA2F9673E) && Word(m, 35, 0x6CCDCD14CC14B53F)
    ensures Word(m, 36, 0xC3F925B337F22BDE) && Word(m, 37, 0x5BCC77A75AD95B54)
    ensures Word(m, 38, 0x3EC2257ADCA09A52) && Word(m, 39, 0x28246960001FC5EB)
  {
    Words2(m);
    Words3(m);
    Mixed4();
    hide Word, Mixes, IsBlock;
    NextWord(m, 16);
    NextWord(m, 17);
    NextWord(m, 18);
    NextWord(m, 19);
    NextWord(m, 20);
    NextWord(m, 21);
    NextWord(m, 22);
    NextWord(m, 23);
  }

  lemma Words5(m: seq<Long>)
    requires |m| == 16 && IsBlock(m)
    ensures Word(m, 40, 0x04E33A75CE2BE88A) && Word(m, 41, 0x7D5314B3C359E0E7)
    ensures Word(m, 42, 0xAEF7A285FF251266) && Word(m, 43, 0x0B8472581DEEA04F)
    ensures Word(m, 44, 0xB174E26EDDC7B033) && Word(m, 45, 0x5D63BAE58DDD88DE)
    ensures Word(m, 46, 0x4C044007B744CCBB) && Word(m, 47, 0xE6A9AA4D74DC7D43)
  {
    Words3(m);
    Words4(m);
    Mixed5();
    hide Word, Mixes, IsBlock;
    NextWord(m, 24);
    NextWord(m, 25);
    NextWord(m, 26);
    NextWord(m, 27);
    NextWord(m, 28);
    NextWord(m, 29);
    NextWord(m, 30);
    NextWord(m, 31);
  }

  lemma Words6(m: seq<Long>)
    requires |m| == 16 && IsBlock(m)
    ensures Word(m, 48, 0xEBEAF1237248019C) && Word(m, 49, 0x361E80B2D00F3193)
    ensures Word(m, 50, 0x2E9839125DF3B175) && Word(m, 51, 0x3319629293AD5363)
    ensures Word(m, 52, 0x9CBC5D89AC1B89D5) && Word(m, 53, 0x275E23FFEECA50B7)
    ensures Word(m, 54, 0x3B80D680BF69EF58) && Word(m, 55, 0x0D0696933945A125)
  {
    Words4(m);
    Words5(m);
    Mixed6();
    hide Word, Mixes, IsBlock;
    NextWord(m, 32);
    NextWord(m, 33);
    NextWord(m, 34);
    NextWord(m, 35);
    NextWord(m, 36);
    NextWord(m, 37);
    NextWord(m, 38);
    NextWord(m, 39);
  }

  lemma Words7(m: seq<Long>)
    requires |m| == 16 && IsBlock(m)
    ensures Word(m, 56, 0x7533EABCB786FF00) && Word(m, 57, 0xB89826CEE6FBF0E5)
    ensures Word(m, 58, 0x249B4FBCAD623E9F) && Word(m, 59, 0x4AEA9DF2B02D6F1E)
    ensures Word(m, 60, 0x2CC57475A55E8D8F) && Word(m, 61, 0xB2574AE938D8BE89)
    ensures Word(m, 62, 0xC1B35A57B16D6AEA) && Word(m, 63, 0xCC4918B5949206BB)
  {
    Words5(m);
    Words6(m);
    Mixed7();
    hide Word, Mixes, IsBlock;
    NextWord(m, 40);
    NextWord(m, 41);
    NextWord(m, 42);
    NextWord(m, 43);
    NextWord(m, 44);
    NextWord(m, 45);
    NextWord(m, 46);
    NextWord(m, 47);
  }

  lemma Words8(m: seq<Long>)
    requires |m| == 16 && IsBlock(m)
    ensures Word(m, 64, 0x5099C3ADD79F90EC) && Word(m, 65, 0x5EA81D78E7660BF1)
    ensures Word(m, 66, 0xEBEE6267405AC2A9) && Word(m, 67, 0xB01F21926108A4AB)
    ensures Word(m, 68, 0x786433DD2FE65556) && Word(m, 69, 0xC54A6EAA24A0552C)
    ensures Word(m, 70, 0xB3C8F1530BDBAA9E) && Word(m, 71, 0xBB8ABFE56F469338)
  {
    Words6(m);
    Words7(m);
    Mixed8();
    hide Word, Mixes, IsBlock;
    NextWord(m, 48);
    NextWord(m, 49);
    NextWord(m, 50);
    NextWord(m, 51);
    NextWord(m, 52);
    NextWord(m, 53);
    NextWord(m, 54);
    NextWord(m, 55);
  }

  lemma Words9(m: seq<Long>)
    requires |m| == 16 && IsBlock(m)
    ensures Word(m, 72, 0xF63D4265CC1C5A78) && Word(m, 73, 0xBE8355EA73129AFB)
    ensures Word(m, 74, 0x49E2DB8EBDCFBEB5) && Word(m, 75, 0x82269D4A883A3D99)
    ensures Word(m, 76, 0xFDF53DF3011F362B) && Word(m, 77, 0x464AF5671D71C12E)
    ensures Word(m, 78, 0xE449B68198EC611C) && Word(m, 79, 0x92AEEED1A7BCF7D2)
  {
    Words7(m);
    Words8(m);
    Mixed9();
    hide Word, Mixes, IsBlock;
    NextWord(m, 56);
    NextWord(m, 57);
    NextWord(m, 58);
    NextWord(m, 59);
    NextWord(m, 60);
    NextWord(m, 61);
    NextWord(m, 62);
    NextWord(m, 63);
  }

  // ---------- The rounds ----------

  // The registers after n rounds.
  predicate At(m: seq<Long>, n: nat, a: Long, b: Long, c: Long, d: Long, e: Long, f: Long, g: Long, h: Long)
    requires |m| == 16 && n <= 80
  {
    Sha512Rounds(n, m, START) == Regs8(a, b, c, d, e, f, g, h)
  }

  // A round makes a new a and a new e and moves the others.
  predicate Turns(k: Long, w: Long, a: Long, b: Long, c: Long, d: Long, e: Long, f: Long, g: Long, h: Long,
    newA: Long, newE: Long)
  {
    var r := Sha512Round(k, w, Regs8(a, b, c, d, e, f, g, h)); r.a == newA && r.e == newE
  }

  lemma Turn(m: seq<Long>, n: nat, k: Long, w: Long, a: Long, b: Long, c: Long, d: Long,
    e: Long, f: Long, g: Long, h: Long, newA: Long, newE: Long)
    requires |m| == 16 && n < 80 && At(m, n, a, b, c, d, e, f, g, h) && K512(n) == k && Word(m, n, w)
    requires Turns(k, w, a, b, c, d, e, f, g, h, newA, newE)
    ensures At(m, n + 1, newA, a, b, c, newE, e, f, g)
  {
    hide K512, LAdd, LBigSigma0, LBigSigma1, LCh, LMaj, Sha512W, START;
  }

  lemma EveryTurn(m: seq<Long>, n: nat)
    requires |m| == 16 && n < 80
    ensures forall k, w, a, b, c, d, e, f, g, h, newA, newE
      {:trigger At(m, n, a, b, c, d, e, f, g, h), Turns(k, w, a, b, c, d, e, f, g, h, newA, newE)} |
      At(m, n, a, b, c, d, e, f, g, h) && K512(n) == k && Word(m, n, w)
      && Turns(k, w, a, b, c, d, e, f, g, h, newA, newE) :: At(m, n + 1, newA, a, b, c, newE, e, f, g)
  {
    hide At, Turns, K512, Word;
    forall k, w, a, b, c, d, e, f, g, h, newA, newE | At(m, n, a, b, c, d, e, f, g, h) && K512(n) == k &&
      Word(m, n, w) && Turns(k, w, a, b, c, d, e, f, g, h, newA, newE)
      ensures At(m, n + 1, newA, a, b, c, newE, e, f, g)
    {
      Turn(m, n, k, w, a, b, c, d, e, f, g, h, newA, newE);
    }
  }

  lemma Begins(m: seq<Long>)
    requires |m| == 16
    ensures At(m, 0, 0x6A09E667F3BCC908, 0xBB67AE8584CAA73B, 0x3C6EF372FE94F82B, 0xA54FF53A5F1D36F1,
      0x510E527FADE682D1, 0x9B05688C2B3E6C1F, 0x1F83D9ABFB41BD6B, 0x5BE0CD19137E2179)
  {
  }

  lemma Constants0()
    ensures K512(0) == 0x428A2F98D728AE22 && K512(1) == 0x7137449123EF65CD
    ensures K512(2) == 0xB5C0FBCFEC4D3B2F && K512(3) == 0xE9B5DBA58189DBBC
    ensures K512(4) == 0x3956C25BF348B538 && K512(5) == 0x59F111F1B605D019
    ensures K512(6) == 0x923F82A4AF194F9B && K512(7) == 0xAB1C5ED5DA6D8118
  {
  }

  lemma Constants1()
    ensures K512(8) == 0xD807AA98A3030242 && K512(9) == 0x12835B0145706FBE
    ensures K512(10) == 0x243185BE4EE4B28C && K512(11) == 0x550C7DC3D5FFB4E2
    ensures K512(12) == 0x72BE5D74F27B896F && K512(13) == 0x80DEB1FE3B1696B1
    ensures K512(14) == 0x9BDC06A725C71235 && K512(15) == 0xC19BF174CF692694
  {
  }

  lemma Constants2()
    ensures K512(16) == 0xE49B69C19EF14AD2 && K512(17) == 0xEFBE4786384F25E3
    ensures K512(18) == 0x0FC19DC68B8CD5B5 && K512(19) == 0x240CA1CC77AC9C65
    ensures K512(20) == 0x2DE92C6F592B0275 && K512(21) == 0x4A7484AA6EA6E483
    ensures K512(22) == 0x5CB0A9DCBD41FBD4 && K512(23) == 0x76F988DA831153B5
  {
  }

  lemma Constants3()
    ensures K512(24) == 0x983E5152EE66DFAB && K512(25) == 0xA831C66D2DB43210
    ensures K512(26) == 0xB00327C898FB213F && K512(27) == 0xBF597FC7BEEF0EE4
    ensures K512(28) == 0xC6E00BF33DA88FC2 && K512(29) == 0xD5A79147930AA725
    ensures K512(30) == 0x06CA6351E003826F && K512(31) == 0x142929670A0E6E70
  {
  }

  lemma Constants4()
    ensures K512(32) == 0x27B70A8546D22FFC && K512(33) == 0x2E1B21385C26C926
    ensures K512(34) == 0x4D2C6DFC5AC42AED && K512(35) == 0x53380D139D95B3DF
    ensures K512(36) == 0x650A73548BAF63DE && K512(37) == 0x766A0ABB3C77B2A8
    ensures K512(38) == 0x81C2C92E47EDAEE6 && K512(39) == 0x92722C851482353B
  {
  }

  lemma Constants5()
    ensures K512(40) == 0xA2BFE8A14CF10364 && K512(41) == 0xA81A664BBC423001
    ensures K512(42) == 0xC24B8B70D0F89791 && K512(43) == 0xC76C51A30654BE30
    ensures K512(44) == 0xD192E819D6EF5218 && K512(45) == 0xD69906245565A910
    ensures K512(46) == 0xF40E35855771202A && K512(47) == 0x106AA07032BBD1B8
  {
  }

  lemma Constants6()
    ensures K512(48) == 0x19A4C116B8D2D0C8 && K512(49) == 0x1E376C085141AB53
    ensures K512(50) == 0x2748774CDF8EEB99 && K512(51) == 0x34B0BCB5E19B48A8
    ensures K512(52) == 0x391C0CB3C5C95A63 && K512(53) == 0x4ED8AA4AE3418ACB
    ensures K512(54) == 0x5B9CCA4F7763E373 && K512(55) == 0x682E6FF3D6B2B8A3
  {
  }

  lemma Constants7()
    ensures K512(56) == 0x748F82EE5DEFB2FC && K512(57) == 0x78A5636F43172F60
    ensures K512(58) == 0x84C87814A1F0AB72 && K512(59) == 0x8CC702081A6439EC
    ensures K512(60) == 0x90BEFFFA23631E28 && K512(61) == 0xA4506CEBDE82BDE9
    ensures K512(62) == 0xBEF9A3F7B2C67915 && K512(63) == 0xC67178F2E372532B
  {
  }

  lemma Constants8()
    ensures K512(64) == 0xCA273ECEEA26619C && K512(65) == 0xD186B8C721C0C207
    ensures K512(66) == 0xEADA7DD6CDE0EB1E && K512(67) == 0xF57D4F7FEE6ED178
    ensures K512(68) == 0x06F067AA72176FBA && K512(69) == 0x0A637DC5A2C898A6
    ensures K512(70) == 0x113F9804BEF90DAE && K512(71) == 0x1B710B35131C471B
  {
  }

  lemma Constants9()
    ensures K512(72) == 0x28DB77F523047D84 && K512(73) == 0x32CAAB7B40C72493
    ensures K512(74) == 0x3C9EBE0A15C9BEBC && K512(75) == 0x431D67C49C100D4C
    ensures K512(76) == 0x4CC5D4BECB3E42B6 && K512(77) == 0x597F299CFC657E2A
    ensures K512(78) == 0x5FCB6FAB3AD6FAEC && K512(79) == 0x6C44198C4A475817
  {
  }

  lemma Turns0()
    ensures Turns(0x428A2F98D728AE22, 0x6162638000000000, 0x6A09E667F3BCC908, 0xBB67AE8584CAA73B, 0x3C6EF372FE94F82B,
      0xA54FF53A5F1D36F1, 0x510E527FADE682D1, 0x9B05688C2B3E6C1F, 0x1F83D9ABFB41BD6B, 0x5BE0CD19137E2179,
      0xF6AFCEB8BCFCDDF5, 0x58CB02347AB51F91)
    ensures Turns(0x7137449123EF65CD, 0x0000000000000000, 0xF6AFCEB8BCFCDDF5, 0x6A09E667F3BCC908, 0xBB67AE8584CAA73B,
      0x3C6EF372FE94F82B, 0x58CB02347AB51F91, 0x510E527FADE682D1, 0x9B05688C2B3E6C1F, 0x1F83D9ABFB41BD6B,
      0x1320F8C9FB872CC0, 0xC3D4EBFD48650FFA)
    ensures Turns(0xB5C0FBCFEC4D3B2F, 0x0000000000000000, 0x1320F8C9FB872CC0, 0xF6AFCEB8BCFCDDF5, 0x6A09E667F3BCC908,
      0xBB67AE8584CAA73B, 0xC3D4EBFD48650FFA, 0x58CB02347AB51F91, 0x510E527FADE682D1, 0x9B05688C2B3E6C1F,
      0xEBCFFC07203D91F3, 0xDFA9B239F2697812)
    ensures Turns(0xE9B5DBA58189DBBC, 0x0000000000000000, 0xEBCFFC07203D91F3, 0x1320F8C9FB872CC0, 0xF6AFCEB8BCFCDDF5,
      0x6A09E667F3BCC908, 0xDFA9B239F2697812, 0xC3D4EBFD48650FFA, 0x58CB02347AB51F91, 0x510E527FADE682D1,
      0x5A83CB3E80050E82, 0x0B47B4BB1928990E)
    ensures Turns(0x3956C25BF348B538, 0x0000000000000000, 0x5A83CB3E80050E82, 0xEBCFFC07203D91F3, 0x1320F8C9FB872CC0,
      0xF6AFCEB8BCFCDDF5, 0x0B47B4BB1928990E, 0xDFA9B239F2697812, 0xC3D4EBFD48650FFA, 0x58CB02347AB51F91,
      0xB680953951604860, 0x745ACA4A342ED2E2)
    ensures Turns(0x59F111F1B605D019, 0x0000000000000000, 0xB680953951604860, 0x5A83CB3E80050E82, 0xEBCFFC07203D91F3,
      0x1320F8C9FB872CC0, 0x745ACA4A342ED2E2, 0x0B47B4BB1928990E, 0xDFA9B239F2697812, 0xC3D4EBFD48650FFA,
      0xAF573B02403E89CD, 0x96F60209B6DC35BA)
    ensures Turns(0x923F82A4AF194F9B, 0x0000000000000000, 0xAF573B02403E89CD, 0xB680953951604860, 0x5A83CB3E80050E82,
      0xEBCFFC07203D91F3, 0x96F60209B6DC35BA, 0x745ACA4A342ED2E2, 0x0B47B4BB1928990E, 0xDFA9B239F2697812,
      0xC4875B0C7ABC076B, 0x5A6C781F54DCC00C)
    ensures Turns(0xAB1C5ED5DA6D8118, 0x0000000000000000, 0xC4875B0C7ABC076B, 0xAF573B02403E89CD, 0xB680953951604860,
      0x5A83CB3E80050E82, 0x5A6C781F54DCC00C, 0x96F60209B6DC35BA, 0x745ACA4A342ED2E2, 0x0B47B4BB1928990E,
      0x8093D195E0054FA3, 0x86F67263A0F0EC0A)
  {
  }

  lemma Turns1()
    ensures Turns(0xD807AA98A3030242, 0x0000000000000000, 0x8093D195E0054FA3, 0xC4875B0C7ABC076B, 0xAF573B02403E89CD,
      0xB680953951604860, 0x86F67263A0F0EC0A, 0x5A6C781F54DCC00C, 0x96F60209B6DC35BA, 0x745ACA4A342ED2E2,
      0xF1ECA5544CB89225, 0xD0403C398FC40002)
    ensures Turns(0x12835B0145706FBE, 0x0000000000000000, 0xF1ECA5544CB89225, 0x8093D195E0054FA3, 0xC4875B0C7ABC076B,
      0xAF573B02403E89CD, 0xD0403C398FC40002, 0x86F67263A0F0EC0A, 0x5A6C781F54DCC00C, 0x96F60209B6DC35BA,
      0x81782D4A5DB48F03, 0x00091F460BE46C52)
    ensures Turns(0x243185BE4EE4B28C, 0x0000000000000000, 0x81782D4A5DB48F03, 0xF1ECA5544CB89225, 0x8093D195E0054FA3,
      0xC4875B0C7ABC076B, 0x00091F460BE46C52, 0xD0403C398FC40002, 0x86F67263A0F0EC0A, 0x5A6C781F54DCC00C,
      0x69854C4AA0F25B59, 0xD375471BDE1BA3F4)
    ensures Turns(0x550C7DC3D5FFB4E2, 0x0000000000000000, 0x69854C4AA0F25B59, 0x81782D4A5DB48F03, 0xF1ECA5544CB89225,
      0x8093D195E0054FA3, 0xD375471BDE1BA3F4, 0x00091F460BE46C52, 0xD0403C398FC40002, 0x86F67263A0F0EC0A,
      0xDB0A9963F80C2EAA, 0x475975B91A7A462C)
    ensures Turns(0x72BE5D74F27B896F, 0x0000000000000000, 0xDB0A9963F80C2EAA, 0x69854C4AA0F25B59, 0x81782D4A5DB48F03,
      0xF1ECA5544CB89225, 0x475975B91A7A462C, 0xD375471BDE1BA3F4, 0x00091F460BE46C52, 0xD0403C398FC40002,
      0x5E41214388186C14, 0xCDF3BFF2883FC9D9)
    ensures Turns(0x80DEB1FE3B1696B1, 0x0000000000000000, 0x5E41214388186C14, 0xDB0A9963F80C2EAA, 0x69854C4AA0F25B59,
      0x81782D4A5DB48F03, 0xCDF3BFF2883FC9D9, 0x475975B91A7A462C, 0xD375471BDE1BA3F4, 0x00091F460BE46C52,
      0x44249631255D2CA0, 0x860ACF9EFFBA6F61)
    ensures Turns(0x9BDC06A725C71235, 0x0000000000000000, 0x44249631255D2CA0, 0x5E41214388186C14, 0xDB0A9963F80C2EAA,
      0x69854C4AA0F25B59, 0x860ACF9EFFBA6F61, 0xCDF3BFF2883FC9D9, 0x475975B91A7A462C, 0xD375471BDE1BA3F4,
      0xFA967EED85A08028, 0x874BFE5F6AAE9F2F)
    ensures Turns(0xC19BF174CF692694, 0x0000000000000018, 0xFA967EED85A08028, 0x44249631255D2CA0, 0x5E41214388186C14,
      0xDB0A9963F80C2EAA, 0x874BFE5F6AAE9F2F, 0x860ACF9EFFBA6F61, 0xCDF3BFF2883FC9D9, 0x475975B91A7A462C,
      0x0AE07C86B1181C75, 0xA77B7C035DD4C161)
  {
  }

  lemma Turns2()
    ensures Turns(0xE49B69C19EF14AD2, 0x6162638000000000, 0x0AE07C86B1181C75, 0xFA967EED85A08028, 0x44249631255D2CA0,
      0x5E41214388186C14, 0xA77B7C035DD4C161, 0x874BFE5F6AAE9F2F, 0x860ACF9EFFBA6F61, 0xCDF3BFF2883FC9D9,
      0xCAF81A425D800537, 0x2DEECC6B39D64D78)
    ensures Turns(0xEFBE4786384F25E3, 0x00030000000000C0, 0xCAF81A425D800537, 0x0AE07C86B1181C75, 0xFA967EED85A08028,
      0x44249631255D2CA0, 0x2DEECC6B39D64D78, 0xA77B7C035DD4C161, 0x874BFE5F6AAE9F2F, 0x860ACF9EFFBA6F61,
      0x4725BE249AD19E6B, 0xF47E8353F8047455)
    ensures Turns(0x0FC19DC68B8CD5B5, 0x0A9699A24C700003, 0x4725BE249AD19E6B, 0xCAF81A425D800537, 0x0AE07C86B1181C75,
      0xFA967EED85A08028, 0xF47E8353F8047455, 0x2DEECC6B39D64D78, 0xA77B7C035DD4C161, 0x874BFE5F6AAE9F2F,
      0x3C4B4104168E3EDB, 0x29695FD88D81DBD0)
    ensures Turns(0x240CA1CC77AC9C65, 0x00000C0060000603, 0x3C4B4104168E3EDB, 0x4725BE249AD19E6B, 0xCAF81A425D800537,
      0x0AE07C86B1181C75, 0x29695FD88D81DBD0, 0xF47E8353F8047455, 0x2DEECC6B39D64D78, 0xA77B7C035DD4C161,
      0x9A3FB4D38AB6CF06, 0xF14998DD5F70767E)
    ensures Turns(0x2DE92C6F592B0275, 0x549EF62639858996, 0x9A3FB4D38AB6CF06, 0x3C4B4104168E3EDB, 0x4725BE249AD19E6B,
      0xCAF81A425D800537, 0xF14998DD5F70767E, 0x29695FD88D81DBD0, 0xF47E8353F8047455, 0x2DEECC6B39D64D78,
      0x8DC5AE65569D3855, 0x4BB9E66D1145BFDC)
    ensures Turns(0x4A7484AA6EA6E483, 0x00C0003300003C00, 0x8DC5AE65569D3855, 0x9A3FB4D38AB6CF06, 0x3C4B4104168E3EDB,
      0x4725BE249AD19E6B, 0x4BB9E66D1145BFDC, 0xF14998DD5F70767E, 0x29695FD88D81DBD0, 0xF47E8353F8047455,
      0xDA34D6673D452DCF, 0x8E30FF09AD488753)
    ensures Turns(0x5CB0A9DCBD41FBD4, 0x1497007A8A0E9DBC, 0xDA34D6673D452DCF, 0x8DC5AE65569D3855, 0x9A3FB4D38AB6CF06,
      0x3C4B4104168E3EDB, 0x8E30FF09AD488753, 0x4BB9E66D1145BFDC, 0xF14998DD5F70767E, 0x29695FD88D81DBD0,
      0x3E2644567B709A78, 0x0AC2B11DA8F571C6)
    ensures Turns(0x76F988DA831153B5, 0x62E56500CC0780F0, 0x3E2644567B709A78, 0xDA34D6673D452DCF, 0x8DC5AE65569D3855,
      0x9A3FB4D38AB6CF06, 0x0AC2B11DA8F571C6, 0x8E30FF09AD488753, 0x4BB9E66D1145BFDC, 0xF14998DD5F70767E,
      0x4F6877B58FE55484, 0xC66005F87DB55233)
  {
  }

  lemma Turns3()
    ensures Turns(0x983E5152EE66DFAB, 0x7760DD475A538797, 0x4F6877B58FE55484, 0x3E2644567B709A78, 0xDA34D6673D452DCF,
      0x8DC5AE65569D3855, 0xC66005F87DB55233, 0x0AC2B11DA8F571C6, 0x8E30FF09AD488753, 0x4BB9E66D1145BFDC,
      0x9AFF71163FA3A940, 0xD3ECF13769180E6F)
    ensures Turns(0xA831C66D2DB43210, 0xF1554B711C1C0003, 0x9AFF71163FA3A940, 0x4F6877B58FE55484, 0x3E2644567B709A78,
      0xDA34D6673D452DCF, 0xD3ECF13769180E6F, 0xC66005F87DB55233, 0x0AC2B11DA8F571C6, 0x8E30FF09AD488753,
      0x0BC5F791F8E6816B, 0x6DDF1FD7EDCCE336)
    ensures Turns(0xB00327C898FB213F, 0xCA2993A4345D9FF2, 0x0BC5F791F8E6816B, 0x9AFF71163FA3A940, 0x4F6877B58FE55484,
      0x3E2644567B709A78, 0x6DDF1FD7EDCCE336, 0xD3ECF13769180E6F, 0xC66005F87DB55233, 0x0AC2B11DA8F571C6,
      0x884C3BC27BC4F941, 0xE6E48C9A8E948365)
    ensures Turns(0xBF597FC7BEEF0EE4, 0x5E0E66B5C783DD32, 0x884C3BC27BC4F941, 0x0BC5F791F8E6816B, 0x9AFF71163FA3A940,
      0x4F6877B58FE55484, 0xE6E48C9A8E948365, 0x6DDF1FD7EDCCE336, 0xD3ECF13769180E6F, 0xC66005F87DB55233,
      0xEAB4A9E5771B8D09, 0x09068A4E255A0DAC)
    ensures Turns(0xC6E00BF33DA88FC2, 0xE25A625D00494B62, 0xEAB4A9E5771B8D09, 0x884C3BC27BC4F941, 0x0BC5F791F8E6816B,
      0x9AFF71163FA3A940, 0x09068A4E255A0DAC, 0xE6E48C9A8E948365, 0x6DDF1FD7EDCCE336, 0xD3ECF13769180E6F,
      0xE62349090F47D30A, 0x0FCDF99710F21584)
    ensures Turns(0xD5A79147930AA725, 0x9F44486FB1E4FBD2, 0xE62349090F47D30A, 0xEAB4A9E5771B8D09, 0x884C3BC27BC4F941,
      0x0BC5F791F8E6816B, 0x0FCDF99710F21584, 0x09068A4E255A0DAC, 0xE6E48C9A8E948365, 0x6DDF1FD7EDCCE336,
      0x74BF40F869094C63, 0xF0AEC2FE1437F085)
    ensures Turns(0x06CA6351E003826F, 0xB31B8C2B06085F2F, 0x74BF40F869094C63, 0xE62349090F47D30A, 0xEAB4A9E5771B8D09,
      0x884C3BC27BC4F941, 0xF0AEC2FE1437F085, 0x0FCDF99710F21584, 0x09068A4E255A0DAC, 0xE6E48C9A8E948365,
      0x4C4FBBB75F1873A6, 0x73E025D91B9EFEA3)
    ensures Turns(0x142929670A0E6E70, 0x0E987660934142F6, 0x4C4FBBB75F1873A6, 0x74BF40F869094C63, 0xE62349090F47D30A,
      0xEAB4A9E5771B8D09, 0x73E025D91B9EFEA3, 0xF0AEC2FE1437F085, 0x0FCDF99710F21584, 0x09068A4E255A0DAC,
      0xFF4D3F1F0D46A736, 0x3CD388E119E8162E)
  {
  }

  lemma Turns4()
    ensures Turns(0x27B70A8546D22FFC, 0xA4AF2CFD09FBB924, 0xFF4D3F1F0D46A736, 0x4C4FBBB75F1873A6, 0x74BF40F869094C63,
      0xE62349090F47D30A, 0x3CD388E119E8162E, 0x73E025D91B9EFEA3, 0xF0AEC2FE1437F085, 0x0FCDF99710F21584,
      0xA0509015CA08C8D4, 0xE1034573654A106F)
    ensures Turns(0x2E1B21385C26C926, 0xAD289E2E0BD53186, 0xA0509015CA08C8D4, 0xFF4D3F1F0D46A736, 0x4C4FBBB75F1873A6,
      0x74BF40F869094C63, 0xE1034573654A106F, 0x3CD388E119E8162E, 0x73E025D91B9EFEA3, 0xF0AEC2FE1437F085,
      0x60D4E6995ED91FE6, 0xEFABBD8BF47C041A)
    ensures Turns(0x4D2C6DFC5AC42AED, 0x3C74563AA2F9673E, 0x60D4E6995ED91FE6, 0xA0509015CA08C8D4, 0xFF4D3F1F0D46A736,
      0x4C4FBBB75F1873A6, 0xEFABBD8BF47C041A, 0xE1034573654A106F, 0x3CD388E119E8162E, 0x73E025D91B9EFEA3,
      0x2C59EC7743632621, 0x0FBAE670FA780FD3)
    ensures Turns(0x53380D139D95B3DF, 0x6CCDCD14CC14B53F, 0x2C59EC7743632621, 0x60D4E6995ED91FE6, 0xA0509015CA08C8D4,
      0xFF4D3F1F0D46A736, 0x0FBAE670FA780FD3, 0xEFABBD8BF47C041A, 0xE1034573654A106F, 0x3CD388E119E8162E,
      0x1A081AFC59FDBC2C, 0xF098082F502B44CD)
    ensures Turns(0x650A73548BAF63DE, 0xC3F925B337F22BDE, 0x1A081AFC59FDBC2C, 0x2C59EC7743632621, 0x60D4E6995ED91FE6,
      0xA0509015CA08C8D4, 0xF098082F502B44CD, 0x0FBAE670FA780FD3, 0xEFABBD8BF47C041A, 0xE1034573654A106F,
      0x88DF85B0BBE77514, 0x8FBFD0162BBF4675)
    ensures Turns(0x766A0ABB3C77B2A8, 0x5BCC77A75AD95B54, 0x88DF85B0BBE77514, 0x1A081AFC59FDBC2C, 0x2C59EC7743632621,
      0x60D4E6995ED91FE6, 0x8FBFD0162BBF4675, 0xF098082F502B44CD, 0x0FBAE670FA780FD3, 0xEFABBD8BF47C041A,
      0x002BB8E4CD989567, 0x66ADCFA249AC7BBD)
    ensures Turns(0x81C2C92E47EDAEE6, 0x3EC2257ADCA09A52, 0x002BB8E4CD989567, 0x88DF85B0BBE77514, 0x1A081AFC59FDBC2C,
      0x2C59EC7743632621, 0x66ADCFA249AC7BBD, 0x8FBFD0162BBF4675, 0xF098082F502B44CD, 0x0FBAE670FA780FD3,
      0xB3BB8542B3376DE5, 0xB49596C20FEBA7DE)
    ensures Turns(0x92722C851482353B, 0x28246960001FC5EB, 0xB3BB8542B3376DE5, 0x002BB8E4CD989567, 0x88DF85B0BBE77514,
      0x1A081AFC59FDBC2C, 0xB49596C20FEBA7DE, 0x66ADCFA249AC7BBD, 0x8FBFD0162BBF4675, 0xF098082F502B44CD,
      0x8E01E125B855D225, 0x0C710A47BA6A567B)
  {
  }

  lemma Turns5()
    ensures Turns(0xA2BFE8A14CF10364, 0x04E33A75CE2BE88A, 0x8E01E125B855D225, 0xB3BB8542B3376DE5, 0x002BB8E4CD989567,
      0x88DF85B0BBE77514, 0x0C710A47BA6A567B, 0xB49596C20FEBA7DE, 0x66ADCFA249AC7BBD, 0x8FBFD0162BBF4675,
      0xB01521DD6A6BE12C, 0x169008B3A4BB170B)
    ensures Turns(0xA81A664BBC423001, 0x7D5314B3C359E0E7, 0xB01521DD6A6BE12C, 0x8E01E125B855D225, 0xB3BB8542B3376DE5,
      0x002BB8E4CD989567, 0x169008B3A4BB170B, 0x0C710A47BA6A567B, 0xB49596C20FEBA7DE, 0x66ADCFA249AC7BBD,
      0xE96F89DD48CBD851, 0xF0996439E7B50CB1)
    ensures Turns(0xC24B8B70D0F89791, 0xAEF7A285FF251266, 0xE96F89DD48CBD851, 0xB01521DD6A6BE12C, 0x8E01E125B855D225,
      0xB3BB8542B3376DE5, 0xF0996439E7B50CB1, 0x169008B3A4BB170B, 0x0C710A47BA6A567B, 0xB49596C20FEBA7DE,
      0xBC05BA8DE5D3C480, 0x639CB938E14DC190)
    ensures Turns(0xC76C51A30654BE30, 0x0B8472581DEEA04F, 0xBC05BA8DE5D3C480, 0xE96F89DD48CBD851, 0xB01521DD6A6BE12C,
      0x8E01E125B855D225, 0x639CB938E14DC190, 0xF0996439E7B50CB1, 0x169008B3A4BB170B, 0x0C710A47BA6A567B,
      0x35D7E7F41DEFCBD5, 0xCC5100997F5710F2)
    ensures Turns(0xD192E819D6EF5218, 0xB174E26EDDC7B033, 0x35D7E7F41DEFCBD5, 0xBC05BA8DE5D3C480, 0xE96F89DD48CBD851,
      0xB01521DD6A6BE12C, 0xCC5100997F5710F2, 0x639CB938E14DC190, 0xF0996439E7B50CB1, 0x169008B3A4BB170B,
      0xC47C9D5C7EA8A234, 0x858D832AE0E8911C)
    ensures Turns(0xD69906245565A910, 0x5D63BAE58DDD88DE, 0xC47C9D5C7EA8A234, 0x35D7E7F41DEFCBD5, 0xBC05BA8DE5D3C480,
      0xE96F89DD48CBD851, 0x858D832AE0E8911C, 0xCC5100997F5710F2, 0x639CB938E14DC190, 0xF0996439E7B50CB1,
      0x021FBADBABAB5AC6, 0xE95C2A57572D64D9)
    ensures Turns(0xF40E35855771202A, 0x4C044007B744CCBB, 0x021FBADBABAB5AC6, 0xC47C9D5C7EA8A234, 0x35D7E7F41DEFCBD5,
      0xBC05BA8DE5D3C480, 0xE95C2A57572D64D9, 0x858D832AE0E8911C, 0xCC5100997F5710F2, 0x639CB938E14DC190,
      0xF61E672694DE2D67, 0xC6BC35740D8DAA9A)
    ensures Turns(0x106AA07032BBD1B8, 0xE6A9AA4D74DC7D43, 0xF61E672694DE2D67, 0x021FBADBABAB5AC6, 0xC47C9D5C7EA8A234,
      0x35D7E7F41DEFCBD5, 0xC6BC35740D8DAA9A, 0xE95C2A57572D64D9, 0x858D832AE0E8911C, 0xCC5100997F5710F2,
      0x6B69FC1BB482FEAC, 0x35264334C03AC8AD)
  {
  }

  lemma Turns6()
    ensures Turns(0x19A4C116B8D2D0C8, 0xEBEAF1237248019C, 0x6B69FC1BB482FEAC, 0xF61E672694DE2D67, 0x021FBADBABAB5AC6,
      0xC47C9D5C7EA8A234, 0x35264334C03AC8AD, 0xC6BC35740D8DAA9A, 0xE95C2A57572D64D9, 0x858D832AE0E8911C,
      0x571F323D96B3A047, 0x271580ED6C3E5650)
    ensures Turns(0x1E376C085141AB53, 0x361E80B2D00F3193, 0x571F323D96B3A047, 0x6B69FC1BB482FEAC, 0xF61E672694DE2D67,
      0x021FBADBABAB5AC6, 0x271580ED6C3E5650, 0x35264334C03AC8AD, 0xC6BC35740D8DAA9A, 0xE95C2A57572D64D9,
      0xCA9BD862C5050918, 0xDFE091DAB182E645)
    ensures Turns(0x2748774CDF8EEB99, 0x2E9839125DF3B175, 0xCA9BD862C5050918, 0x571F323D96B3A047, 0x6B69FC1BB482FEAC,
      0xF61E672694DE2D67, 0xDFE091DAB182E645, 0x271580ED6C3E5650, 0x35264334C03AC8AD, 0xC6BC35740D8DAA9A,
      0x813A43DD2C502043, 0x07A0D8EF821C5E1A)
    ensures Turns(0x34B0BCB5E19B48A8, 0x3319629293AD5363, 0x813A43DD2C502043, 0xCA9BD862C5050918, 0x571F323D96B3A047,
      0x6B69FC1BB482FEAC, 0x07A0D8EF821C5E1A, 0xDFE091DAB182E645, 0x271580ED6C3E5650, 0x35264334C03AC8AD,
      0xD43F83727325DD77, 0x483F80A82EAEE23E)
    ensures Turns(0x391C0CB3C5C95A63, 0x9CBC5D89AC1B89D5, 0xD43F83727325DD77, 0x813A43DD2C502043, 0xCA9BD862C5050918,
      0x571F323D96B3A047, 0x483F80A82EAEE23E, 0x07A0D8EF821C5E1A, 0xDFE091DAB182E645, 0x271580ED6C3E5650,
      0x03DF11B32D42E203, 0x504F94E40591CFFA)
    ensures Turns(0x4ED8AA4AE3418ACB, 0x275E23FFEECA50B7, 0x03DF11B32D42E203, 0xD43F83727325DD77, 0x813A43DD2C502043,
      0xCA9BD862C5050918, 0x504F94E40591CFFA, 0x483F80A82EAEE23E, 0x07A0D8EF821C5E1A, 0xDFE091DAB182E645,
      0xD63F68037DDF06AA, 0xA6781EFE1AA1CE02)
    ensures Turns(0x5B9CCA4F7763E373, 0x3B80D680BF69EF58, 0xD63F68037DDF06AA, 0x03DF11B32D42E203, 0xD43F83727325DD77,
      0x813A43DD2C502043, 0xA6781EFE1AA1CE02, 0x504F94E40591CFFA, 0x483F80A82EAEE23E, 0x07A0D8EF821C5E1A,
      0xF650857B5BABDA4D, 0x9CCFB31A86DF0F86)
    ensures Turns(0x682E6FF3D6B2B8A3, 0x0D0696933945A125, 0xF650857B5BABDA4D, 0xD63F68037DDF06AA, 0x03DF11B32D42E203,
      0xD43F83727325DD77, 0x9CCFB31A86DF0F86, 0xA6781EFE1AA1CE02, 0x504F94E40591CFFA, 0x483F80A82EAEE23E,
      0x63B460E42748817E, 0xC6B4DD2A9931C509)
  {
  }

  lemma Turns7()
    ensures Turns(0x748F82EE5DEFB2FC, 0x7533EABCB786FF00, 0x63B460E42748817E, 0xF650857B5BABDA4D, 0xD63F68037DDF06AA,
      0x03DF11B32D42E203, 0xC6B4DD2A9931C509, 0x9CCFB31A86DF0F86, 0xA6781EFE1AA1CE02, 0x504F94E40591CFFA,
      0x7A52912943D52B05, 0xD2E89BBD91E00BE0)
    ensures Turns(0x78A5636F43172F60, 0xB89826CEE6FBF0E5, 0x7A52912943D52B05, 0x63B460E42748817E, 0xF650857B5BABDA4D,
      0xD63F68037DDF06AA, 0xD2E89BBD91E00BE0, 0xC6B4DD2A9931C509, 0x9CCFB31A86DF0F86, 0xA6781EFE1AA1CE02,
      0x4B81C3AEC976EA4B, 0x70505988124351AC)
    ensures Turns(0x84C87814A1F0AB72, 0x249B4FBCAD623E9F, 0x4B81C3AEC976EA4B, 0x7A52912943D52B05, 0x63B460E42748817E,
      0xF650857B5BABDA4D, 0x70505988124351AC, 0xD2E89BBD91E00BE0, 0xC6B4DD2A9931C509, 0x9CCFB31A86DF0F86,
      0x581ECB3355DCD9B8, 0x6A3C9B0F71C8BF36)
    ensures Turns(0x8CC702081A6439EC, 0x4AEA9DF2B02D6F1E, 0x581ECB3355DCD9B8, 0x4B81C3AEC976EA4B, 0x7A52912943D52B05,
      0x63B460E42748817E, 0x6A3C9B0F71C8BF36, 0x70505988124351AC, 0xD2E89BBD91E00BE0, 0xC6B4DD2A9931C509,
      0x2C074484EF1EAC8C, 0x4797CDE4ED370692)
    ensures Turns(0x90BEFFFA23631E28, 0x2CC57475A55E8D8F, 0x2C074484EF1EAC8C, 0x581ECB3355DCD9B8, 0x4B81C3AEC976EA4B,
      0x7A52912943D52B05, 0x4797CDE4ED370692, 0x6A3C9B0F71C8BF36, 0x70505988124351AC, 0xD2E89BBD91E00BE0,
      0x3857DFD2FC37D3BA, 0xA6AF4E9C9F807E51)
    ensures Turns(0xA4506CEBDE82BDE9, 0xB2574AE938D8BE89, 0x3857DFD2FC37D3BA, 0x2C074484EF1EAC8C, 0x581ECB3355DCD9B8,
      0x4B81C3AEC976EA4B, 0xA6AF4E9C9F807E51, 0x4797CDE4ED370692, 0x6A3C9B0F71C8BF36, 0x70505988124351AC,
      0xCFCD928C5424E2B6, 0x09AEE5BDA1644DE5)
    ensures Turns(0xBEF9A3F7B2C67915, 0xC1B35A57B16D6AEA, 0xCFCD928C5424E2B6, 0x3857DFD2FC37D3BA, 0x2C074484EF1EAC8C,
      0x581ECB3355DCD9B8, 0x09AEE5BDA1644DE5, 0xA6AF4E9C9F807E51, 0x4797CDE4ED370692, 0x6A3C9B0F71C8BF36,
      0xA81DEDBB9F19E643, 0x84058865D60A05FA)
    ensures Turns(0xC67178F2E372532B, 0xCC4918B5949206BB, 0xA81DEDBB9F19E643, 0xCFCD928C5424E2B6, 0x3857DFD2FC37D3BA,
      0x2C074484EF1EAC8C, 0x84058865D60A05FA, 0x09AEE5BDA1644DE5, 0xA6AF4E9C9F807E51, 0x4797CDE4ED370692,
      0xAB44E86276478D85, 0xCD881EE59CA6BC53)
  {
  }

  lemma Turns8()
    ensures Turns(0xCA273ECEEA26619C, 0x5099C3ADD79F90EC, 0xAB44E86276478D85, 0xA81DEDBB9F19E643, 0xCFCD928C5424E2B6,
      0x3857DFD2FC37D3BA, 0xCD881EE59CA6BC53, 0x84058865D60A05FA, 0x09AEE5BDA1644DE5, 0xA6AF4E9C9F807E51,
      0x5A806D7E9821A501, 0xAA84B086688A5C45)
    ensures Turns(0xD186B8C721C0C207, 0x5EA81D78E7660BF1, 0x5A806D7E9821A501, 0xAB44E86276478D85, 0xA81DEDBB9F19E643,
      0xCFCD928C5424E2B6, 0xAA84B086688A5C45, 0xCD881EE59CA6BC53, 0x84058865D60A05FA, 0x09AEE5BDA1644DE5,
      0xEEB9C21BB0102598, 0x3B5FED0D6A1F96E1)
    ensures Turns(0xEADA7DD6CDE0EB1E, 0xEBEE6267405AC2A9, 0xEEB9C21BB0102598, 0x5A806D7E9821A501, 0xAB44E86276478D85,
      0xA81DEDBB9F19E643, 0x3B5FED0D6A1F96E1, 0xAA84B086688A5C45, 0xCD881EE59CA6BC53, 0x84058865D60A05FA,
      0x46C4210AB2CC155D, 0x29FAB5A7BFF53366)
    ensures Turns(0xF57D4F7FEE6ED178, 0xB01F21926108A4AB, 0x46C4210AB2CC155D, 0xEEB9C21BB0102598, 0x5A806D7E9821A501,
      0xAB44E86276478D85, 0x29FAB5A7BFF53366, 0x3B5FED0D6A1F96E1, 0xAA84B086688A5C45, 0xCD881EE59CA6BC53,
      0x54BA35CF56A0340E, 0x1C66F46D95690BCF)
    ensures Turns(0x06F067AA72176FBA, 0x786433DD2FE65556, 0x54BA35CF56A0340E, 0x46C4210AB2CC155D, 0xEEB9C21BB0102598,
      0x5A806D7E9821A501, 0x1C66F46D95690BCF, 0x29FAB5A7BFF53366, 0x3B5FED0D6A1F96E1, 0xAA84B086688A5C45,
      0x181839D609C79748, 0x0ADA78BA2D446140)
    ensures Turns(0x0A637DC5A2C898A6, 0xC54A6EAA24A0552C, 0x181839D609C79748, 0x54BA35CF56A0340E, 0x46C4210AB2CC155D,
      0xEEB9C21BB0102598, 0x0ADA78BA2D446140, 0x1C66F46D95690BCF, 0x29FAB5A7BFF53366, 0x3B5FED0D6A1F96E1,
      0xFB6AAAE5D0B6A447, 0xE3711CB6564D112D)
    ensures Turns(0x113F9804BEF90DAE, 0xB3C8F1530BDBAA9E, 0xFB6AAAE5D0B6A447, 0x181839D609C79748, 0x54BA35CF56A0340E,
      0x46C4210AB2CC155D, 0xE3711CB6564D112D, 0x0ADA78BA2D446140, 0x1C66F46D95690BCF, 0x29FAB5A7BFF53366,
      0x7652C579CB60F19C, 0xAFF62C9665FF80FA)
    ensures Turns(0x1B710B35131C471B, 0xBB8ABFE56F469338, 0x7652C579CB60F19C, 0xFB6AAAE5D0B6A447, 0x181839D609C79748,
      0x54BA35CF56A0340E, 0xAFF62C9665FF80FA, 0xE3711CB6564D112D, 0x0ADA78BA2D446140, 0x1C66F46D95690BCF,
      0xF15E9664B2803575, 0x947C3DFAFEE570EF)
  {
  }

  lemma Turns9()
    ensures Turns(0x28DB77F523047D84, 0xF63D4265CC1C5A78, 0xF15E9664B2803575, 0x7652C579CB60F19C, 0xFB6AAAE5D0B6A447,
      0x181839D609C79748, 0x947C3DFAFEE570EF, 0xAFF62C9665FF80FA, 0xE3711CB6564D112D, 0x0ADA78BA2D446140,
      0x358406D165AEE9AB, 0x8C7B5FD91A794CA0)
    ensures Turns(0x32CAAB7B40C72493, 0xBE8355EA73129AFB, 0x358406D165AEE9AB, 0xF15E9664B2803575, 0x7652C579CB60F19C,
      0xFB6AAAE5D0B6A447, 0x8C7B5FD91A794CA0, 0x947C3DFAFEE570EF, 0xAFF62C9665FF80FA, 0xE3711CB6564D112D,
      0x20878DCD29CDFAF5, 0x054D3536539948D0)
    ensures Turns(0x3C9EBE0A15C9BEBC, 0x49E2DB8EBDCFBEB5, 0x20878DCD29CDFAF5, 0x358406D165AEE9AB, 0xF15E9664B2803575,
      0x7652C579CB60F19C, 0x054D3536539948D0, 0x8C7B5FD91A794CA0, 0x947C3DFAFEE570EF, 0xAFF62C9665FF80FA,
      0x33D48DABB5521DE2, 0x2BA18245B50DE4CF)
    ensures Turns(0x431D67C49C100D4C, 0x82269D4A883A3D99, 0x33D48DABB5521DE2, 0x20878DCD29CDFAF5, 0x358406D165AEE9AB,
      0xF15E9664B2803575, 0x2BA18245B50DE4CF, 0x054D3536539948D0, 0x8C7B5FD91A794CA0, 0x947C3DFAFEE570EF,
      0xC8960E6BE864B916, 0x995019A6FF3BA3DE)
    ensures Turns(0x4CC5D4BECB3E42B6, 0xFDF53DF3011F362B, 0xC8960E6BE864B916, 0x33D48DABB5521DE2, 0x20878DCD29CDFAF5,
      0x358406D165AEE9AB, 0x995019A6FF3BA3DE, 0x2BA18245B50DE4CF, 0x054D3536539948D0, 0x8C7B5FD91A794CA0,
      0x654EF9ABEC389CA9, 0xCEB9FC3691CE8326)
    ensures Turns(0x597F299CFC657E2A, 0x464AF5671D71C12E, 0x654EF9ABEC389CA9, 0xC8960E6BE864B916, 0x33D48DABB5521DE2,
      0x20878DCD29CDFAF5, 0xCEB9FC3691CE8326, 0x995019A6FF3BA3DE, 0x2BA18245B50DE4CF, 0x054D3536539948D0,
      0xD67806DB8B148677, 0x25C96A7768FB2AA3)
    ensures Turns(0x5FCB6FAB3AD6FAEC, 0xE449B68198EC611C, 0xD67806DB8B148677, 0x654EF9ABEC389CA9, 0xC8960E6BE864B916,
      0x33D48DABB5521DE2, 0x25C96A7768FB2AA3, 0xCEB9FC3691CE8326, 0x995019A6FF3BA3DE, 0x2BA18245B50DE4CF,
      0x10D9C4C4295599F6, 0x9BB4D39778C07F9E)
    ensures Turns(0x6C44198C4A475817, 0x92AEEED1A7BCF7D2, 0x10D9C4C4295599F6, 0xD67806DB8B148677, 0x654EF9ABEC389CA9,
      0xC8960E6BE864B916, 0x9BB4D39778C07F9E, 0x25C96A7768FB2AA3, 0xCEB9FC3691CE8326, 0x995019A6FF3BA3DE,
      0x73A54F399FA4B1B2, 0xD08446AA79693ED7)
  {
  }

  lemma Rounds0(m: seq<Long>)
    requires |m| == 16 && IsBlock(m)
    ensures At(m, 8,
      0x8093D195E0054FA3, 0xC4875B0C7ABC076B, 0xAF573B02403E89CD, 0xB680953951604860, 0x86F67263A0F0EC0A,
      0x5A6C781F54DCC00C, 0x96F60209B6DC35BA, 0x745ACA4A342ED2E2)
  {
    hide At, Turns, K512, Word, IsBlock;
    Begins(m);
    Constants0();
    Words0(m);
    Turns0();
    EveryTurn(m, 0);
    EveryTurn(m, 1);
    EveryTurn(m, 2);
    EveryTurn(m, 3);
    EveryTurn(m, 4);
    EveryTurn(m, 5);
    EveryTurn(m, 6);
    EveryTurn(m, 7);
  }

  lemma Rounds1(m: seq<Long>)
    requires |m| == 16 && IsBlock(m)
    ensures At(m, 16,
      0x0AE07C86B1181C75, 0xFA967EED85A08028, 0x44249631255D2CA0, 0x5E41214388186C14, 0xA77B7C035DD4C161,
      0x874BFE5F6AAE9F2F, 0x860ACF9EFFBA6F61, 0xCDF3BFF2883FC9D9)
  {
    hide At, Turns, K512, Word, IsBlock;
    Rounds0(m);
    Constants1();
    Words1(m);
    Turns1();
    EveryTurn(m, 8);
    EveryTurn(m, 9);
    EveryTurn(m, 10);
    EveryTurn(m, 11);
    EveryTurn(m, 12);
    EveryTurn(m, 13);
    EveryTurn(m, 14);
    EveryTurn(m, 15);
  }

  lemma Rounds2(m: seq<Long>)
    requires |m| == 16 && IsBlock(m)
    ensures At(m, 24,
      0x4F6877B58FE55484, 0x3E2644567B709A78, 0xDA34D6673D452DCF, 0x8DC5AE65569D3855, 0xC66005F87DB55233,
      0x0AC2B11DA8F571C6, 0x8E30FF09AD488753, 0x4BB9E66D1145BFDC)
  {
    hide At, Turns, K512, Word, IsBlock;
    Rounds1(m);
    Constants2();
    Words2(m);
    Turns2();
    EveryTurn(m, 16);
    EveryTurn(m, 17);
    EveryTurn(m, 18);
    EveryTurn(m, 19);
    EveryTurn(m, 20);
    EveryTurn(m, 21);
    EveryTurn(m, 22);
    EveryTurn(m, 23);
  }

  lemma Rounds3(m: seq<Long>)
    requires |m| == 16 && IsBlock(m)
    ensures At(m, 32,
      0xFF4D3F1F0D46A736, 0x4C4FBBB75F1873A6, 0x74BF40F869094C63, 0xE62349090F47D30A, 0x3CD388E119E8162E,
      0x73E025D91B9EFEA3, 0xF0AEC2FE1437F085, 0x0FCDF99710F21584)
  {
    hide At, Turns, K512, Word, IsBlock;
    Rounds2(m);
    Constants3();
    Words3(m);
    Turns3();
    EveryTurn(m, 24);
    EveryTurn(m, 25);
    EveryTurn(m, 26);
    EveryTurn(m, 27);
    EveryTurn(m, 28);
    EveryTurn(m, 29);
    EveryTurn(m, 30);
    EveryTurn(m, 31);
  }

  lemma Rounds4(m: seq<Long>)
    requires |m| == 16 && IsBlock(m)
    ensures At(m, 40,
      0x8E01E125B855D225, 0xB3BB8542B3376DE5, 0x002BB8E4CD989567, 0x88DF85B0BBE77514, 0x0C710A47BA6A567B,
      0xB49596C20FEBA7DE, 0x66ADCFA249AC7BBD, 0x8FBFD0162BBF4675)
  {
    hide At, Turns, K512, Word, IsBlock;
    Rounds3(m);
    Constants4();
    Words4(m);
    Turns4();
    EveryTurn(m, 32);
    EveryTurn(m, 33);
    EveryTurn(m, 34);
    EveryTurn(m, 35);
    EveryTurn(m, 36);
    EveryTurn(m, 37);
    EveryTurn(m, 38);
    EveryTurn(m, 39);
  }

  lemma Rounds5(m: seq<Long>)
    requires |m| == 16 && IsBlock(m)
    ensures At(m, 48,
      0x6B69FC1BB482FEAC, 0xF61E672694DE2D67, 0x021FBADBABAB5AC6, 0xC47C9D5C7EA8A234, 0x35264334C03AC8AD,
      0xC6BC35740D8DAA9A, 0xE95C2A57572D64D9, 0x858D832AE0E8911C)
  {
    hide At, Turns, K512, Word, IsBlock;
    Rounds4(m);
    Constants5();
    Words5(m);
    Turns5();
    EveryTurn(m, 40);
    EveryTurn(m, 41);
    EveryTurn(m, 42);
    EveryTurn(m, 43);
    EveryTurn(m, 44);
    EveryTurn(m, 45);
    EveryTurn(m, 46);
    EveryTurn(m, 47);
  }

  lemma Rounds6(m: seq<Long>)
    requires |m| == 16 && IsBlock(m)
    ensures At(m, 56,
      0x63B460E42748817E, 0xF650857B5BABDA4D, 0xD63F68037DDF06AA, 0x03DF11B32D42E203, 0xC6B4DD2A9931C509,
      0x9CCFB31A86DF0F86, 0xA6781EFE1AA1CE02, 0x504F94E40591CFFA)
  {
    hide At, Turns, K512, Word, IsBlock;
    Rounds5(m);
    Constants6();
    Words6(m);
    Turns6();
    EveryTurn(m, 48);
    EveryTurn(m, 49);
    EveryTurn(m, 50);
    EveryTurn(m, 51);
    EveryTurn(m, 52);
    EveryTurn(m, 53);
    EveryTurn(m, 54);
    EveryTurn(m, 55);
  }

  lemma Rounds7(m: seq<Long>)
    requires |m| == 16 && IsBlock(m)
    ensures At(m, 64,
      0xAB44E86276478D85, 0xA81DEDBB9F19E643, 0xCFCD928C5424E2B6, 0x3857DFD2FC37D3BA, 0xCD881EE59CA6BC53,
      0x84058865D60A05FA, 0x09AEE5BDA1644DE5, 0xA6AF4E9C9F807E51)
  {
    hide At, Turns, K512, Word, IsBlock;
    Rounds6(m);
    Constants7();
    Words7(m);
    Turns7();
    EveryTurn(m, 56);
    EveryTurn(m, 57);
    EveryTurn(m, 58);
    EveryTurn(m, 59);
    EveryTurn(m, 60);
    EveryTurn(m, 61);
    EveryTurn(m, 62);
    EveryTurn(m, 63);
  }

  lemma Rounds8(m: seq<Long>)
    requires |m| == 16 && IsBlock(m)
    ensures At(m, 72,
      0xF15E9664B2803575, 0x7652C579CB60F19C, 0xFB6AAAE5D0B6A447, 0x181839D609C79748, 0x947C3DFAFEE570EF,
      0xAFF62C9665FF80FA, 0xE3711CB6564D112D, 0x0ADA78BA2D446140)
  {
    hide At, Turns, K512, Word, IsBlock;
    Rounds7(m);
    Constants8();
    Words8(m);
    Turns8();
    EveryTurn(m, 64);
    EveryTurn(m, 65);
    EveryTurn(m, 66);
    EveryTurn(m, 67);
    EveryTurn(m, 68);
    EveryTurn(m, 69);
    EveryTurn(m, 70);
    EveryTurn(m, 71);
  }

  lemma Rounds9(m: seq<Long>)
    requires |m| == 16 && IsBlock(m)
    ensures At(m, 80,
      0x73A54F399FA4B1B2, 0x10D9C4C4295599F6, 0xD67806DB8B148677, 0x654EF9ABEC389CA9, 0xD08446AA79693ED7,
      0x9BB4D39778C07F9E, 0x25C96A7768FB2AA3, 0xCEB9FC3691CE8326)
  {
    hide At, Turns, K512, Word, IsBlock;
    Rounds8(m);
    Constants9();
    Words9(m);
    Turns9();
    EveryTurn(m, 72);
    EveryTurn(m, 73);
    EveryTurn(m, 74);
    EveryTurn(m, 75);
    EveryTurn(m, 76);
    EveryTurn(m, 77);
    EveryTurn(m, 78);
    EveryTurn(m, 79);
  }

  // ---------- The digest ----------

  const DIGEST: seq<Long> := [0xDDAF35A193617ABA, 0xCC417349AE204131, 0x12E6FA4E89A97EA2, 0x0A9EEEE64B55D39A,
    0x2192992A274FC1A8, 0x36BA3C23A3FEEBBD, 0x454D4423643CE80E, 0x2A9AC94FA54CA49F]

  lemma Ends(m: seq<Long>)
    requires |m| == 16 && IsBlock(m)
    ensures LFeed(SHA512_INIT, Sha512Rounds(80, m, START)) == DIGEST
  {
    hide IsBlock, LFeed;
    Rounds9(m);
    assert Sha512Rounds(80, m, START) ==
      Regs8(0x73A54F399FA4B1B2, 0x10D9C4C4295599F6, 0xD67806DB8B148677, 0x654EF9ABEC389CA9,
        0xD08446AA79693ED7, 0x9BB4D39778C07F9E, 0x25C96A7768FB2AA3, 0xCEB9FC3691CE8326);
    LastSums();
  }

  lemma LastSums()
    ensures LFeed(SHA512_INIT,
      Regs8(0x73A54F399FA4B1B2, 0x10D9C4C4295599F6, 0xD67806DB8B148677, 0x654EF9ABEC389CA9,
        0xD08446AA79693ED7, 0x9BB4D39778C07F9E, 0x25C96A7768FB2AA3, 0xCEB9FC3691CE8326)) == DIGEST
  {
  }

  lemma Output()
    ensures Sha512Stream.Output(DIGEST) ==
      [0xDD, 0xAF, 0x35, 0xA1, 0x93, 0x61, 0x7A, 0xBA] + [0xCC, 0x41, 0x73, 0x49, 0xAE, 0x20, 0x41, 0x31] +
      [0x12, 0xE6, 0xFA, 0x4E, 0x89, 0xA9, 0x7E, 0xA2] + [0x0A, 0x9E, 0xEE, 0xE6, 0x4B, 0x55, 0xD3, 0x9A] +
      ([0x21, 0x92, 0x99, 0x2A, 0x27, 0x4F, 0xC1, 0xA8] + [0x36, 0xBA, 0x3C, 0x23, 0xA3, 0xFE, 0xEB, 0xBD] +
       [0x45, 0x4D, 0x44, 0x23, 0x64, 0x3C, 0xE8, 0x0E] + [0x2A, 0x9A, 0xC9, 0x4F, 0xA5, 0x4C, 0xA4, 0x9F])
  {
    assert LongBytes(0xDDAF35A193617ABA) ==
      [0xDD, 0xAF, 0x35, 0xA1, 0x93, 0x61, 0x7A, 0xBA];
    assert LongBytes(0xCC417349AE204131) ==
      [0xCC, 0x41, 0x73, 0x49, 0xAE, 0x20, 0x41, 0x31];
    assert LongBytes(0x12E6FA4E89A97EA2) ==
      [0x12, 0xE6, 0xFA, 0x4E, 0x89, 0xA9, 0x7E, 0xA2];
    assert LongBytes(0x0A9EEEE64B55D39A) ==
      [0x0A, 0x9E, 0xEE, 0xE6, 0x4B, 0x55, 0xD3, 0x9A];
    assert LongBytes(0x2192992A274FC1A8) ==
      [0x21, 0x92, 0x99, 0x2A, 0x27, 0x4F, 0xC1, 0xA8];
    assert LongBytes(0x36BA3C23A3FEEBBD) ==
      [0x36, 0xBA, 0x3C, 0x23, 0xA3, 0xFE, 0xEB, 0xBD];
    assert LongBytes(0x454D4423643CE80E) ==
      [0x45, 0x4D, 0x44, 0x23, 0x64, 0x3C, 0xE8, 0x0E];
    assert LongBytes(0x2A9AC94FA54CA49F) ==
      [0x2A, 0x9A, 0xC9, 0x4F, 0xA5, 0x4C, 0xA4, 0x9F];
    hide LongBytes, Sha512Stream.Output;
    EightLongs(0xDDAF35A193617ABA, 0xCC417349AE204131,
      0x12E6FA4E89A97EA2, 0x0A9EEEE64B55D39A,
      0x2192992A274FC1A8, 0x36BA3C23A3FEEBBD,
      0x454D4423643CE80E, 0x2A9AC94FA54CA49F);
  }

  lemma Start()
    ensures START == Regs8(SHA512_INIT[0], SHA512_INIT[1], SHA512_INIT[2], SHA512_INIT[3],
      SHA512_INIT[4], SHA512_INIT[5], SHA512_INIT[6], SHA512_INIT[7])
  {
  }

  // The example of FIPS 180-4.
  lemma AbcDigest()
    ensures Sha512Stream.Digest(ABC) ==
      [0xDD, 0xAF, 0x35, 0xA1, 0x93, 0x61, 0x7A, 0xBA] + [0xCC, 0x41, 0x73, 0x49, 0xAE, 0x20, 0x41, 0x31] +
      [0x12, 0xE6, 0xFA, 0x4E, 0x89, 0xA9, 0x7E, 0xA2] + [0x0A, 0x9E, 0xEE, 0xE6, 0x4B, 0x55, 0xD3, 0x9A] +
      ([0x21, 0x92, 0x99, 0x2A, 0x27, 0x4F, 0xC1, 0xA8] + [0x36, 0xBA, 0x3C, 0x23, 0xA3, 0xFE, 0xEB, 0xBD] +
       [0x45, 0x4D, 0x44, 0x23, 0x64, 0x3C, 0xE8, 0x0E] + [0x2A, 0x9A, 0xC9, 0x4F, 0xA5, 0x4C, 0xA4, 0x9F])
  {
    hide Sha512Rounds, Padded, Sha512Stream.Output, LFeed, LengthField128, IsAbc, START;
    var block := Padded(ABC, 128, LengthField128(3));
    LongBlock();
    FoldBlock(Sha512Stream.Compressor(), SHA512_INIT, block, 128);
    Ends(LongsBE(block));
    Start();
    Output();
  }
}
