/** The SHA-1 digest of "abc", round by round. */
module Sha1Answer {
  import opened Common
  import opened HashCore
  import opened Fips180
  import opened AbcBlock
  import HashStream

  // Register a after t - 4 rounds; the first four are the other registers at the start.
  function A(t: nat): bv32 {
    match t
    case 0 => 0x0F4B87C3 case 1 => 0x40C951D8 case 2 => 0x62EB73FA case 3 => 0xEFCDAB89 case 4 => 0x67452301
    case 5 => 0x0116FC33 case 6 => 0x8990536D case 7 => 0xA1390F08 case 8 => 0xCDD8E11B case 9 => 0xCFD499DE
    case 10 => 0x3FC7CA40 case 11 => 0x993E30C1 case 12 => 0x9E8C07D4 case 13 => 0x4B6AE328 case 14 => 0x8351F929
    case 15 => 0xFBDA9E89 case 16 => 0x63188FE4 case 17 => 0x4607B664 case 18 => 0x9128F695 case 19 => 0x196BEE77
    case 20 => 0x20BDD62F case 21 => 0x4E925823 case 22 => 0x82AA6728 case 23 => 0xDC64901D case 24 => 0xFD9E1D7D
    case 25 => 0x1A37B0CA case 26 => 0x33A23BFC case 27 => 0x21283486 case 28 => 0xD541F12D case 29 => 0xC7567DC6
    case 30 => 0x48413BA4 case 31 => 0xBE35FBD5 case 32 => 0x4AA84D97 case 33 => 0x8370B52E case 34 => 0xC5FBAF5D
    case 35 => 0x1267B407 case 36 => 0x3B845D33 case 37 => 0x046FAA0A case 38 => 0x2C0EBC11 case 39 => 0x21796AD4
    case 40 => 0xDCBBB0CB case 41 => 0x0F511FD8 case 42 => 0xDC63973F case 43 => 0x4C986405 case 44 => 0x32DE1CBA
    case 45 => 0xFC87DEDF case 46 => 0x970A0D5C case 47 => 0x7F193DC5 case 48 => 0xEE1B1AAF case 49 => 0x40F28E09
    case 50 => 0x1C51E1F2 case 51 => 0xA01B846C case 52 => 0xBEAD02CA case 53 => 0xBAF39337 case 54 => 0x120731C5
    case 55 => 0x641DB2CE case 56 => 0x3847AD66 case 57 => 0xE490436D case 58 => 0x27E9F1D8 case 59 => 0x7B71F76D
    case 60 => 0x5E6456AF case 61 => 0xC846093F case 62 => 0xD262FF50 case 63 => 0x09D785FD case 64 => 0x3F52DE5A
    case 65 => 0xD756C147 case 66 => 0x548C9CB2 case 67 => 0xB66C020B case 68 => 0x6B61C9E1 case 69 => 0x19DFA7AC
    case 70 => 0x101655F9 case 71 => 0x0C3DF2B4 case 72 => 0x78DD4D2B case 73 => 0x497093C0 case 74 => 0x3F2588C2
    case 75 => 0xC199F8C7 case 76 => 0x39859DE7 case 77 => 0xEDB42DE4 case 78 => 0x11793F6F case 79 => 0x5EE76897
    case 80 => 0x63F7DAB7 case 81 => 0xA079B7D9 case 82 => 0x860D21CC case 83 => 0x5738D5E1 case _ => 0x42541B35
  }

  // The message schedule.
  function W(t: nat): bv32 {
    match t
    case 0 => 0x61626380 case 1 => 0x00000000 case 2 => 0x00000000 case 3 => 0x00000000 case 4 => 0x00000000
    case 5 => 0x00000000 case 6 => 0x00000000 case 7 => 0x00000000 case 8 => 0x00000000 case 9 => 0x00000000
    case 10 => 0x00000000 case 11 => 0x00000000 case 12 => 0x00000000 case 13 => 0x00000000 case 14 => 0x00000000
    case 15 => 0x00000018 case 16 => 0xC2C4C700 case 17 => 0x00000000 case 18 => 0x00000030 case 19 => 0x85898E01
    case 20 => 0x00000000 case 21 => 0x00000060 case 22 => 0x0B131C03 case 23 => 0x00000030 case 24 => 0x85898EC1
    case 25 => 0x16263806 case 26 => 0x00000000 case 27 => 0x00000180 case 28 => 0x2C4C700C case 29 => 0x000000F0
    case 30 => 0x93AFB507 case 31 => 0x5898E048 case 32 => 0x8E9A9202 case 33 => 0x00000600 case 34 => 0xB131C0F0
    case 35 => 0x16263BC6 case 36 => 0x4EBED41E case 37 => 0x626380A1 case 38 => 0x16263806 case 39 => 0x000018C0
    case 40 => 0xD2E138C4 case 41 => 0x00000F00 case 42 => 0x3AFB5079 case 43 => 0x898E04E5 case 44 => 0xE2BA3C2B
    case 45 => 0x000060C0 case 46 => 0x053A37CD case 47 => 0x74458547 case 48 => 0xDA9415ED case 49 => 0x26380A16
    case 50 => 0x626383A1 case 51 => 0x4EBF54DE case 52 => 0x3835B44B case 53 => 0x0000F600 case 54 => 0x1E84C7A3
    case 55 => 0x98E04D98 case 56 => 0x651D16A0 case 57 => 0x62658CA1 case 58 => 0x458544D6 case 59 => 0x44584CB7
    case 60 => 0x7BA06619 case 61 => 0x6380AEA2 case 62 => 0x0AE55269 case 63 => 0x627B49A1 case 64 => 0x7CD45C9D
    case 65 => 0x000F0000 case 66 => 0xFB50753A case 67 => 0xEC6765E8 case 68 => 0xBA3C2BE2 case 69 => 0x0060C000
    case 70 => 0x3A37CD05 case 71 => 0x458546F4 case 72 => 0xB8599DD6 case 73 => 0x380A1A26 case 74 => 0x01E02203
    case 75 => 0xE7CC3456 case 76 => 0xE6E60B69 case 77 => 0x00F60A00 case 78 => 0x5795EF4F case _ => 0x822E0879
  }

  // The registers after t rounds.
  function After(t: nat): Regs5 {
    Regs5(A(t + 4), A(t + 3), Rotl(A(t + 2), 30), Rotl(A(t + 1), 30), Rotl(A(t), 30))
  }

  predicate Goes(t: nat)
    requires t < 80
  {
    Sha1Round(t, W(t), After(t)).a == A(t + 5)
  }

  lemma Goes0(t: nat) requires 0 <= t < 5 ensures Goes(t) { }
  lemma Goes1(t: nat) requires 5 <= t < 10 ensures Goes(t) { }
  lemma Goes2(t: nat) requires 10 <= t < 15 ensures Goes(t) { }
  lemma Goes3(t: nat) requires 15 <= t < 20 ensures Goes(t) { }
  lemma Goes4(t: nat) requires 20 <= t < 25 ensures Goes(t) { }
  lemma Goes5(t: nat) requires 25 <= t < 30 ensures Goes(t) { }
  lemma Goes6(t: nat) requires 30 <= t < 35 ensures Goes(t) { }
  lemma Goes7(t: nat) requires 35 <= t < 40 ensures Goes(t) { }
  lemma Goes8(t: nat) requires 40 <= t < 45 ensures Goes(t) { }
  lemma Goes9(t: nat) requires 45 <= t < 50 ensures Goes(t) { }
  lemma Goes10(t: nat) requires 50 <= t < 55 ensures Goes(t) { }
  lemma Goes11(t: nat) requires 55 <= t < 60 ensures Goes(t) { }
  lemma Goes12(t: nat) requires 60 <= t < 65 ensures Goes(t) { }
  lemma Goes13(t: nat) requires 65 <= t < 70 ensures Goes(t) { }
  lemma Goes14(t: nat) requires 70 <= t < 75 ensures Goes(t) { }
  lemma Goes15(t: nat) requires 75 <= t < 80 ensures Goes(t) { }

  lemma AllGo(t: nat)
    requires t < 80
    ensures Goes(t)
  {
    hide Goes;
    match t / 5
    case 0 => Goes0(t); case 1 => Goes1(t); case 2 => Goes2(t); case 3 => Goes3(t); case 4 => Goes4(t);
    case 5 => Goes5(t); case 6 => Goes6(t); case 7 => Goes7(t); case 8 => Goes8(t); case 9 => Goes9(t);
    case 10 => Goes10(t); case 11 => Goes11(t); case 12 => Goes12(t); case 13 => Goes13(t); case 14 => Goes14(t);
    case _ => Goes15(t);
  }

  lemma RoundGoes(t: nat)
    requires t < 80
    ensures Sha1Round(t, W(t), After(t)) == After(t + 1)
  {
    AllGo(t);
    hide A, W, Rotl, Sha1F, Sha1K, Add;
  }

  predicate Scheduled(t: nat)
    requires 16 <= t
  {
    Sha1Mix(W(t - 3), W(t - 8), W(t - 14), W(t - 16)) == W(t)
  }

  lemma Scheduled0(t: nat) requires 16 <= t < 24 ensures Scheduled(t) { }
  lemma Scheduled1(t: nat) requires 24 <= t < 32 ensures Scheduled(t) { }
  lemma Scheduled2(t: nat) requires 32 <= t < 40 ensures Scheduled(t) { }
  lemma Scheduled3(t: nat) requires 40 <= t < 48 ensures Scheduled(t) { }
  lemma Scheduled4(t: nat) requires 48 <= t < 56 ensures Scheduled(t) { }
  lemma Scheduled5(t: nat) requires 56 <= t < 64 ensures Scheduled(t) { }
  lemma Scheduled6(t: nat) requires 64 <= t < 72 ensures Scheduled(t) { }
  lemma Scheduled7(t: nat) requires 72 <= t < 80 ensures Scheduled(t) { }

  lemma AllScheduled(t: nat)
    requires 16 <= t < 80
    ensures Scheduled(t)
  {
    hide Scheduled;
    match t / 8
    case 2 => Scheduled0(t); case 3 => Scheduled1(t); case 4 => Scheduled2(t); case 5 => Scheduled3(t);
    case 6 => Scheduled4(t); case 7 => Scheduled5(t); case 8 => Scheduled6(t); case _ => Scheduled7(t);
  }

  lemma FirstWords(m: seq<bv32>, t: nat)
    requires IsAbc(m, 0x61626380, 0, 15, 0x18) && t < 16
    ensures m[t] == W(t)
  {
  }

  lemma {:induction false} Schedule(m: seq<bv32>, t: nat)
    requires IsAbc(m, 0x61626380, 0, 15, 0x18) && t < 80
    ensures Sha1W(m, t) == W(t)
  {
    hide W, Sha1Mix;
    if t < 16 {
      FirstWords(m, t);
    } else {
      AllScheduled(t);
      Schedule(m, t - 3);
      Schedule(m, t - 8);
      Schedule(m, t - 14);
      Schedule(m, t - 16);
    }
  }

  lemma {:induction false} RoundsGo(m: seq<bv32>, n: nat)
    requires IsAbc(m, 0x61626380, 0, 15, 0x18) && n <= 80
    ensures Sha1Rounds(n, m, After(0)) == After(n)
  {
    hide After, W, Sha1Round, Sha1W;
    if n > 0 {
      RoundsGo(m, n - 1);
      Schedule(m, n - 1);
      RoundGoes(n - 1);
    }
  }

  const DIGEST: seq<bv32> := [0xA9993E36, 0x4706816A, 0xBA3E2571, 0x7850C26C,
    0x9CD0D89D]

  lemma Starts()
    ensures |SHA1_INIT| == |DIGEST|
    ensures var h := SHA1_INIT; After(0) == Regs5(h[0], h[1], h[2], h[3], h[4])
  {
  }

  lemma Ends()
    ensures |SHA1_INIT| == |DIGEST|
    ensures var h, r := SHA1_INIT, After(80);
      [Add(h[0], r.a), Add(h[1], r.b), Add(h[2], r.c), Add(h[3], r.d), Add(h[4], r.e)] == DIGEST
  {
  }

  lemma Output()
    ensures OutputBE(DIGEST) ==
      [0xA9, 0x99, 0x3E, 0x36] + [0x47, 0x06, 0x81, 0x6A] + [0xBA, 0x3E, 0x25, 0x71] + [0x78, 0x50, 0xC2, 0x6C] +
      [0x9C, 0xD0, 0xD8, 0x9D]
  {
    assert BytesBE(0xA9993E36) == [0xA9, 0x99, 0x3E, 0x36];
    assert BytesBE(0x4706816A) == [0x47, 0x06, 0x81, 0x6A];
    assert BytesBE(0xBA3E2571) == [0xBA, 0x3E, 0x25, 0x71];
    assert BytesBE(0x7850C26C) == [0x78, 0x50, 0xC2, 0x6C];
    assert BytesBE(0x9CD0D89D) == [0x9C, 0xD0, 0xD8, 0x9D];
    hide BytesBE, OutputBE;
    FourBE(0xA9993E36, 0x4706816A, 0xBA3E2571, 0x7850C26C, [0x9CD0D89D]);
    assert [0xA9993E36, 0x4706816A, 0xBA3E2571, 0x7850C26C] +
      [0x9CD0D89D] == DIGEST;
    MoreBE(0x9CD0D89D, []);
    assert [0x9CD0D89D] + [] == [0x9CD0D89D];
    NoOutput([0x9C, 0xD0, 0xD8, 0x9D]);
  }

  // The example of FIPS 180-4.
  lemma AbcDigest()
    ensures HashStream.Digest(HashStream.Sha1, ABC) ==
      [0xA9, 0x99, 0x3E, 0x36] + [0x47, 0x06, 0x81, 0x6A] + [0xBA, 0x3E, 0x25, 0x71] + [0x78, 0x50, 0xC2, 0x6C] +
      [0x9C, 0xD0, 0xD8, 0x9D]
  {
    hide After, Sha1Rounds, IsAbc, Padded, OutputBE, Add, LengthField64;
    var block := Padded(ABC, 64, LengthField64(3));
    BlockBE();
    FoldBlock(HashStream.Compressor(HashStream.Sha1), SHA1_INIT, block, 64);
    Starts();
    RoundsGo(WordsBE(block), 80);
    Ends();
    Output();
  }
}
