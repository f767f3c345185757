/** The block functions of hash_md5_sha.c: loops over registers and schedule arrays, each proved
    to compute the compression function of its standard. */
module HashBlocks {
  import opened Common
  import opened HashCore
  import opened Md5Rounds
  import opened Rfc1321
  import opened Fips180

  // ---------- MD5, the table-driven loop ----------

  // The rows of P_array, one for each round.
  function PRow(round: nat): (row: seq<nat>)
    ensures |row| == 16
  {
    match round
    case 0 => [0, 1, 2, 3, 4, 5, 6, 7, 8, 9, 10, 11, 12, 13, 14, 15]
    case 1 => [1, 6, 11, 0, 5, 10, 15, 4, 9, 14, 3, 8, 13, 2, 7, 12]
    case 2 => [5, 8, 11, 14, 1, 4, 7, 10, 13, 0, 3, 6, 9, 12, 15, 2]
    case _ => [0, 7, 14, 5, 12, 3, 10, 1, 8, 15, 6, 13, 4, 11, 2, 9]
  }

  function PArray(i: nat): nat
    requires i < 64
  {
    PRow(i / 16)[i % 16]
  }

  // The permutation table lists the word indices of section 3.4 of RFC 1321.
  lemma PArrayIsWordIndex(i: nat)
    requires i < 64
    ensures PArray(i) == WordIndex(i)
  {
    hide PRow;
    var j := i % 16;
    PRow0(j);
    PRow1(j);
    PRow2(j);
    PRow3(j);
    assert i == 16 * (i / 16) + j;
    Multiples(i / 16, j);
  }

  // Sixteen more does not change the word index within a round.
  lemma Multiples(q: nat, j: nat)
    ensures (5 * (16 * q + j) + 1) % 16 == (5 * j + 1) % 16
    ensures (3 * (16 * q + j) + 5) % 16 == (3 * j + 5) % 16
    ensures 7 * (16 * q + j) % 16 == 7 * j % 16
  {
    Sixteens(5 * q, 5 * j + 1);
    Sixteens(3 * q, 3 * j + 5);
    Sixteens(7 * q, 7 * j);
    assert 5 * (16 * q + j) + 1 == 16 * (5 * q) + (5 * j + 1);
    assert 3 * (16 * q + j) + 5 == 16 * (3 * q) + (3 * j + 5);
    assert 7 * (16 * q + j) == 16 * (7 * q) + 7 * j;
  }

  lemma Sixteens(k: nat, x: nat)
    ensures (16 * k + x) % 16 == x % 16
  {
  }

  lemma PRow0(j: nat)
    requires j < 16
    ensures PRow(0)[j] == j
  {
  }

  lemma PRow1(j: nat)
    requires j < 16
    ensures PRow(1)[j] == (5 * j + 1) % 16
  {
  }

  lemma PRow2(j: nat)
    requires j < 16
    ensures PRow(2)[j] == (3 * j + 5) % 16
  {
  }

  lemma PRow3(j: nat)
    requires j < 16
    ensures PRow(3)[j] == 7 * j % 16
  {
  }

  // One turn of the loop: mix, word and constant added, rotated, and b added.
  function LoopTurn(i: nat, words: seq<bv32>, a: bv32, b: bv32, c: bv32, d: bv32): bv32
    requires i < 64 && |words| == 16
  {
    PArrayIsWordIndex(i);
    Add(Rotl(Add(Add(a, MixFF(i / 16, b, c, d)), Add(words[PArray(i)], T(i))), Shift(i)), b)
  }

  lemma LoopTurnIsOperation(i: nat, words: seq<bv32>, a: bv32, b: bv32, c: bv32, d: bv32)
    requires i < 64 && |words| == 16
    ensures LoopTurn(i, words, a, b, c, d) == Operation(i, words, a, b, c, d)
  {
    hide MixFF, Mix, Rotl, T, PArray, WordIndex, Shift, Add;
    MixFFIsMix(i, b, c, d);
    PArrayIsWordIndex(i);
    var mixed := Mix(i, b, c, d);
    AddAssociates(Add(a, mixed), words[WordIndex(i)], T(i));
    AddCommutes(b, Rotl(Add(Add(a, mixed), Add(words[WordIndex(i)], T(i))), Shift(i)));
  }

  // md5_process_block64 as the fastest variant writes it.
  method Md5ProcessBlock64(h: seq<bv32>, words: seq<bv32>) returns (h': seq<bv32>)
    requires |h| == 4 && |words| == 16
    ensures h' == CompressWords(h, words)
  {
    h' := Unrolled(Op, h, words);
  }

  // And as the smallest writes it.
  method Md5ProcessBlock64Small(h: seq<bv32>, words: seq<bv32>) returns (h': seq<bv32>)
    requires |h| == 4 && |words| == 16
    ensures h' == CompressWords(h, words)
  {
    hide LoopTurn, Operation, Add;
    var a, b, c, d := h[0], h[1], h[2], h[3];
    ghost var r := Regs(a, b, c, d);
    for i := 0 to 64
      invariant Regs(a, b, c, d) == Steps(i, words, r)
    {
      var temp := LoopTurn(i, words, a, b, c, d);
      LoopTurnIsOperation(i, words, a, b, c, d);
      a := d;
      d := c;
      c := b;
      b := temp;
    }
    h' := [Add(h[0], a), Add(h[1], b), Add(h[2], c), Add(h[3], d)];
  }

  // ---------- SHA-1, the 16-word circular schedule kept twice ----------

  lemma ChooseBits(b: bv32, c: bv32, d: bv32)
    ensures ((c ^ d) & b) ^ d == (b & c) ^ (!b & d)
  {
  }

  lemma MajorityBits(b: bv32, c: bv32, d: bv32)
    ensures ((b | c) & d) | (b & c) == (b & c) ^ (b & d) ^ (c & d)
  {
  }

  lemma ParityBits(b: bv32, c: bv32, d: bv32)
    ensures (c ^ d) ^ b == b ^ c ^ d
  {
  }

  // The value of work before the schedule word is added, in round group i.
  function WorkBits(i: nat, b: bv32, c: bv32, d: bv32): bv32 {
    if i == 0 then ((c ^ d) & b) ^ d
    else if i == 2 then ((b | c) & d) | (b & c)
    else (c ^ d) ^ b
  }

  lemma WorkIsCh(b: bv32, c: bv32, d: bv32)
    ensures WorkBits(0, b, c, d) == Ch(b, c, d)
  {
    ChooseBits(b, c, d);
  }

  lemma WorkIsMaj(b: bv32, c: bv32, d: bv32)
    ensures WorkBits(2, b, c, d) == Maj(b, c, d)
  {
    MajorityBits(b, c, d);
  }

  lemma WorkIsParity(i: nat, b: bv32, c: bv32, d: bv32)
    requires i == 1 || i == 3
    ensures WorkBits(i, b, c, d) == Parity(b, c, d)
  {
    ParityBits(b, c, d);
  }

  lemma WorkBitsIsF(i: nat, t: nat, b: bv32, c: bv32, d: bv32)
    requires i == t / 20 && t < 80
    ensures WorkBits(i, b, c, d) == Sha1F(t, b, c, d)
  {
    hide WorkBits, Ch, Maj, Parity;
    WorkIsCh(b, c, d);
    WorkIsMaj(b, c, d);
    WorkIsParity(1, b, c, d);
    WorkIsParity(3, b, c, d);
  }

  // The last word before step t of the schedule that lives in slot q.
  function Latest(t: nat, q: nat): nat
    requires q < 16
  {
    if t <= 16 then q else if q < t % 16 then t - t % 16 + q else t - t % 16 + q - 16
  }

  ghost predicate Slot(w: seq<bv32>, m: seq<bv32>, t: nat, q: nat)
    requires |w| == 32 && |m| == 16 && q < 16
  {
    w[q] == Sha1W(m, Latest(t, q)) && w[q + 16] == w[q]
  }

  // Both halves of W hold, slot by slot, the last 16 words of the schedule.
  ghost predicate Mirrored(w: seq<bv32>, m: seq<bv32>, t: nat)
    requires |w| == 32 && |m| == 16
  {
    forall q: nat | q < 16 :: Slot(w, m, t, q)
  }

  // From slot cnt on, W reads like the schedule 16 steps back.
  lemma WindowReads(w: seq<bv32>, m: seq<bv32>, t: nat, back: nat)
    requires |w| == 32 && |m| == 16 && Mirrored(w, m, t) && 16 <= t && 0 < back <= 16
    ensures w[t % 16 + 16 - back] == Sha1W(m, t - back)
  {
    hide Sha1W;
    var p := t % 16 + 16 - back;
    var q := if p < 16 then p else p - 16;
    assert Slot(w, m, t, q);
    assert Latest(t, q) == t - back;
  }

  lemma MirroredStep(w: seq<bv32>, w': seq<bv32>, m: seq<bv32>, t: nat)
    requires |w| == 32 && |m| == 16 && Mirrored(w, m, t) && 16 <= t
    requires w' == w[t % 16 := Sha1W(m, t)][t % 16 + 16 := Sha1W(m, t)]
    ensures Mirrored(w', m, t + 1)
  {
    hide Sha1W;
    var next := t + 1;
    forall q: nat | q < 16
      ensures Slot(w', m, next, q)
    {
      assert Slot(w, m, t, q);
      LatestStep(t, q);
    }
  }

  lemma LatestStep(t: nat, q: nat)
    requires q < 16 <= t
    ensures Latest(t + 1, q) == if q == t % 16 then t else Latest(t, q)
  {
  }

  // The first 16 steps read the block words and leave W alone.
  lemma MirroredStart(w: seq<bv32>, m: seq<bv32>, t: nat)
    requires |w| == 32 && |m| == 16 && t < 16 && Mirrored(w, m, t)
    ensures w[t] == Sha1W(m, t) && Mirrored(w, m, t + 1)
  {
    hide Sha1W;
    assert Slot(w, m, t, t);
    var next := t + 1;
    forall q: nat | q < 16
      ensures Slot(w, m, next, q)
    {
      assert Slot(w, m, t, q);
    }
  }

  function RConst(i: nat): bv32 {
    match i case 0 => 0x5A827999 case 1 => 0x6ED9EBA1 case 2 => 0x8F1BBCDC case _ => 0xCA62C1D6
  }

  // The order in which the loop adds up work, against the order of the standard.
  lemma WorkSum(f: bv32, w: bv32, e: bv32, ra: bv32, k: bv32)
    ensures Add(Add(f, w), Add(Add(e, ra), k)) == Add(Add(Add(Add(ra, f), e), k), w)
  {
    hide Add;
    var x := Add(Add(e, ra), k);
    AddCommutes(f, w);
    AddAssociates(w, f, x);
    AddCommutes(w, Add(Add(Add(ra, f), e), k));
    AddAssociates(f, Add(e, ra), k);
    AddCommutes(e, ra);
    AddAssociates(f, ra, e);
    AddCommutes(f, ra);
  }

  lemma LaterWord(m: seq<bv32>, t: nat)
    requires |m| == 16 <= t
    ensures Sha1W(m, t) == Sha1Mix(Sha1W(m, t - 3), Sha1W(m, t - 8), Sha1W(m, t - 14), Sha1W(m, t - 16))
  {
  }

  lemma WindowWord(w: seq<bv32>, m: seq<bv32>, t: nat, cnt: nat)
    requires |w| == 32 && |m| == 16 && Mirrored(w, m, t) && 16 <= t && cnt == t % 16
    ensures Sha1Mix(w[cnt + 13], w[cnt + 8], w[cnt + 2], w[cnt]) == Sha1W(m, t)
  {
    hide Sha1Mix, Sha1W, Mirrored;
    LaterWord(m, t);
    WindowReads(w, m, t, 3);
    WindowReads(w, m, t, 8);
    WindowReads(w, m, t, 14);
    WindowReads(w, m, t, 16);
  }

  // The schedule word of step t, computed into both halves of W.
  method ScheduleWord(w: array<bv32>, ghost m: seq<bv32>, ghost t: nat, cnt: nat) returns (word: bv32)
    requires |m| == 16 && w.Length == 32 && cnt == t % 16 && 16 <= t && Mirrored(w[..], m, t)
    modifies w
    ensures word == Sha1W(m, t) && Mirrored(w[..], m, t + 1)
  {
    hide Sha1Mix, Sha1W, Mirrored;
    ghost var before := w[..];
    WindowWord(before, m, t, cnt);
    word := Sha1Mix(w[cnt + 13], w[cnt + 8], w[cnt + 2], w[cnt]);
    w[cnt + 16] := word;
    w[cnt] := word;
    assert w[..] == before[cnt := word][cnt + 16 := word];
    MirroredStep(before, w[..], m, t);
  }

  // The word and the new registers of one pass of the inner loop.
  method Sha1Pass(w: array<bv32>, ghost m: seq<bv32>, i: nat, j: nat, cnt: nat, r: Regs5) returns (r': Regs5)
    requires |m| == 16 && w.Length == 32 && i < 4 && j <= 19
    requires cnt == (20 * i + 19 - j) % 16 && Mirrored(w[..], m, 20 * i + 19 - j)
    modifies w
    ensures Mirrored(w[..], m, 20 * i + 20 - j)
    ensures r' == Sha1Round(20 * i + 19 - j, Sha1W(m, 20 * i + 19 - j), r)
  {
    hide Sha1W, Mirrored, Sha1Round, Rotl, WorkTurn;
    ghost var t := 20 * i + 19 - j;
    var word;
    if i == 0 && j > 3 {
      MirroredStart(w[..], m, t);
      word := w[cnt];
    } else {
      word := ScheduleWord(w, m, t, cnt);
    }
    WorkTurnIsRound(i, t, word, r);
    var work := WorkTurn(i, word, r.a, r.b, r.c, r.d, r.e);
    r' := Regs5(work, r.a, Rotl(r.b, 30), r.c, r.d);
  }

  method Sha1ProcessBlock64(h: seq<bv32>, wbuffer: Bytes) returns (h': seq<bv32>)
    requires |h| == 5 && |wbuffer| == 64
    ensures h' == Sha1Compress(h, wbuffer)
  {
    hide Add, Sha1Round, Sha1Rounds, Sha1W, Mirrored, WordsBE;
    ghost var m := WordsBE(wbuffer);
    var w := new bv32[32];
    LoadTwice(w, wbuffer);
    var a, b, c, d, e := h[0], h[1], h[2], h[3], h[4];
    ghost var r := Regs5(a, b, c, d, e);
    var cnt := 0;
    ghost var t := 0;
    NoSha1Rounds(m, r);
    for i := 0 to 4
      invariant t == 20 * i && cnt == t % 16 && Mirrored(w[..], m, t)
      invariant Regs5(a, b, c, d, e) == Sha1Rounds(t, m, r)
    {
      var j := 19;
      while j >= 0
        invariant -1 <= j <= 19 && t == 20 * i + 19 - j
        invariant cnt == t % 16 && Mirrored(w[..], m, t)
        invariant Regs5(a, b, c, d, e) == Sha1Rounds(t, m, r)
        decreases j
      {
        var next := Sha1Pass(w, m, i, j, cnt, Regs5(a, b, c, d, e));
        OneMoreSha1Round(t, m, r);
        a, b, c, d, e := next.a, next.b, next.c, next.d, next.e;
        NextSlot(t);
        t := t + 1;
        cnt := (cnt + 1) % 16;
        j := j - 1;
      }
    }
    h' := [Add(h[0], a), Add(h[1], b), Add(h[2], c), Add(h[3], d), Add(h[4], e)];
  }

  lemma NextSlot(t: nat)
    ensures (t % 16 + 1) % 16 == (t + 1) % 16
  {
  }

  lemma NoSha1Rounds(m: seq<bv32>, r: Regs5)
    requires |m| == 16
    ensures Sha1Rounds(0, m, r) == r
  {
  }

  lemma OneMoreSha1Round(t: nat, m: seq<bv32>, r: Regs5)
    requires |m| == 16
    ensures Sha1Rounds(t + 1, m, r) == Sha1Round(t, Sha1W(m, t), Sha1Rounds(t, m, r))
  {
  }

  method LoadTwice(w: array<bv32>, wbuffer: Bytes)
    requires w.Length == 32 && |wbuffer| == 64
    modifies w
    ensures Mirrored(w[..], WordsBE(wbuffer), 0)
  {
    hide Pack, Sha1W;
    ghost var m := WordsBE(wbuffer);
    for i := 0 to 16
      invariant w[..i] == m[..i] && w[16..16 + i] == m[..i]
    {
      w[i + 16] := WordBE(wbuffer, i);
      w[i] := w[i + 16];
    }
    assert w[..][..16] == m && w[..][16..] == m;
    MirroredInit(w[..], m);
  }

  // The final value of work in one pass.
  function WorkTurn(i: nat, word: bv32, a: bv32, b: bv32, c: bv32, d: bv32, e: bv32): bv32 {
    Add(Add(WorkBits(i, b, c, d), word), Add(Add(e, Rotl(a, 5)), RConst(i)))
  }

  lemma WorkTurnIsRound(i: nat, t: nat, word: bv32, r: Regs5)
    requires i == t / 20 && t < 80
    ensures Regs5(WorkTurn(i, word, r.a, r.b, r.c, r.d, r.e), r.a, Rotl(r.b, 30), r.c, r.d) == Sha1Round(t, word, r)
  {
    hide Add, Rotl, Sha1F, Sha1K, WorkBits, RConst;
    WorkBitsIsF(i, t, r.b, r.c, r.d);
    RConstIsK(i, t);
    WorkSum(WorkBits(i, r.b, r.c, r.d), word, r.e, Rotl(r.a, 5), RConst(i));
  }

  lemma RConstIsK(i: nat, t: nat)
    requires i == t / 20 && t < 80
    ensures RConst(i) == Sha1K(t)
  {
  }

  lemma MirroredInit(w: seq<bv32>, m: seq<bv32>)
    requires |w| == 32 && |m| == 16
    requires w[..16] == m && w[16..] == m
    ensures Mirrored(w, m, 0)
  {
    forall q: nat | q < 16
      ensures Slot(w, m, 0, q)
    {
      assert w[..16][q] == m[q] && w[16..][q] == m[q];
    }
  }

  // ---------- SHA-256 ----------

  method Sha256ProcessBlock64(h: seq<bv32>, wbuffer: Bytes) returns (h': seq<bv32>)
    requires |h| == 8 && |wbuffer| == 64
    ensures h' == Sha256Compress(h, wbuffer)
  {
    hide Feed, Sha256W, Sha256Mix, Sha256Round, WordsBE, K256, K512;
    ghost var m := WordsBE(wbuffer);
    var w := new bv32[64];
    for t := 0 to 16
      invariant forall q | 0 <= q < t :: w[q] == Sha256W(m, q)
    {
      WordOf256(wbuffer, t);
      Sha256WStep(m, t);
      w[t] := WordBE(wbuffer, t);
    }
    for t := 16 to 64
      invariant forall q | 0 <= q < t :: w[q] == Sha256W(m, q)
    {
      Sha256WStep(m, t);
      w[t] := Sha256Mix(w[t - 2], w[t - 7], w[t - 15], w[t - 16]);
    }
    var r := Regs8(h[0], h[1], h[2], h[3], h[4], h[5], h[6], h[7]);
    ghost var start := r;
    for t := 0 to 64
      invariant forall q | 0 <= q < 64 :: w[q] == Sha256W(m, q)
      invariant r == Sha256Rounds(t, m, start)
    {
      K256IsUpperHalf(t);
      var kt := (K512(t) >> 32) as bv32;
      r := Sha256Round(kt, w[t], r);
    }
    h' := Feed(h, r);
  }

  lemma Sha256WStep(m: seq<bv32>, t: nat)
    requires |m| == 16
    ensures Sha256W(m, t) == if t < 16 then m[t] else
      Sha256Mix(Sha256W(m, t - 2), Sha256W(m, t - 7), Sha256W(m, t - 15), Sha256W(m, t - 16))
  {
  }

  lemma WordOf256(b: Bytes, t: nat)
    requires |b| == 64 && t < 16
    ensures WordsBE(b)[t] == WordBE(b, t)
  {
  }

  // The SHA-256 constants are the upper halves of the first 64 of the SHA-512 constants.
  lemma K256IsUpperHalf(t: nat)
    requires t < 64
    ensures K256(t) == (K512(t) >> 32) as bv32
  {
    hide K256Row, K512Row;
    match t / 8
    case 0 => UpperHalfRow0(t % 8);
    case 1 => UpperHalfRow1(t % 8);
    case 2 => UpperHalfRow2(t % 8);
    case 3 => UpperHalfRow3(t % 8);
    case 4 => UpperHalfRow4(t % 8);
    case 5 => UpperHalfRow5(t % 8);
    case 6 => UpperHalfRow6(t % 8);
    case _ => UpperHalfRow7(t % 8);
  }

  lemma UpperHalfRow0(j: nat)
    requires j < 8
    ensures K256Row(0)[j] == (K512Row(0)[j] >> 32) as bv32
  {
  }

  lemma UpperHalfRow1(j: nat)
    requires j < 8
    ensures K256Row(1)[j] == (K512Row(1)[j] >> 32) as bv32
  {
  }

  lemma UpperHalfRow2(j: nat)
    requires j < 8
    ensures K256Row(2)[j] == (K512Row(2)[j] >> 32) as bv32
  {
  }

  lemma UpperHalfRow3(j: nat)
    requires j < 8
    ensures K256Row(3)[j] == (K512Row(3)[j] >> 32) as bv32
  {
  }

  lemma UpperHalfRow4(j: nat)
    requires j < 8
    ensures K256Row(4)[j] == (K512Row(4)[j] >> 32) as bv32
  {
  }

  lemma UpperHalfRow5(j: nat)
    requires j < 8
    ensures K256Row(5)[j] == (K512Row(5)[j] >> 32) as bv32
  {
  }

  lemma UpperHalfRow6(j: nat)
    requires j < 8
    ensures K256Row(6)[j] == (K512Row(6)[j] >> 32) as bv32
  {
  }

  lemma UpperHalfRow7(j: nat)
    requires j < 8
    ensures K256Row(7)[j] == (K512Row(7)[j] >> 32) as bv32
  {
  }

  // ---------- SHA-512 ----------

  method Sha512ProcessBlock128(h: seq<bv64>, wbuffer: Bytes) returns (h': seq<bv64>)
    requires |h| == 8 && |wbuffer| == 128
    ensures h' == Sha512Compress(h, wbuffer)
  {
    hide LFeed, Sha512W, Sha512Mix, Sha512Round, LongsBE, K512;
    ghost var m := LongsBE(wbuffer);
    var w := new bv64[80];
    for t := 0 to 16
      invariant forall q | 0 <= q < t :: w[q] == Sha512W(m, q)
    {
      WordOf512(wbuffer, t);
      Sha512WStep(m, t);
      w[t] := LongBE(wbuffer, t);
    }
    for t := 16 to 80
      invariant forall q | 0 <= q < t :: w[q] == Sha512W(m, q)
    {
      Sha512WStep(m, t);
      w[t] := Sha512Mix(w[t - 2], w[t - 7], w[t - 15], w[t - 16]);
    }
    var r := Regs8(h[0], h[1], h[2], h[3], h[4], h[5], h[6], h[7]);
    ghost var start := r;
    for t := 0 to 80
      invariant forall q | 0 <= q < 80 :: w[q] == Sha512W(m, q)
      invariant r == Sha512Rounds(t, m, start)
    {

      r := Sha512Round(K512(t), w[t], r);
    }
    h' := LFeed(h, r);
  }

  lemma Sha512WStep(m: seq<bv64>, t: nat)
    requires |m| == 16
    ensures Sha512W(m, t) == if t < 16 then m[t] else
      Sha512Mix(Sha512W(m, t - 2), Sha512W(m, t - 7), Sha512W(m, t - 15), Sha512W(m, t - 16))
  {
  }

  lemma WordOf512(b: Bytes, t: nat)
    requires |b| == 128 && t < 16
    ensures LongsBE(b)[t] == LongBE(b, t)
  {
  }
}
