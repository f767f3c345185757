/** The cipher context: key schedule construction in place and the two block operations. */
module Aes {
  import opened Common
  import opened Fips197
  import opened AesTables
  import opened AesTheory

  // word_in: four bytes, the first the least significant.
  function WordIn(b: Bytes, at: nat): bv32
    requires at + 4 <= |b|
  {
    BytesToWord(b[at], b[at + 1], b[at + 2], b[at + 3])
  }

  // A byte string as columns of a state, and back.
  function ToState(b: Bytes): State {
    seq(|b| / 4, c requires 0 <= c < |b| / 4 => Col(b[4 * c], b[4 * c + 1], b[4 * c + 2], b[4 * c + 3]))
  }

  function ToBytes(s: State): (b: Bytes)
    ensures |b| == 4 * |s|
  {
    seq(4 * |s|, i requires 0 <= i < 4 * |s| =>
      if i % 4 == 0 then s[i / 4].r0 else if i % 4 == 1 then s[i / 4].r1
      else if i % 4 == 2 then s[i / 4].r2 else s[i / 4].r3)
  }

  lemma ToStateToBytes(s: State)
    ensures ToState(ToBytes(s)) == s
  {
    assert |ToBytes(s)| / 4 == |s|;
    forall c | 0 <= c < |s|
      ensures ToState(ToBytes(s))[c] == s[c]
    {
      assert (4 * c) % 4 == 0 && (4 * c) / 4 == c;
      assert (4 * c + 1) % 4 == 1 && (4 * c + 1) / 4 == c;
      assert (4 * c + 2) % 4 == 2 && (4 * c + 2) / 4 == c;
      assert (4 * c + 3) % 4 == 3 && (4 * c + 3) / 4 == c;
    }
  }

  lemma ToBytesToState(b: Bytes)
    requires |b| % 4 == 0
    ensures ToBytes(ToState(b)) == b
  {
    assert 4 * (|b| / 4) == |b|;
    forall i | 0 <= i < |b|
      ensures ToBytes(ToState(b))[i] == b[i]
    {
      assert i == 4 * (i / 4) + i % 4;
      assert 0 <= i / 4 < |b| / 4;
    }
  }

  // The words of a key from the length argument, which counts bytes or bits.
  function KeyWords(nBytes: int): nat {
    if nBytes == 32 || nBytes == 256 then 8
    else if nBytes == 24 || nBytes == 192 then 6
    else 4
  }

  predicate ValidKeyWords(nk: nat) {
    nk == 4 || nk == 6 || nk == 8
  }

  function ScheduleWords(nk: nat, nc: nat): nat {
    nc * (RoundCount(nk, nc) + 1)
  }

  // The words the expansion loops write: the schedule, rounded up to a whole pass.
  function SpanWords(nk: nat, nc: nat): nat
    requires 0 < nk
  {
    (ScheduleWords(nk, nc) + nk - 1) / nk * nk
  }

  lemma SpanOf4(nc: nat)
    requires ValidColumns(nc)
    ensures ScheduleWords(4, nc) == (if nc == 4 then 44 else if nc == 6 then 78 else 120)
    ensures SpanWords(4, nc) == (if nc == 4 then 44 else if nc == 6 then 80 else 120)
  {
  }

  lemma SpanOf6(nc: nat)
    requires ValidColumns(nc)
    ensures ScheduleWords(6, nc) == (if nc == 4 then 52 else if nc == 6 then 78 else 120)
    ensures SpanWords(6, nc) == (if nc == 4 then 54 else if nc == 6 then 78 else 120)
  {
  }

  lemma SpanOf8(nc: nat)
    requires ValidColumns(nc)
    ensures ScheduleWords(8, nc) == (if nc == 4 then 60 else if nc == 6 then 90 else 120)
    ensures SpanWords(8, nc) == (if nc == 4 then 64 else if nc == 6 then 96 else 120)
  {
  }

  // For every legal key and block size the passes write fewer than nk words beyond the
  // schedule and use at most 29 round constants.
  lemma SpanIsTight(nk: nat, nc: nat)
    requires ValidKeyWords(nk) && ValidColumns(nc)
    ensures ScheduleWords(nk, nc) <= SpanWords(nk, nc) < ScheduleWords(nk, nc) + nk
    ensures SpanWords(nk, nc) % nk == 0 && SpanWords(nk, nc) / nk - 1 <= 29
    ensures nk < ScheduleWords(nk, nc) && SpanWords(nk, nc) <= 120
  {
    hide ScheduleWords, SpanWords;
    if nk == 4 {
      SpanOf4(nc);
    } else if nk == 6 {
      SpanOf6(nc);
    } else {
      SpanOf8(nc);
    }
  }

  lemma SpanPasses(nk: nat, nc: nat) returns (passes: nat)
    requires ValidKeyWords(nk) && ValidColumns(nc)
    ensures SpanWords(nk, nc) == nk * (passes + 1) && 0 < passes <= 29
    ensures nk * passes < ScheduleWords(nk, nc) <= SpanWords(nk, nc)
  {
    hide ScheduleWords, SpanWords;
    SpanIsTight(nk, nc);
    passes := SpanWords(nk, nc) / nk - 1;
  }

  // The low bytes of the 29 entries of rcon_tab; the other bytes are zero.
  function RconByte(i: nat): bv8
    requires i < 29
  {
    match i
    case 0 => 0x01 case 1 => 0x02 case 2 => 0x04 case 3 => 0x08
    case 4 => 0x10 case 5 => 0x20 case 6 => 0x40 case 7 => 0x80
    case 8 => 0x1B case 9 => 0x36 case 10 => 0x6C case 11 => 0xD8
    case 12 => 0xAB case 13 => 0x4D case 14 => 0x9A case 15 => 0x2F
    case 16 => 0x5E case 17 => 0xBC case 18 => 0x63 case 19 => 0xC6
    case 20 => 0x97 case 21 => 0x35 case 22 => 0x6A case 23 => 0xD4
    case 24 => 0xB3 case 25 => 0x7D case 26 => 0xFA case 27 => 0xEF
    case _ => 0xC5
  }

  function RconTab(i: nat): bv32
    requires i < 29
  {
    BytesToWord(RconByte(i), 0, 0, 0)
  }

  // rcon_tab holds the successive powers of x, as section 5.2 of FIPS 197 asks.
  lemma {:induction false} RconTabIsPowers(i: nat)
    requires i < 29
    ensures Unpack(RconTab(i)) == Col(Rcon(i + 1), 0, 0, 0)
  {
    hide Unpack, BytesToWord, RconByte;
    RconBytesArePowers(i);
    UnpackBytes(RconByte(i), 0, 0, 0);
  }

  lemma {:induction false} RconBytesArePowers(i: nat)
    requires i < 29
    ensures RconByte(i) == Rcon(i + 1)
  {
    if i > 0 {
      RconBytesArePowers(i - 1);
      RconStep(i);
    }
  }

  lemma RconStep(i: nat)
    requires 0 < i < 29
    ensures RconByte(i) == SBoxes.XTime(RconByte(i - 1))
  {
  }

  // ---------- The key schedule ----------

  // The first upTo words are the expanded key of section 5.2.
  ghost predicate Expanded(words: seq<bv32>, key: seq<Col>, upTo: nat)
    requires 0 < |key|
  {
    upTo <= |words| && forall i | 0 <= i < upTo :: Unpack(words[i]) == KeyWord(key, i)
  }

  // Section 5.2 for word j of pass m, the pass that starts at word m * nk.
  lemma KeyWordOfPass(key: seq<Col>, m: nat, j: nat)
    requires ValidKeyWords(|key|) && 0 < m && j < |key|
    ensures var nk := |key|; var i := m * nk + j; var last := KeyWord(key, i - 1);
      KeyWord(key, i) == AddCol(KeyWord(key, i - nk),
        if j == 0 then AddCol(SubCol(RotCol(last)), Col(Rcon(m), 0, 0, 0))
        else if nk == 8 && j == 4 then SubCol(last)
        else last)
  {
    hide SubCol, RotCol, AddCol, Rcon, KeyWord;
    PassPlace(|key|, m, j);
    LaterKeyWord(key, m * |key| + j);
  }

  lemma PassPlace(nk: nat, m: nat, j: nat)
    requires ValidKeyWords(nk) && 0 < m && j < nk
    ensures var i := m * nk + j; i >= nk && i / nk == m && i % nk == j
  {
    if nk == 4 {
      assert (m * 4 + j) / 4 == m;
    } else if nk == 6 {
      assert (m * 6 + j) / 6 == m;
    } else {
      assert (m * 8 + j) / 8 == m;
    }
  }

  lemma LaterKeyWord(key: seq<Col>, i: nat)
    requires 0 < |key| <= i
    ensures var nk := |key|; var last := KeyWord(key, i - 1);
      KeyWord(key, i) == AddCol(KeyWord(key, i - nk),
        if i % nk == 0 then AddCol(SubCol(RotCol(last)), Col(Rcon(i / nk), 0, 0, 0))
        else if nk > 6 && i % nk == 4 then SubCol(last)
        else last)
  {
    hide SubCol, RotCol, AddCol, Rcon;
  }

  lemma FirstOfPass(words: seq<bv32>, key: seq<Col>, m: nat, i: nat)
    requires ValidKeyWords(|key|) && 0 < m <= 29 && i == m * |key| && Expanded(words, key, i)
    ensures Unpack(Xor(Xor(words[i - |key|], LsBox(words[i - 1], 3)), RconTab(m - 1))) == KeyWord(key, i)
  {
    hide Unpack, Xor, LsBox, SubCol, RotCol, RconTab, KeyWord, AddCol;
    var nk := |key|;
    var back, last := words[i - nk], words[i - 1];
    KeyWordOfPass(key, m, 0);
    LsBoxIsSubWord(last);
    RconTabIsPowers(m - 1);
    UnpackXor(back, LsBox(last, 3));
    UnpackXor(Xor(back, LsBox(last, 3)), RconTab(m - 1));
    AddColAssociative(Unpack(back), Unpack(LsBox(last, 3)), Unpack(RconTab(m - 1)));
  }

  lemma AddColAssociative(a: Col, b: Col, c: Col)
    ensures AddCol(AddCol(a, b), c) == AddCol(a, AddCol(b, c))
  {
    hide Sum2;
    SumAssociative(a.r0, b.r0, c.r0);
    SumAssociative(a.r1, b.r1, c.r1);
    SumAssociative(a.r2, b.r2, c.r2);
    SumAssociative(a.r3, b.r3, c.r3);
  }

  lemma MiddleOfPass(words: seq<bv32>, key: seq<Col>, m: nat, j: nat, i: nat)
    requires ValidKeyWords(|key|) && 0 < m && 0 < j < |key| && i == m * |key| + j && Expanded(words, key, i)
    ensures Unpack(Xor(words[i - |key|], if |key| == 8 && j == 4 then LsBox(words[i - 1], 0) else words[i - 1]))
            == KeyWord(key, i)
  {
    hide Unpack, Xor, LsBox, SubCol, RotCol, KeyWord, AddCol;
    var last := words[i - 1];
    KeyWordOfPass(key, m, j);
    LsBoxIsSubWord(last);
    UnpackXor(words[i - |key|], if |key| == 8 && j == 4 then LsBox(last, 0) else last);
  }

  // The words of a round key passed through inv_mcol.
  function MixWords(ws: seq<bv32>): seq<bv32> {
    seq(|ws|, c requires 0 <= c < |ws| => InvMcol(ws[c]))
  }

  function Block(ws: seq<bv32>, nc: nat, at: nat): seq<bv32>
    requires at + nc <= |ws|
  {
    ws[at..at + nc]
  }

  // Where round key i starts.
  function Start(nc: nat, i: nat): nat {
    nc * i
  }

  lemma BlockFits(nc: nat, nr: nat, i: nat)
    requires i <= nr
    ensures Start(nc, i) + nc <= nc * (nr + 1)
  {
    StartOrder(nc, i, nr + 1);
  }

  lemma {:induction false} StartOrder(nc: nat, a: nat, b: nat)
    requires a < b
    ensures Start(nc, a) + nc <= Start(nc, b)
    decreases b
  {
    if a < b - 1 {
      StartOrder(nc, a, b - 1);
    }
  }

  lemma StartIsProduct(nc: nat, i: nat)
    ensures Start(nc, i) == nc * i
  {
  }

  lemma StartStep(nc: nat, i: nat)
    ensures Start(nc, i + 1) == Start(nc, i) + nc && Start(nc, 0) == 0
  {
  }

  // Round key i of ew is round key nr - i of dw, mixed unless it is one of the two ends.
  ghost predicate Reversed(dw: seq<bv32>, ew: seq<bv32>, nc: nat, nr: nat, i: nat)
    requires nc * (nr + 1) <= |dw| && nc * (nr + 1) <= |ew| && i <= nr
  {
    BlockFits(nc, nr, i);
    BlockFits(nc, nr, nr - i);
    Block(dw, nc, Start(nc, nr - i)) ==
      if i == 0 || i == nr then Block(ew, nc, Start(nc, i)) else MixWords(Block(ew, nc, Start(nc, i)))
  }

  // Writing round key nr - i of dw leaves the later ones alone.
  lemma ReversedKept(before: seq<bv32>, after: seq<bv32>, ew: seq<bv32>, nc: nat, nr: nat, i: nat, j: nat)
    requires j < i <= nr && |before| == |after|
    requires nc * (nr + 1) <= |before| && nc * (nr + 1) <= |ew|
    requires forall t | 0 <= t < |before| && !(Start(nc, nr - i) <= t < Start(nc, nr - i) + nc) :: after[t] == before[t]
    requires Reversed(before, ew, nc, nr, j)
    ensures Reversed(after, ew, nc, nr, j)
  {
    hide Block, MixWords, Start;
    BlockFits(nc, nr, nr - i);
    BlockFits(nc, nr, nr - j);
    StartOrder(nc, nr - i, nr - j);
    BlockKept(before, after, nc, Start(nc, nr - i), Start(nc, nr - j));
  }

  lemma BlockKept(before: seq<bv32>, after: seq<bv32>, nc: nat, lo: nat, at: nat)
    requires |before| == |after| && lo + nc <= at && at + nc <= |before|
    requires forall t | 0 <= t < |before| && !(lo <= t < lo + nc) :: after[t] == before[t]
    ensures Block(after, nc, at) == Block(before, nc, at)
  {
  }

  // Cutting a round key out of the words or out of the columns is the same.
  lemma ColumnsOfBlock(ws: seq<bv32>, nc: nat, nr: nat, i: nat)
    requires nc * (nr + 1) <= |ws| && i <= nr
    ensures Start(nc, i) + nc <= |ws| && (i + 1) * nc <= |Columns(ws[..nc * (nr + 1)])|
    ensures RoundKey(Columns(ws[..nc * (nr + 1)]), nc, i) == Columns(Block(ws, nc, Start(nc, i)))
  {
    hide Unpack;
    BlockFits(nc, nr, i);
    assert (i + 1) * nc == Start(nc, i) + nc && i * nc == nc * i;
  }

  lemma ColumnsOfMixed(ws: seq<bv32>)
    ensures Columns(MixWords(ws)) == InvMixColumns(Columns(ws))
  {
    hide Unpack, InvMcol, InvMixCol;
    forall c | 0 <= c < |ws|
      ensures Unpack(InvMcol(ws[c])) == InvMixCol(Unpack(ws[c]))
    {
      InvMcolIsInvMixCol(ws[c]);
    }
  }

  lemma ReversedIsInverse(dw: seq<bv32>, ew: seq<bv32>, nc: nat, nr: nat)
    requires ValidColumns(nc) && 0 < nr
    requires nc * (nr + 1) <= |dw| && nc * (nr + 1) <= |ew|
    requires forall i | 0 <= i <= nr :: Reversed(dw, ew, nc, nr, i)
    ensures IsInverseSchedule(Columns(dw[..nc * (nr + 1)]), Columns(ew[..nc * (nr + 1)]), nc, nr)
  {
    hide Columns, MixWords, InvMixColumns, Block;
    var d, e := Columns(dw[..nc * (nr + 1)]), Columns(ew[..nc * (nr + 1)]);
    forall i: nat | i <= nr
      ensures (nr - i + 1) * nc <= |e| && (i + 1) * nc <= |d|
      ensures RoundKey(d, nc, i) ==
        if i == 0 || i == nr then RoundKey(e, nc, nr - i) else InvMixColumns(RoundKey(e, nc, nr - i))
    {
      assert Reversed(dw, ew, nc, nr, nr - i);
      ColumnsOfBlock(dw, nc, nr, i);
      ColumnsOfBlock(ew, nc, nr, nr - i);
      ColumnsOfMixed(Block(ew, nc, Start(nc, nr - i)));
    }
  }

  class AesContext {
    const ncol: nat
    var nkey: nat
    var nrnd: nat
    const eKey: array<bv32>
    const dKey: array<bv32>

    ghost predicate Valid()
      reads this
    {
      && ValidColumns(ncol) && ValidKeyWords(nkey) && nrnd == RoundCount(nkey, ncol)
      && eKey != dKey
      && SpanWords(nkey, ncol) <= eKey.Length && ScheduleWords(nkey, ncol) <= dKey.Length
    }

    // aes_set_blk, with room for the largest schedule of that block size.
    constructor (nBytes: int)
      ensures ValidColumns(ncol)
      ensures forall nc: nat | ValidColumns(nc) && (nBytes == 4 * nc || nBytes == 32 * nc) :: ncol == nc
      ensures (forall nc: nat | ValidColumns(nc) :: nBytes != 4 * nc && nBytes != 32 * nc) ==> ncol == 4
      ensures eKey != dKey && fresh(eKey) && fresh(dKey)
      ensures eKey.Length == dKey.Length == 120
    {
      assert ValidColumns(4) && ValidColumns(6) && ValidColumns(8);
      ncol :=
        if nBytes == 32 || nBytes == 256 then 8
        else if nBytes == 24 || nBytes == 192 then 6
        else 4;
      nkey, nrnd := 4, 10;
      eKey := new bv32[120];
      dKey := new bv32[120];
    }

    // The forward schedule as a sequence of columns.
    ghost function EncSchedule(): State
      requires Valid()
      reads this, eKey
    {
      SpanIsTight(nkey, ncol);
      Columns(eKey[..ScheduleWords(nkey, ncol)])
    }

    ghost function DecSchedule(): State
      requires Valid()
      reads this, dKey
    {
      Columns(dKey[..ScheduleWords(nkey, ncol)])
    }

    // The context holds both schedules of this key.
    ghost predicate KeyedWith(key: Bytes)
      requires Valid()
      reads this, eKey, dKey
    {
      && ValidKey(key) && nkey == |key| / 4
      && EncSchedule() == KeyExpansion(ToState(key), ncol)
      && IsSchedule(EncSchedule(), ncol, nrnd) && IsSchedule(DecSchedule(), ncol, nrnd)
      && IsInverseSchedule(DecSchedule(), EncSchedule(), ncol, nrnd)
    }

    // A keyed context encrypts and decrypts as FIPS 197 does under that key.
    lemma BlockOperations(key: Bytes, block: Bytes)
      requires Valid() && KeyedWith(key) && |block| == 4 * ncol
      ensures |ToState(block)| == ncol
      ensures ToBytes(Cipher(ToState(block), EncSchedule(), nrnd)) == EncryptBytes(key, ncol, block)
      ensures ToBytes(EqInvCipher(ToState(block), DecSchedule(), nrnd)) == DecryptBytes(key, ncol, block)
    {
      hide ToBytes, ToState, KeyExpansion, EqInvCipher, Cipher, IsInverseSchedule, EncSchedule, DecSchedule;
      StateSize(block);
      StateSize(key);
      ScheduleDecrypts(key, ncol, block, DecSchedule());
    }

    // One assignment kf[j] = w of the expansion.
    method Store(ghost key: seq<Col>, i: nat, w: bv32)
      requires 0 < |key| && i < eKey.Length
      requires Expanded(eKey[..], key, i) && Unpack(w) == KeyWord(key, i)
      modifies eKey
      ensures Expanded(eKey[..], key, i + 1)
      ensures forall j | 0 <= j < eKey.Length && j != i :: eKey[j] == old(eKey[j])
    {
      hide Unpack, KeyWord;
      eKey[i] := w;
    }

    // One pass of the loop: 4 words.
    method Pass4(ghost key: seq<Col>, kf: nat, rci: nat)
      requires |key| == 4 && kf == 4 * rci && rci < 29 && kf + 8 <= eKey.Length
      requires Expanded(eKey[..], key, kf + 4)
      modifies eKey
      ensures Expanded(eKey[..], key, kf + 8)
      ensures forall i | kf + 8 <= i < eKey.Length :: eKey[i] == old(eKey[i])
    {
      hide Unpack, KeyWord, Xor, LsBox, RconTab, Expanded;
      FirstOfPass(eKey[..], key, rci + 1, kf + 4);
      Store(key, kf + 4, Xor(Xor(eKey[kf], LsBox(eKey[kf + 3], 3)), RconTab(rci)));
      MiddleOfPass(eKey[..], key, rci + 1, 1, kf + 5);
      Store(key, kf + 5, Xor(eKey[kf + 1], eKey[kf + 4]));
      MiddleOfPass(eKey[..], key, rci + 1, 2, kf + 6);
      Store(key, kf + 6, Xor(eKey[kf + 2], eKey[kf + 5]));
      MiddleOfPass(eKey[..], key, rci + 1, 3, kf + 7);
      Store(key, kf + 7, Xor(eKey[kf + 3], eKey[kf + 6]));
    }

    method Expand4(ghost key: seq<Col>)
      requires |key| == 4 && ValidColumns(ncol) && SpanWords(4, ncol) <= eKey.Length
      requires Expanded(eKey[..], key, 4)
      modifies eKey
      ensures Expanded(eKey[..], key, SpanWords(4, ncol))
      ensures forall i | SpanWords(4, ncol) <= i < eKey.Length :: eKey[i] == old(eKey[i])
    {
      hide KeyWord, Expanded, SpanWords, ScheduleWords;
      var kf, rci := 0, 0;
      var kt := ScheduleWords(4, ncol) - 4;
      ghost var passes := SpanPasses(4, ncol);
      while kf < kt
        invariant kf == 4 * rci && rci <= passes
        invariant Expanded(eKey[..], key, kf + 4)
        invariant forall i | 4 * (passes + 1) <= i < eKey.Length :: eKey[i] == old(eKey[i])
        decreases kt - kf
      {
        Pass4(key, kf, rci);
        rci := rci + 1;
        kf := kf + 4;
      }
    }

    // One pass of the loop: 6 words.
    method Pass6(ghost key: seq<Col>, kf: nat, rci: nat)
      requires |key| == 6 && kf == 6 * rci && rci < 29 && kf + 12 <= eKey.Length
      requires Expanded(eKey[..], key, kf + 6)
      modifies eKey
      ensures Expanded(eKey[..], key, kf + 12)
      ensures forall i | kf + 12 <= i < eKey.Length :: eKey[i] == old(eKey[i])
    {
      hide Unpack, KeyWord, Xor, LsBox, RconTab, Expanded;
      FirstOfPass(eKey[..], key, rci + 1, kf + 6);
      Store(key, kf + 6, Xor(Xor(eKey[kf], LsBox(eKey[kf + 5], 3)), RconTab(rci)));
      MiddleOfPass(eKey[..], key, rci + 1, 1, kf + 7);
      Store(key, kf + 7, Xor(eKey[kf + 1], eKey[kf + 6]));
      MiddleOfPass(eKey[..], key, rci + 1, 2, kf + 8);
      Store(key, kf + 8, Xor(eKey[kf + 2], eKey[kf + 7]));
      MiddleOfPass(eKey[..], key, rci + 1, 3, kf + 9);
      Store(key, kf + 9, Xor(eKey[kf + 3], eKey[kf + 8]));
      MiddleOfPass(eKey[..], key, rci + 1, 4, kf + 10);
      Store(key, kf + 10, Xor(eKey[kf + 4], eKey[kf + 9]));
      MiddleOfPass(eKey[..], key, rci + 1, 5, kf + 11);
      Store(key, kf + 11, Xor(eKey[kf + 5], eKey[kf + 10]));
    }

    method Expand6(ghost key: seq<Col>)
      requires |key| == 6 && ValidColumns(ncol) && SpanWords(6, ncol) <= eKey.Length
      requires Expanded(eKey[..], key, 6)
      modifies eKey
      ensures Expanded(eKey[..], key, SpanWords(6, ncol))
      ensures forall i | SpanWords(6, ncol) <= i < eKey.Length :: eKey[i] == old(eKey[i])
    {
      hide KeyWord, Expanded, SpanWords, ScheduleWords;
      var kf, rci := 0, 0;
      var kt := ScheduleWords(6, ncol) - 6;
      ghost var passes := SpanPasses(6, ncol);
      while kf < kt
        invariant kf == 6 * rci && rci <= passes
        invariant Expanded(eKey[..], key, kf + 6)
        invariant forall i | 6 * (passes + 1) <= i < eKey.Length :: eKey[i] == old(eKey[i])
        decreases kt - kf
      {
        Pass6(key, kf, rci);
        rci := rci + 1;
        kf := kf + 6;
      }
    }

    // One pass of the loop: 8 words, the fifth with its own substitution.
    method Pass8(ghost key: seq<Col>, kf: nat, rci: nat)
      requires |key| == 8 && kf == 8 * rci && rci < 29 && kf + 16 <= eKey.Length
      requires Expanded(eKey[..], key, kf + 8)
      modifies eKey
      ensures Expanded(eKey[..], key, kf + 16)
      ensures forall i | kf + 16 <= i < eKey.Length :: eKey[i] == old(eKey[i])
    {
      hide Unpack, KeyWord, Xor, LsBox, RconTab, Expanded;
      FirstOfPass(eKey[..], key, rci + 1, kf + 8);
      Store(key, kf + 8, Xor(Xor(eKey[kf], LsBox(eKey[kf + 7], 3)), RconTab(rci)));
      MiddleOfPass(eKey[..], key, rci + 1, 1, kf + 9);
      Store(key, kf + 9, Xor(eKey[kf + 1], eKey[kf + 8]));
      MiddleOfPass(eKey[..], key, rci + 1, 2, kf + 10);
      Store(key, kf + 10, Xor(eKey[kf + 2], eKey[kf + 9]));
      MiddleOfPass(eKey[..], key, rci + 1, 3, kf + 11);
      Store(key, kf + 11, Xor(eKey[kf + 3], eKey[kf + 10]));
      Pass8Rest(key, kf, rci);
    }

    method Pass8Rest(ghost key: seq<Col>, kf: nat, ghost rci: nat)
      requires |key| == 8 && kf == 8 * rci && kf + 16 <= eKey.Length
      requires Expanded(eKey[..], key, kf + 12)
      modifies eKey
      ensures Expanded(eKey[..], key, kf + 16)
      ensures forall i | kf + 16 <= i < eKey.Length :: eKey[i] == old(eKey[i])
    {
      hide Unpack, KeyWord, Xor, LsBox, RconTab, Expanded;
      MiddleOfPass(eKey[..], key, rci + 1, 4, kf + 12);
      Store(key, kf + 12, Xor(eKey[kf + 4], LsBox(eKey[kf + 11], 0)));
      MiddleOfPass(eKey[..], key, rci + 1, 5, kf + 13);
      Store(key, kf + 13, Xor(eKey[kf + 5], eKey[kf + 12]));
      MiddleOfPass(eKey[..], key, rci + 1, 6, kf + 14);
      Store(key, kf + 14, Xor(eKey[kf + 6], eKey[kf + 13]));
      MiddleOfPass(eKey[..], key, rci + 1, 7, kf + 15);
      Store(key, kf + 15, Xor(eKey[kf + 7], eKey[kf + 14]));
    }

    method Expand8(ghost key: seq<Col>)
      requires |key| == 8 && ValidColumns(ncol) && SpanWords(8, ncol) <= eKey.Length
      requires Expanded(eKey[..], key, 8)
      modifies eKey
      ensures Expanded(eKey[..], key, SpanWords(8, ncol))
      ensures forall i | SpanWords(8, ncol) <= i < eKey.Length :: eKey[i] == old(eKey[i])
    {
      hide KeyWord, Expanded, SpanWords, ScheduleWords;
      var kf, rci := 0, 0;
      var kt := ScheduleWords(8, ncol) - 8;
      ghost var passes := SpanPasses(8, ncol);
      while kf < kt
        invariant kf == 8 * rci && rci <= passes
        invariant Expanded(eKey[..], key, kf + 8)
        invariant forall i | 8 * (passes + 1) <= i < eKey.Length :: eKey[i] == old(eKey[i])
        decreases kt - kf
      {
        Pass8(key, kf, rci);
        rci := rci + 1;
        kf := kf + 8;
      }
    }

    // The macros cpy and mix: one round key from *kf to *kt, as it is or mixed.
    method Cpy(kt: nat, kf: nat)
      requires eKey != dKey && kf + ncol <= eKey.Length && kt + ncol <= dKey.Length
      modifies dKey
      ensures Block(dKey[..], ncol, kt) == Block(eKey[..], ncol, kf)
      ensures forall j | 0 <= j < dKey.Length && !(kt <= j < kt + ncol) :: dKey[j] == old(dKey[j])
    {
      for c := 0 to ncol
        invariant dKey[kt..kt + c] == eKey[kf..kf + c]
        invariant forall j | 0 <= j < dKey.Length && !(kt <= j < kt + c) :: dKey[j] == old(dKey[j])
      {
        dKey[kt + c] := eKey[kf + c];
      }
    }

    method Mix(kt: nat, kf: nat)
      requires eKey != dKey && kf + ncol <= eKey.Length && kt + ncol <= dKey.Length
      modifies dKey
      ensures Block(dKey[..], ncol, kt) == MixWords(Block(eKey[..], ncol, kf))
      ensures forall j | 0 <= j < dKey.Length && !(kt <= j < kt + ncol) :: dKey[j] == old(dKey[j])
    {
      hide InvMcol;
      for c := 0 to ncol
        invariant dKey[kt..kt + c] == MixWords(eKey[kf..kf + c])
        invariant forall j | 0 <= j < dKey.Length && !(kt <= j < kt + c) :: dKey[j] == old(dKey[j])
      {
        dKey[kt + c] := InvMcol(eKey[kf + c]);
      }
    }

    // Round key i of the encryption schedule, as it is or mixed, becomes round key nrnd - i of the
    // decryption schedule.
    method InvertStep(i: nat, kt: nat, kf: nat)
      requires Valid() && i <= nrnd && kf == Start(ncol, i) && kt == Start(ncol, nrnd - i)
      requires ncol * (nrnd + 1) <= eKey.Length && ncol * (nrnd + 1) <= dKey.Length
      requires forall j | 0 <= j < i :: Reversed(dKey[..], eKey[..], ncol, nrnd, j)
      modifies dKey
      ensures forall j | 0 <= j <= i :: Reversed(dKey[..], eKey[..], ncol, nrnd, j)
    {
      hide MixWords, Block, SpanWords, Start;
      ghost var before := dKey[..];
      BlockFits(ncol, nrnd, i);
      BlockFits(ncol, nrnd, nrnd - i);
      if i == 0 || i == nrnd {
        Cpy(kt, kf);
      } else {
        Mix(kt, kf);
      }
      KeepReversed(before, i);
      assert Reversed(dKey[..], eKey[..], ncol, nrnd, i);
    }

    // The second half of aes_set_key: kt runs down through d_key while kf runs up.
    method InvertSchedule()
      requires Valid()
      modifies dKey
      ensures IsSchedule(EncSchedule(), ncol, nrnd) && IsSchedule(DecSchedule(), ncol, nrnd)
      ensures IsInverseSchedule(DecSchedule(), EncSchedule(), ncol, nrnd)
    {
      hide Reversed, SpanWords, Start;
      SpanIsTight(nkey, ncol);
      var kt, kf := ncol * nrnd, 0;
      StartIsProduct(ncol, nrnd);
      StartStep(ncol, 0);
      StartStep(ncol, nrnd - 1);
      InvertStep(0, kt, kf);
      var i := 1;
      kf := kf + ncol;
      kt := kt - ncol;
      while i < nrnd
        invariant 1 <= i <= nrnd
        invariant kf == Start(ncol, i) && kt == Start(ncol, nrnd - i)
        invariant forall j | 0 <= j < i :: Reversed(dKey[..], eKey[..], ncol, nrnd, j)
      {
        InvertStep(i, kt, kf);
        StartStep(ncol, i);
        StartStep(ncol, nrnd - i - 1);
        i := i + 1;
        kf := kf + ncol;
        kt := kt - ncol;
      }
      InvertStep(nrnd, kt, kf);
      ReversedIsInverse(dKey[..], eKey[..], ncol, nrnd);
    }

    lemma KeepReversed(before: seq<bv32>, i: nat)
      requires i <= nrnd && |before| == dKey.Length
      requires ncol * (nrnd + 1) <= dKey.Length && ncol * (nrnd + 1) <= eKey.Length
      requires forall t | 0 <= t < |before| && !(Start(ncol, nrnd - i) <= t < Start(ncol, nrnd - i) + ncol) ::
        dKey[..][t] == before[t]
      requires forall j | 0 <= j < i :: Reversed(before, eKey[..], ncol, nrnd, j)
      ensures forall j | 0 <= j < i :: Reversed(dKey[..], eKey[..], ncol, nrnd, j)
    {
      forall j | 0 <= j < i
        ensures Reversed(dKey[..], eKey[..], ncol, nrnd, j)
      {
        ReversedKept(before, dKey[..], eKey[..], ncol, nrnd, i, j);
      }
    }

    // aes_set_key. The loops write SpanWords words; what lies beyond stays as it was.
    method SetKey(inKey: Bytes, nBytes: int, f: bool)
      requires ValidColumns(ncol) && eKey != dKey && |inKey| >= 4 * KeyWords(nBytes)
      requires SpanWords(KeyWords(nBytes), ncol) <= eKey.Length
      requires ScheduleWords(KeyWords(nBytes), ncol) <= dKey.Length
      modifies this, eKey, dKey
      ensures Valid() && nkey == KeyWords(nBytes)
      ensures EncSchedule() == KeyExpansion(ToState(inKey[..4 * nkey]), ncol)
      ensures forall i | SpanWords(nkey, ncol) <= i < eKey.Length :: eKey[i] == old(eKey[i])
      ensures f ==> dKey[..] == old(dKey[..])
      ensures !f ==> KeyedWith(inKey[..4 * nkey])
    {
      hide BytesToWord, Unpack, KeyWord, SpanWords;
      nkey := KeyWords(nBytes);
      nrnd := (if nkey > ncol then nkey else ncol) + 6;
      ghost var key := ToState(inKey[..4 * nkey]);
      SpanIsTight(nkey, ncol);
      for i := 0 to nkey
        invariant nkey == |key| == KeyWords(nBytes) && nrnd == RoundCount(nkey, ncol)
        invariant forall j | 0 <= j < i :: Unpack(eKey[j]) == key[j]
        invariant forall j | nkey <= j < eKey.Length :: eKey[j] == old(eKey[j])
        invariant dKey[..] == old(dKey[..])
      {
        eKey[i] := WordIn(inKey, 4 * i);
        UnpackBytes(inKey[4 * i], inKey[4 * i + 1], inKey[4 * i + 2], inKey[4 * i + 3]);
      }
      FirstWords(eKey[..], key);
      if nkey == 4 {
        Expand4(key);
      } else if nkey == 6 {
        Expand6(key);
      } else {
        Expand8(key);
      }
      ExpandedIsExpansion(eKey[..], key, ncol);
      if !f {
        InvertSchedule();
      }
    }

    // aes_encrypt: two rounds a pass, b0 to b1 and back.
    method Encrypt(inBlk: Bytes, outBlk: array<bv8>)
      requires Valid() && |inBlk| == 4 * ncol && outBlk.Length >= 4 * ncol
      modifies outBlk
      ensures IsSchedule(EncSchedule(), ncol, nrnd) && |ToState(inBlk)| == ncol
      ensures outBlk[..4 * ncol] == ToBytes(Cipher(ToState(inBlk), EncSchedule(), nrnd))
      ensures outBlk[4 * ncol..] == old(outBlk[4 * ncol..])
    {
      hide Columns, ToState, ToBytes, StateIn, FwdRound, FwdLastRound, Block, Start, SpanWords, IsSchedule,
        EncState, DecState, Cipher, EqInvCipher;
      ghost var s := ToState(inBlk);
      ghost var ws := eKey[..];
      SpanIsTight(nkey, ncol);
      ScheduleShape(ws, nkey, ncol, inBlk);
      var kp := 0;
      FirstStep(ws, ncol, nrnd, inBlk);
      var b0 := StateIn(inBlk, Block(eKey[..], ncol, kp));
      var b1 := b0;
      kp := kp + ncol;
      var rnd := 0;
      while rnd < nrnd / 2 - 1
        invariant 0 <= rnd <= nrnd / 2 - 1 && |b0| == ncol && outBlk[..] == old(outBlk[..])
        invariant kp == Start(ncol, 2 * rnd + 1)
        invariant EncState(b0, s, ws, ncol, nrnd, 2 * rnd)
      {
        EncStep(b0, s, ws, ncol, nrnd, 2 * rnd + 1);
        b1 := FwdRound(b0, Block(eKey[..], ncol, kp));
        EncStep(b1, s, ws, ncol, nrnd, 2 * rnd + 2);
        b0 := FwdRound(b1, Block(eKey[..], ncol, kp + ncol));
        kp := kp + 2 * ncol;
        rnd := rnd + 1;
      }
      EncStep(b0, s, ws, ncol, nrnd, nrnd - 1);
      b1 := FwdRound(b0, Block(eKey[..], ncol, kp));
      EncLastStep(b1, s, ws, ncol, nrnd);
      b0 := FwdLastRound(b1, Block(eKey[..], ncol, kp + ncol));
      StateOut(b0, outBlk);
    }

    // aes_decrypt.
    method Decrypt(inBlk: Bytes, outBlk: array<bv8>)
      requires Valid() && |inBlk| == 4 * ncol && outBlk.Length >= 4 * ncol
      modifies outBlk
      ensures IsSchedule(DecSchedule(), ncol, nrnd) && |ToState(inBlk)| == ncol
      ensures outBlk[..4 * ncol] == ToBytes(EqInvCipher(ToState(inBlk), DecSchedule(), nrnd))
      ensures outBlk[4 * ncol..] == old(outBlk[4 * ncol..])
    {
      hide Columns, ToState, ToBytes, StateIn, InvRound, InvLastRound, Block, Start, SpanWords, IsSchedule,
        EncState, DecState, Cipher, EqInvCipher;
      ghost var s := ToState(inBlk);
      ghost var ws := dKey[..];
      SpanIsTight(nkey, ncol);
      ScheduleShape(ws, nkey, ncol, inBlk);
      var kp := 0;
      FirstStep(ws, ncol, nrnd, inBlk);
      var b0 := StateIn(inBlk, Block(dKey[..], ncol, kp));
      var b1 := b0;
      kp := kp + ncol;
      var rnd := 0;
      while rnd < nrnd / 2 - 1
        invariant 0 <= rnd <= nrnd / 2 - 1 && |b0| == ncol && outBlk[..] == old(outBlk[..])
        invariant kp == Start(ncol, 2 * rnd + 1)
        invariant DecState(b0, s, ws, ncol, nrnd, 2 * rnd)
      {
        DecStep(b0, s, ws, ncol, nrnd, 2 * rnd + 1);
        b1 := InvRound(b0, Block(dKey[..], ncol, kp));
        DecStep(b1, s, ws, ncol, nrnd, 2 * rnd + 2);
        b0 := InvRound(b1, Block(dKey[..], ncol, kp + ncol));
        kp := kp + 2 * ncol;
        rnd := rnd + 1;
      }
      DecStep(b0, s, ws, ncol, nrnd, nrnd - 1);
      b1 := InvRound(b0, Block(dKey[..], ncol, kp));
      DecLastStep(b1, s, ws, ncol, nrnd);
      b0 := InvLastRound(b1, Block(dKey[..], ncol, kp + ncol));
      StateOut(b0, outBlk);
    }

    // state_out: the words of a state, low byte first.
    method StateOut(x: seq<bv32>, outBlk: array<bv8>)
      requires outBlk.Length >= 4 * |x|
      modifies outBlk
      ensures outBlk[..4 * |x|] == ToBytes(Columns(x))
      ensures outBlk[4 * |x|..] == old(outBlk[4 * |x|..])
    {
      hide BVal, ToBytes, Columns;
      ghost var want := ToBytes(Columns(x));
      ColumnBytes(x);
      for c := 0 to |x|
        invariant forall i | 0 <= i < 4 * c :: outBlk[i] == want[i]
        invariant forall i | 4 * |x| <= i < outBlk.Length :: outBlk[i] == old(outBlk[i])
      {
        outBlk[4 * c] := BVal(x[c], 0);
        outBlk[4 * c + 1] := BVal(x[c], 1);
        outBlk[4 * c + 2] := BVal(x[c], 2);
        outBlk[4 * c + 3] := BVal(x[c], 3);
        WordBytes(x, c);
      }
    }
  }

  lemma ColumnBytes(x: seq<bv32>)
    ensures |ToBytes(Columns(x))| == 4 * |x|
  {
    hide BVal;
  }

  lemma WordBytes(x: seq<bv32>, c: nat)
    requires c < |x| && |ToBytes(Columns(x))| == 4 * |x|
    ensures var b := ToBytes(Columns(x));
      && b[4 * c] == BVal(x[c], 0) && b[4 * c + 1] == BVal(x[c], 1)
      && b[4 * c + 2] == BVal(x[c], 2) && b[4 * c + 3] == BVal(x[c], 3)
  {
    hide BVal, ToBytes;
    BytesOfColumn(Columns(x), c);
  }

  lemma BytesOfColumn(s: State, c: nat)
    requires c < |s|
    ensures var b := ToBytes(s);
      b[4 * c] == s[c].r0 && b[4 * c + 1] == s[c].r1 && b[4 * c + 2] == s[c].r2 && b[4 * c + 3] == s[c].r3
  {
    assert (4 * c) % 4 == 0 && (4 * c) / 4 == c;
    assert (4 * c + 1) % 4 == 1 && (4 * c + 1) / 4 == c;
    assert (4 * c + 2) % 4 == 2 && (4 * c + 2) / 4 == c;
    assert (4 * c + 3) % 4 == 3 && (4 * c + 3) / 4 == c;
  }

  // state_in: the input words with the first round key added.
  function StateIn(b: Bytes, k: seq<bv32>): (x: seq<bv32>)
    requires |b| == 4 * |k|
    ensures |x| == |k|
  {
    seq(|k|, c requires 0 <= c < |k| => Xor(WordIn(b, 4 * c), k[c]))
  }

  lemma StateSize(b: Bytes)
    ensures |ToState(b)| == |b| / 4
  {
  }

  lemma StateInIsFirstKey(b: Bytes, k: seq<bv32>)
    requires |b| == 4 * |k|
    ensures |ToState(b)| == |Columns(k)| && |StateIn(b, k)| == |k|
    ensures Columns(StateIn(b, k)) == AddRoundKey(ToState(b), Columns(k))
  {
    hide Unpack, BytesToWord, Xor, AddCol;
    forall c | 0 <= c < |k|
      ensures Unpack(Xor(WordIn(b, 4 * c), k[c])) == AddCol(ToState(b)[c], Unpack(k[c]))
    {
      UnpackXor(WordIn(b, 4 * c), k[c]);
      UnpackBytes(b[4 * c], b[4 * c + 1], b[4 * c + 2], b[4 * c + 3]);
    }
  }

  lemma ScheduleShape(ws: seq<bv32>, nk: nat, nc: nat, b: Bytes)
    requires ValidKeyWords(nk) && ValidColumns(nc) && |b| == 4 * nc && ScheduleWords(nk, nc) <= |ws|
    ensures var nr := RoundCount(nk, nc);
      && IsSchedule(Columns(ws[..nc * (nr + 1)]), nc, nr) && |ToState(b)| == nc
      && nr % 2 == 0 && nr >= 10
  {
  }

  // The input with the first round key added is the state after no round.
  lemma FirstStep(ws: seq<bv32>, nc: nat, nr: nat, b: Bytes)
    requires nc * (nr + 1) <= |ws| && |b| == 4 * nc && ValidColumns(nc) && 0 < nr
    ensures |ToState(b)| == nc && |Block(ws, nc, 0)| == nc && Start(nc, 1) == nc
    ensures EncState(StateIn(b, Block(ws, nc, 0)), ToState(b), ws, nc, nr, 0)
    ensures DecState(StateIn(b, Block(ws, nc, 0)), ToState(b), ws, nc, nr, 0)
  {
    hide Columns, StateIn, ToState, AddRoundKey;
    StartStep(nc, 0);
    ColumnsOfBlock(ws, nc, nr, 0);
    StateInIsFirstKey(b, Block(ws, nc, 0));
  }

  // x is the state after n rounds of the cipher under the schedule words ws.
  ghost predicate EncState(x: seq<bv32>, s: State, ws: seq<bv32>, nc: nat, nr: nat, n: nat)
    requires nc * (nr + 1) <= |ws| && |s| == nc && ValidColumns(nc) && n < nr
  {
    |x| == nc && Columns(x) == Rounds(s, Columns(ws[..nc * (nr + 1)]), nr, n)
  }

  lemma EncStep(x: seq<bv32>, s: State, ws: seq<bv32>, nc: nat, nr: nat, n: nat)
    requires nc * (nr + 1) <= |ws| && |s| == nc && ValidColumns(nc) && 0 < n < nr
    requires EncState(x, s, ws, nc, nr, n - 1)
    ensures |x| == nc
    ensures Start(nc, n) + nc <= |ws| && Start(nc, n + 1) == Start(nc, n) + nc && |Block(ws, nc, Start(nc, n))| == nc
    ensures |FwdRound(x, Block(ws, nc, Start(nc, n)))| == nc
    ensures EncState(FwdRound(x, Block(ws, nc, Start(nc, n))), s, ws, nc, nr, n)
  {
    ColumnsOfBlock(ws, nc, nr, n);
    StartStep(nc, n);
    FwdRoundIsFipsRound(x, Block(ws, nc, Start(nc, n)));
  }

  lemma EncLastStep(x: seq<bv32>, s: State, ws: seq<bv32>, nc: nat, nr: nat)
    requires nc * (nr + 1) <= |ws| && |s| == nc && ValidColumns(nc) && 0 < nr
    requires EncState(x, s, ws, nc, nr, nr - 1)
    ensures |x| == nc
    ensures Start(nc, nr) + nc <= |ws| && |Block(ws, nc, Start(nc, nr))| == nc
    ensures |FwdLastRound(x, Block(ws, nc, Start(nc, nr)))| == nc
    ensures Columns(FwdLastRound(x, Block(ws, nc, Start(nc, nr)))) == Cipher(s, Columns(ws[..nc * (nr + 1)]), nr)
  {
    hide AddRoundKey, SubBytes, InvSubBytes, ShiftRows, InvShiftRows, FwdLrnd;
    ColumnsOfBlock(ws, nc, nr, nr);
    FwdLastRoundIsFipsRound(x, Block(ws, nc, Start(nc, nr)));
  }

  // x is the state after n rounds of the equivalent inverse cipher under the schedule words ws.
  ghost predicate DecState(x: seq<bv32>, s: State, ws: seq<bv32>, nc: nat, nr: nat, n: nat)
    requires nc * (nr + 1) <= |ws| && |s| == nc && ValidColumns(nc) && n < nr
  {
    |x| == nc && Columns(x) == EqInvRounds(s, Columns(ws[..nc * (nr + 1)]), nr, n)
  }

  lemma DecStep(x: seq<bv32>, s: State, ws: seq<bv32>, nc: nat, nr: nat, n: nat)
    requires nc * (nr + 1) <= |ws| && |s| == nc && ValidColumns(nc) && 0 < n < nr
    requires DecState(x, s, ws, nc, nr, n - 1)
    ensures |x| == nc
    ensures Start(nc, n) + nc <= |ws| && Start(nc, n + 1) == Start(nc, n) + nc && |Block(ws, nc, Start(nc, n))| == nc
    ensures |InvRound(x, Block(ws, nc, Start(nc, n)))| == nc
    ensures DecState(InvRound(x, Block(ws, nc, Start(nc, n))), s, ws, nc, nr, n)
  {
    ColumnsOfBlock(ws, nc, nr, n);
    StartStep(nc, n);
    InvRoundIsFipsRound(x, Block(ws, nc, Start(nc, n)));
  }

  lemma DecLastStep(x: seq<bv32>, s: State, ws: seq<bv32>, nc: nat, nr: nat)
    requires nc * (nr + 1) <= |ws| && |s| == nc && ValidColumns(nc) && 0 < nr
    requires DecState(x, s, ws, nc, nr, nr - 1)
    ensures |x| == nc
    ensures Start(nc, nr) + nc <= |ws| && |Block(ws, nc, Start(nc, nr))| == nc
    ensures |InvLastRound(x, Block(ws, nc, Start(nc, nr)))| == nc
    ensures Columns(InvLastRound(x, Block(ws, nc, Start(nc, nr)))) == EqInvCipher(s, Columns(ws[..nc * (nr + 1)]), nr)
  {
    hide AddRoundKey, SubBytes, InvSubBytes, ShiftRows, InvShiftRows, InvLrnd;
    ColumnsOfBlock(ws, nc, nr, nr);
    InvLastRoundIsFipsRound(x, Block(ws, nc, Start(nc, nr)));
  }

  // ---------- Whole contexts ----------

  predicate ValidKey(key: Bytes) {
    |key| == 16 || |key| == 24 || |key| == 32
  }

  function EncryptBytes(key: Bytes, nc: nat, block: Bytes): (c: Bytes)
    requires ValidColumns(nc) && ValidKey(key) && |block| == 4 * nc
    ensures |c| == 4 * nc
  {
    ToBytes(Cipher(ToState(block), KeyExpansion(ToState(key), nc), RoundCount(|key| / 4, nc)))
  }

  function DecryptBytes(key: Bytes, nc: nat, block: Bytes): (p: Bytes)
    requires ValidColumns(nc) && ValidKey(key) && |block| == 4 * nc
    ensures |p| == 4 * nc
  {
    ToBytes(InvCipher(ToState(block), KeyExpansion(ToState(key), nc), RoundCount(|key| / 4, nc)))
  }

  // For every key of 16, 24 or 32 bytes and every block of 4, 6 or 8 columns.
  lemma DecryptUndoesEncrypt(key: Bytes, nc: nat, block: Bytes)
    requires ValidColumns(nc) && ValidKey(key) && |block| == 4 * nc
    ensures DecryptBytes(key, nc, EncryptBytes(key, nc, block)) == block
  {
    hide ToBytes, ToState, KeyExpansion, Cipher, InvCipher;
    StateSize(block);
    StateSize(key);
    var ew, nr := KeyExpansion(ToState(key), nc), RoundCount(|key| / 4, nc);
    var s := ToState(block);
    ToStateToBytes(Cipher(s, ew, nr));
    InvCipherUndoesCipher(s, ew, nr);
    ToBytesToState(block);
  }

  // What aes_decrypt computes with the schedule of SetKey is FIPS 197 decryption.
  lemma ScheduleDecrypts(key: Bytes, nc: nat, block: Bytes, dw: State)
    requires ValidColumns(nc) && ValidKey(key) && |block| == 4 * nc
    requires var nr := RoundCount(|key| / 4, nc); var ew := KeyExpansion(ToState(key), nc);
      && IsSchedule(dw, nc, nr) && IsSchedule(ew, nc, nr) && IsInverseSchedule(dw, ew, nc, nr)
    ensures |ToState(block)| == nc
    ensures ToBytes(EqInvCipher(ToState(block), dw, RoundCount(|key| / 4, nc))) == DecryptBytes(key, nc, block)
  {
    hide ToBytes, ToState, KeyExpansion, EqInvCipher, InvCipher, IsInverseSchedule, RoundCount;
    StateSize(block);
    StateSize(key);
    EqInvCipherIsInvCipher(ToState(block), KeyExpansion(ToState(key), nc), dw, RoundCount(|key| / 4, nc));
  }

  lemma FirstWords(words: seq<bv32>, key: seq<Col>)
    requires 0 < |key| <= |words|
    requires forall j | 0 <= j < |key| :: Unpack(words[j]) == key[j]
    ensures Expanded(words, key, |key|)
  {
    hide Unpack;
  }

  lemma ExpandedIsExpansion(words: seq<bv32>, key: seq<Col>, nc: nat)
    requires ValidKeyWords(|key|) && ValidColumns(nc)
    requires Expanded(words, key, SpanWords(|key|, nc))
    ensures ScheduleWords(|key|, nc) <= |words|
    ensures Columns(words[..ScheduleWords(|key|, nc)]) == KeyExpansion(key, nc)
  {
    hide Unpack, KeyWord, SpanWords;
    SpanIsTight(|key|, nc);
  }
}
