/** The table-driven round functions on 32-bit words, and that each one computes a column of
    the round transformations of FIPS 197. Byte 0 of a word is its least significant byte. */
module AesTables {
  import opened SBoxes
  import opened Fips197

  function BVal(w: bv32, n: nat): bv8
    requires n < 4
  {
    match n
    case 0 => (w & 0xFF) as bv8
    case 1 => ((w >> 8) & 0xFF) as bv8
    case 2 => ((w >> 16) & 0xFF) as bv8
    case _ => ((w >> 24) & 0xFF) as bv8
  }

  function Xor(a: bv32, b: bv32): bv32 {
    a ^ b
  }

  // The macro four_tables adds four table entries.
  function Xor4(a: bv32, b: bv32, c: bv32, d: bv32): bv32 {
    Xor(Xor(Xor(a, b), c), d)
  }

  function BytesToWord(b0: bv8, b1: bv8, b2: bv8, b3: bv8): bv32 {
    (b3 as bv32 << 24) | (b2 as bv32 << 16) | (b1 as bv32 << 8) | (b0 as bv32)
  }

  // The bytes of a word move up n positions, with wrap-around.
  function Upr(w: bv32, n: nat): bv32
    requires n < 4
  {
    match n
    case 0 => w
    case 1 => (w << 8) | (w >> 24)
    case 2 => (w << 16) | (w >> 16)
    case _ => (w << 24) | (w >> 8)
  }

  // The field multiplications of gen_tabs.
  function FFmul02(x: bv8): bv8 {
    ((x & 0x7F) << 1) ^ (if x & 0x80 != 0 then 0x1B else 0)
  }

  function FFmul03(x: bv8): bv8 { x ^ FFmul02(x) }

  function FFmul09(x: bv8): bv8 { x ^ FFmul02(FFmul02(FFmul02(x))) }

  function FFmul0b(x: bv8): bv8 { x ^ FFmul02(x ^ FFmul02(FFmul02(x))) }

  function FFmul0d(x: bv8): bv8 { x ^ FFmul02(FFmul02(x ^ FFmul02(x))) }

  function FFmul0e(x: bv8): bv8 { FFmul02(x ^ FFmul02(x ^ FFmul02(x))) }

  // Entry x of table n of ft_tab, fl_tab, it_tab, il_tab and im_tab.
  function FtTab(n: nat, x: bv8): bv32
    requires n < 4
  {
    var b := SBox(x);
    Upr(BytesToWord(FFmul02(b), b, b, FFmul03(b)), n)
  }

  function FlTab(n: nat, x: bv8): bv32
    requires n < 4
  {
    Upr(BytesToWord(SBox(x), 0, 0, 0), n)
  }

  function ImTab(n: nat, x: bv8): bv32
    requires n < 4
  {
    Upr(BytesToWord(FFmul0e(x), FFmul09(x), FFmul0d(x), FFmul0b(x)), n)
  }

  function ItTab(n: nat, x: bv8): bv32
    requires n < 4
  {
    ImTab(n, InvSBox(x))
  }

  function IlTab(n: nat, x: bv8): bv32
    requires n < 4
  {
    Upr(BytesToWord(InvSBox(x), 0, 0, 0), n)
  }

  // The macro ls_box: a substituted word, its bytes moved up c positions.
  function LsBox(x: bv32, c: nat): bv32
    requires c < 4
  {
    Xor4(FlTab(0, BVal(x, (4 - c) % 4)), FlTab(1, BVal(x, (5 - c) % 4)),
         FlTab(2, BVal(x, (6 - c) % 4)), FlTab(3, BVal(x, (7 - c) % 4)))
  }

  function InvMcol(x: bv32): bv32 {
    Xor4(ImTab(0, BVal(x, 0)), ImTab(1, BVal(x, 1)), ImTab(2, BVal(x, 2)), ImTab(3, BVal(x, 3)))
  }

  // The macro fwd_var: the input column that row r of output column c reads.
  function FwdVar(nc: nat, r: nat, c: nat): nat {
    if r == 0 then c
    else if r == 1 then
      if c == 0 then 1 else if c == 1 then 2 else if c == 2 then 3
      else if c == 3 then if nc == 4 then 0 else 4
      else if c == 4 then 5
      else if c == 5 then if nc == 8 then 6 else 0
      else if c == 6 then 7 else 0
    else if r == 2 then
      if c == 0 then if nc == 8 then 3 else 2
      else if c == 1 then if nc == 8 then 4 else 3
      else if c == 2 then if nc == 4 then 0 else if nc == 8 then 5 else 4
      else if c == 3 then if nc == 4 then 1 else if nc == 8 then 6 else 5
      else if c == 4 then if nc == 8 then 7 else 0
      else if c == 5 then if nc == 8 then 0 else 1
      else if c == 6 then 1 else 2
    else
      if c == 0 then if nc == 8 then 4 else 3
      else if c == 1 then if nc == 4 then 0 else if nc == 8 then 5 else 4
      else if c == 2 then if nc == 4 then 1 else if nc == 8 then 6 else 5
      else if c == 3 then if nc == 4 then 2 else if nc == 8 then 7 else 0
      else if c == 4 then if nc == 8 then 0 else 1
      else if c == 5 then if nc == 8 then 1 else 2
      else if c == 6 then 2 else 3
  }

  // The macro inv_var.
  function InvVar(nc: nat, r: nat, c: nat): nat {
    if r == 0 then c
    else if r == 1 then
      if c == 0 then if nc == 4 then 3 else if nc == 8 then 7 else 5
      else if c == 1 then 0 else if c == 2 then 1 else if c == 3 then 2
      else if c == 4 then 3 else if c == 5 then 4 else if c == 6 then 5 else 6
    else if r == 2 then
      if c == 0 then if nc == 4 then 2 else if nc == 8 then 5 else 4
      else if c == 1 then if nc == 4 then 3 else if nc == 8 then 6 else 5
      else if c == 2 then if nc == 8 then 7 else 0
      else if c == 3 then if nc == 8 then 0 else 1
      else if c == 4 then if nc == 8 then 1 else 2
      else if c == 5 then if nc == 8 then 2 else 3
      else if c == 6 then 3 else 4
    else
      if c == 0 then if nc == 4 then 1 else if nc == 8 then 4 else 3
      else if c == 1 then if nc == 4 then 2 else if nc == 8 then 5 else 4
      else if c == 2 then if nc == 4 then 3 else if nc == 8 then 6 else 5
      else if c == 3 then if nc == 8 then 7 else 0
      else if c == 4 then if nc == 8 then 0 else 1
      else if c == 5 then if nc == 8 then 1 else 2
      else if c == 6 then 2 else 3
  }

  // The column pickers are the row shifts: fwd_var reads to the right, inv_var to the left.
  lemma PickersAreRowShifts(nc: nat, r: nat, c: nat)
    requires ValidColumns(nc) && r < 4 && c < nc
    ensures FwdVar(nc, r, c) == LeftSource(nc, c, r)
    ensures InvVar(nc, r, c) == RightSource(nc, c, r)
  {
    PickLeft(nc, r, c);
    PickRight(nc, r, c);
  }

  lemma PickLeft(nc: nat, r: nat, c: nat)
    requires ValidColumns(nc) && r < 4 && c < nc
    ensures FwdVar(nc, r, c) == LeftSource(nc, c, r)
  {
    WrapOnce(c + RowShift(nc, r), nc);
  }

  lemma PickRight(nc: nat, r: nat, c: nat)
    requires ValidColumns(nc) && r < 4 && c < nc
    ensures InvVar(nc, r, c) == RightSource(nc, c, r)
  {
    WrapOnce(c + nc - RowShift(nc, r), nc);
  }

  // Column c after a full round, a last round, and their inverses, with key word k.
  function FwdRnd(x: seq<bv32>, k: bv32, c: nat): bv32
    requires ValidColumns(|x|) && c < |x|
  {
    PickersInRange(|x|, c);
    Xor(k, Xor4(FtTab(0, BVal(x[FwdVar(|x|, 0, c)], 0)), FtTab(1, BVal(x[FwdVar(|x|, 1, c)], 1)),
                FtTab(2, BVal(x[FwdVar(|x|, 2, c)], 2)), FtTab(3, BVal(x[FwdVar(|x|, 3, c)], 3))))
  }

  function FwdLrnd(x: seq<bv32>, k: bv32, c: nat): bv32
    requires ValidColumns(|x|) && c < |x|
  {
    PickersInRange(|x|, c);
    Xor(k, Xor4(FlTab(0, BVal(x[FwdVar(|x|, 0, c)], 0)), FlTab(1, BVal(x[FwdVar(|x|, 1, c)], 1)),
                FlTab(2, BVal(x[FwdVar(|x|, 2, c)], 2)), FlTab(3, BVal(x[FwdVar(|x|, 3, c)], 3))))
  }

  function InvRnd(x: seq<bv32>, k: bv32, c: nat): bv32
    requires ValidColumns(|x|) && c < |x|
  {
    PickersInRange(|x|, c);
    Xor(k, Xor4(ItTab(0, BVal(x[InvVar(|x|, 0, c)], 0)), ItTab(1, BVal(x[InvVar(|x|, 1, c)], 1)),
                ItTab(2, BVal(x[InvVar(|x|, 2, c)], 2)), ItTab(3, BVal(x[InvVar(|x|, 3, c)], 3))))
  }

  function InvLrnd(x: seq<bv32>, k: bv32, c: nat): bv32
    requires ValidColumns(|x|) && c < |x|
  {
    PickersInRange(|x|, c);
    Xor(k, Xor4(IlTab(0, BVal(x[InvVar(|x|, 0, c)], 0)), IlTab(1, BVal(x[InvVar(|x|, 1, c)], 1)),
                IlTab(2, BVal(x[InvVar(|x|, 2, c)], 2)), IlTab(3, BVal(x[InvVar(|x|, 3, c)], 3))))
  }

  lemma PickersInRange(nc: nat, c: nat)
    requires ValidColumns(nc) && c < nc
    ensures FwdVar(nc, 0, c) < nc && FwdVar(nc, 1, c) < nc && FwdVar(nc, 2, c) < nc && FwdVar(nc, 3, c) < nc
    ensures InvVar(nc, 0, c) < nc && InvVar(nc, 1, c) < nc && InvVar(nc, 2, c) < nc && InvVar(nc, 3, c) < nc
  {
  }

  // ---------- Words as columns of bytes ----------

  function Unpack(w: bv32): Col {
    Col(BVal(w, 0), BVal(w, 1), BVal(w, 2), BVal(w, 3))
  }

  function Columns(ws: seq<bv32>): State {
    seq(|ws|, c requires 0 <= c < |ws| => Unpack(ws[c]))
  }

  lemma XorBytes01(a: bv32, b: bv32)
    ensures BVal(Xor(a, b), 0) == Sum2(BVal(a, 0), BVal(b, 0))
    ensures BVal(Xor(a, b), 1) == Sum2(BVal(a, 1), BVal(b, 1))
  {
  }

  lemma XorBytes23(a: bv32, b: bv32)
    ensures BVal(Xor(a, b), 2) == Sum2(BVal(a, 2), BVal(b, 2))
    ensures BVal(Xor(a, b), 3) == Sum2(BVal(a, 3), BVal(b, 3))
  {
  }

  lemma UnpackXor(a: bv32, b: bv32)
    ensures Unpack(Xor(a, b)) == AddCol(Unpack(a), Unpack(b))
  {
    hide BVal, Xor, Sum2;
    XorBytes01(a, b);
    XorBytes23(a, b);
  }

  lemma UnpackBytes(b0: bv8, b1: bv8, b2: bv8, b3: bv8)
    ensures Unpack(BytesToWord(b0, b1, b2, b3)) == Col(b0, b1, b2, b3)
  {
  }

  lemma UnpackUpr1(w: bv32)
    ensures var u := Unpack(w); Unpack(Upr(w, 1)) == Col(u.r3, u.r0, u.r1, u.r2)
  {
  }

  lemma UnpackUpr2(w: bv32)
    ensures var u := Unpack(w); Unpack(Upr(w, 2)) == Col(u.r2, u.r3, u.r0, u.r1)
  {
  }

  lemma UnpackUpr3(w: bv32)
    ensures var u := Unpack(w); Unpack(Upr(w, 3)) == Col(u.r1, u.r2, u.r3, u.r0)
  {
  }

  function Sum4Left(a: bv8, b: bv8, c: bv8, d: bv8): bv8 {
    Sum2(Sum2(Sum2(a, b), c), d)
  }

  // Four words, moved up by 0, 1, 2 and 3 positions and added to a key word.
  lemma UnpackFour(k: bv32, w0: bv32, w1: bv32, w2: bv32, w3: bv32)
    ensures
      var a, b, c, d := Unpack(w0), Unpack(w1), Unpack(w2), Unpack(w3);
      Unpack(Xor(k, Xor4(Upr(w0, 0), Upr(w1, 1), Upr(w2, 2), Upr(w3, 3)))) ==
      AddCol(Unpack(k),
             Col(Sum4Left(a.r0, b.r3, c.r2, d.r1), Sum4Left(a.r1, b.r0, c.r3, d.r2),
                 Sum4Left(a.r2, b.r1, c.r0, d.r3), Sum4Left(a.r3, b.r2, c.r1, d.r0)))
  {
    hide Unpack, Upr, Xor, Sum2;
    assert Upr(w0, 0) == w0 by { UprZero(w0); }
    var u1, u2, u3 := Upr(w1, 1), Upr(w2, 2), Upr(w3, 3);
    UnpackUpr1(w1);
    UnpackUpr2(w2);
    UnpackUpr3(w3);
    UnpackXor(w0, u1);
    UnpackXor(Xor(w0, u1), u2);
    UnpackXor(Xor(Xor(w0, u1), u2), u3);
    UnpackXor(k, Xor4(w0, u1, u2, u3));
  }

  lemma UprZero(w: bv32)
    ensures Upr(w, 0) == w
  {
  }

  lemma FFmulIsGfMul(x: bv8)
    ensures FFmul02(x) == GfMul(x, 2) && FFmul03(x) == GfMul(x, 3)
    ensures FFmul09(x) == GfMul(x, 0x09) && FFmul0b(x) == GfMul(x, 0x0B)
    ensures FFmul0d(x) == GfMul(x, 0x0D) && FFmul0e(x) == GfMul(x, 0x0E)
  {
  }

  // ---------- The round functions compute columns of the FIPS 197 rounds ----------

  lemma FourInOrder(a: bv8, b: bv8, c: bv8, d: bv8)
    ensures Sum4Left(a, b, c, d) == Sum4(a, b, c, d)
    ensures Sum4Left(b, c, d, a) == Sum4(a, b, c, d)
    ensures Sum4Left(c, d, a, b) == Sum4(a, b, c, d)
    ensures Sum4Left(d, a, b, c) == Sum4(a, b, c, d)
  {
    hide Sum2;
    SumAssociative(Sum2(a, b), c, d);
    SumAssociative(Sum2(b, c), d, a);
    SumAssociative(Sum2(c, d), a, b);
    SumAssociative(Sum2(d, a), b, c);
    SumRotate(a, b, c, d);
    SumRotate(b, c, d, a);
    SumRotate(c, d, a, b);
  }

  // Four entries of the forward tables add up to a mixed column.
  lemma MixedTables(k: bv32, x0: bv8, x1: bv8, x2: bv8, x3: bv8)
    ensures Unpack(Xor(k, Xor4(FtTab(0, x0), FtTab(1, x1), FtTab(2, x2), FtTab(3, x3))))
            == AddCol(Unpack(k), MixCol(SubCol(Col(x0, x1, x2, x3))))
  {
    hide SBox, GfMul, FFmul02, FFmul03, Sum2, Unpack, BytesToWord, Upr, Xor;
    var s0, s1, s2, s3 := SBox(x0), SBox(x1), SBox(x2), SBox(x3);
    UnpackFour(k, BytesToWord(FFmul02(s0), s0, s0, FFmul03(s0)), BytesToWord(FFmul02(s1), s1, s1, FFmul03(s1)),
               BytesToWord(FFmul02(s2), s2, s2, FFmul03(s2)), BytesToWord(FFmul02(s3), s3, s3, FFmul03(s3)));
    UnpackBytes(FFmul02(s0), s0, s0, FFmul03(s0));
    UnpackBytes(FFmul02(s1), s1, s1, FFmul03(s1));
    UnpackBytes(FFmul02(s2), s2, s2, FFmul03(s2));
    UnpackBytes(FFmul02(s3), s3, s3, FFmul03(s3));
    FFmulIsGfMul(s0);
    FFmulIsGfMul(s1);
    FFmulIsGfMul(s2);
    FFmulIsGfMul(s3);
    FourInOrder(GfMul(s0, 2), GfMul(s1, 3), s2, s3);
    FourInOrder(GfMul(s1, 2), GfMul(s2, 3), s3, s0);
    FourInOrder(GfMul(s2, 2), GfMul(s3, 3), s0, s1);
    FourInOrder(GfMul(s3, 2), GfMul(s0, 3), s1, s2);
  }

  lemma InvMixedTables(k: bv32, x0: bv8, x1: bv8, x2: bv8, x3: bv8)
    ensures Unpack(Xor(k, Xor4(ImTab(0, x0), ImTab(1, x1), ImTab(2, x2), ImTab(3, x3))))
            == AddCol(Unpack(k), InvMixCol(Col(x0, x1, x2, x3)))
  {
    hide GfMul, FFmul09, FFmul0b, FFmul0d, FFmul0e, Sum2, Unpack, BytesToWord, Upr, Xor;
    UnpackFour(k, BytesToWord(FFmul0e(x0), FFmul09(x0), FFmul0d(x0), FFmul0b(x0)),
               BytesToWord(FFmul0e(x1), FFmul09(x1), FFmul0d(x1), FFmul0b(x1)),
               BytesToWord(FFmul0e(x2), FFmul09(x2), FFmul0d(x2), FFmul0b(x2)),
               BytesToWord(FFmul0e(x3), FFmul09(x3), FFmul0d(x3), FFmul0b(x3)));
    UnpackBytes(FFmul0e(x0), FFmul09(x0), FFmul0d(x0), FFmul0b(x0));
    UnpackBytes(FFmul0e(x1), FFmul09(x1), FFmul0d(x1), FFmul0b(x1));
    UnpackBytes(FFmul0e(x2), FFmul09(x2), FFmul0d(x2), FFmul0b(x2));
    UnpackBytes(FFmul0e(x3), FFmul09(x3), FFmul0d(x3), FFmul0b(x3));
    FFmulIsGfMul(x0);
    FFmulIsGfMul(x1);
    FFmulIsGfMul(x2);
    FFmulIsGfMul(x3);
    FourInOrder(GfMul(x0, 0x0E), GfMul(x1, 0x0B), GfMul(x2, 0x0D), GfMul(x3, 0x09));
    FourInOrder(GfMul(x1, 0x0E), GfMul(x2, 0x0B), GfMul(x3, 0x0D), GfMul(x0, 0x09));
    FourInOrder(GfMul(x2, 0x0E), GfMul(x3, 0x0B), GfMul(x0, 0x0D), GfMul(x1, 0x09));
    FourInOrder(GfMul(x3, 0x0E), GfMul(x0, 0x0B), GfMul(x1, 0x0D), GfMul(x2, 0x09));
  }

  // Four table entries that hold one byte each, in bytes 0, 1, 2 and 3.
  lemma PlainTables(k: bv32, b0: bv8, b1: bv8, b2: bv8, b3: bv8)
    ensures Unpack(Xor(k, Xor4(Upr(BytesToWord(b0, 0, 0, 0), 0), Upr(BytesToWord(b1, 0, 0, 0), 1),
                               Upr(BytesToWord(b2, 0, 0, 0), 2), Upr(BytesToWord(b3, 0, 0, 0), 3))))
            == AddCol(Unpack(k), Col(b0, b1, b2, b3))
  {
    hide Sum2, Unpack, BytesToWord, Upr, Xor;
    UnpackFour(k, BytesToWord(b0, 0, 0, 0), BytesToWord(b1, 0, 0, 0),
               BytesToWord(b2, 0, 0, 0), BytesToWord(b3, 0, 0, 0));
    UnpackBytes(b0, 0, 0, 0);
    UnpackBytes(b1, 0, 0, 0);
    UnpackBytes(b2, 0, 0, 0);
    UnpackBytes(b3, 0, 0, 0);
    AddZeros(b0);
    AddZeros(b1);
    AddZeros(b2);
    AddZeros(b3);
  }

  lemma AddZeros(b: bv8)
    ensures Sum4Left(b, 0, 0, 0) == b && Sum4Left(0, b, 0, 0) == b
    ensures Sum4Left(0, 0, b, 0) == b && Sum4Left(0, 0, 0, b) == b
  {
  }

  // The words of one round, and the state FIPS 197 gives for them.
  function FwdRound(x: seq<bv32>, k: seq<bv32>): seq<bv32>
    requires ValidColumns(|x|) && |k| == |x|
  {
    seq(|x|, c requires 0 <= c < |x| => FwdRnd(x, k[c], c))
  }

  function FwdLastRound(x: seq<bv32>, k: seq<bv32>): seq<bv32>
    requires ValidColumns(|x|) && |k| == |x|
  {
    seq(|x|, c requires 0 <= c < |x| => FwdLrnd(x, k[c], c))
  }

  function InvRound(x: seq<bv32>, k: seq<bv32>): seq<bv32>
    requires ValidColumns(|x|) && |k| == |x|
  {
    seq(|x|, c requires 0 <= c < |x| => InvRnd(x, k[c], c))
  }

  function InvLastRound(x: seq<bv32>, k: seq<bv32>): seq<bv32>
    requires ValidColumns(|x|) && |k| == |x|
  {
    seq(|x|, c requires 0 <= c < |x| => InvLrnd(x, k[c], c))
  }

  lemma AddColCommutes(a: Col, b: Col)
    ensures AddCol(a, b) == AddCol(b, a)
  {
  }

  // A table-driven round is SubBytes, ShiftRows, MixColumns and AddRoundKey.
  lemma FwdRoundIsFipsRound(x: seq<bv32>, k: seq<bv32>)
    requires ValidColumns(|x|) && |k| == |x|
    ensures Columns(FwdRound(x, k))
            == AddRoundKey(MixColumns(ShiftRows(SubBytes(Columns(x)))), Columns(k))
  {
    hide SBox, MixCol, AddCol, FtTab, Xor4, Xor, BVal, FwdVar, LeftSource;
    var nc := |x|;
    var before := ShiftRows(SubBytes(Columns(x)));
    forall c | 0 <= c < nc
      ensures Unpack(FwdRnd(x, k[c], c)) == AddCol(MixCol(before[c]), Unpack(k[c]))
    {
      PickersInRange(nc, c);
      PickerColumns(nc, c);
      var x0, x1 := BVal(x[FwdVar(nc, 0, c)], 0), BVal(x[FwdVar(nc, 1, c)], 1);
      var x2, x3 := BVal(x[FwdVar(nc, 2, c)], 2), BVal(x[FwdVar(nc, 3, c)], 3);
      MixedTables(k[c], x0, x1, x2, x3);
      assert before[c] == SubCol(Col(x0, x1, x2, x3));
      AddColCommutes(Unpack(k[c]), MixCol(before[c]));
    }
  }

  lemma PickerColumns(nc: nat, c: nat)
    requires ValidColumns(nc) && c < nc
    ensures FwdVar(nc, 0, c) == c && FwdVar(nc, 1, c) == LeftSource(nc, c, 1)
    ensures FwdVar(nc, 2, c) == LeftSource(nc, c, 2) && FwdVar(nc, 3, c) == LeftSource(nc, c, 3)
    ensures InvVar(nc, 0, c) == c && InvVar(nc, 1, c) == RightSource(nc, c, 1)
    ensures InvVar(nc, 2, c) == RightSource(nc, c, 2) && InvVar(nc, 3, c) == RightSource(nc, c, 3)
  {
    PickersAreRowShifts(nc, 0, c);
    PickersAreRowShifts(nc, 1, c);
    PickersAreRowShifts(nc, 2, c);
    PickersAreRowShifts(nc, 3, c);
    WrapOnce(c, nc);
    WrapOnce(c + nc, nc);
  }

  // The last round leaves MixColumns out.
  lemma FwdLastRoundIsFipsRound(x: seq<bv32>, k: seq<bv32>)
    requires ValidColumns(|x|) && |k| == |x|
    ensures Columns(FwdLastRound(x, k)) == AddRoundKey(ShiftRows(SubBytes(Columns(x))), Columns(k))
  {
    hide SBox, AddCol, Xor4, Xor, BVal, FwdVar, LeftSource, Upr, BytesToWord;
    var nc := |x|;
    var before := ShiftRows(SubBytes(Columns(x)));
    forall c | 0 <= c < nc
      ensures Unpack(FwdLrnd(x, k[c], c)) == AddCol(before[c], Unpack(k[c]))
    {
      PickersInRange(nc, c);
      PickerColumns(nc, c);
      var x0, x1 := BVal(x[FwdVar(nc, 0, c)], 0), BVal(x[FwdVar(nc, 1, c)], 1);
      var x2, x3 := BVal(x[FwdVar(nc, 2, c)], 2), BVal(x[FwdVar(nc, 3, c)], 3);
      PlainTables(k[c], SBox(x0), SBox(x1), SBox(x2), SBox(x3));
      assert before[c] == SubCol(Col(x0, x1, x2, x3));
      AddColCommutes(Unpack(k[c]), before[c]);
    }
  }

  // An inverse round is a round of the equivalent inverse cipher of section 5.3.5.
  lemma InvRoundIsFipsRound(x: seq<bv32>, k: seq<bv32>)
    requires ValidColumns(|x|) && |k| == |x|
    ensures Columns(InvRound(x, k))
            == AddRoundKey(InvMixColumns(InvShiftRows(InvSubBytes(Columns(x)))), Columns(k))
  {
    hide InvSBox, InvMixCol, AddCol, ImTab, Xor4, Xor, BVal, InvVar, RightSource;
    var nc := |x|;
    var before := InvShiftRows(InvSubBytes(Columns(x)));
    forall c | 0 <= c < nc
      ensures Unpack(InvRnd(x, k[c], c)) == AddCol(InvMixCol(before[c]), Unpack(k[c]))
    {
      PickersInRange(nc, c);
      PickerColumns(nc, c);
      var x0, x1 := BVal(x[InvVar(nc, 0, c)], 0), BVal(x[InvVar(nc, 1, c)], 1);
      var x2, x3 := BVal(x[InvVar(nc, 2, c)], 2), BVal(x[InvVar(nc, 3, c)], 3);
      InvMixedTables(k[c], InvSBox(x0), InvSBox(x1), InvSBox(x2), InvSBox(x3));
      assert before[c] == InvSubCol(Col(x0, x1, x2, x3));
      AddColCommutes(Unpack(k[c]), InvMixCol(before[c]));
    }
  }

  lemma InvLastRoundIsFipsRound(x: seq<bv32>, k: seq<bv32>)
    requires ValidColumns(|x|) && |k| == |x|
    ensures Columns(InvLastRound(x, k)) == AddRoundKey(InvShiftRows(InvSubBytes(Columns(x))), Columns(k))
  {
    hide InvSBox, AddCol, Xor4, Xor, BVal, InvVar, RightSource, Upr, BytesToWord;
    var nc := |x|;
    var before := InvShiftRows(InvSubBytes(Columns(x)));
    forall c | 0 <= c < nc
      ensures Unpack(InvLrnd(x, k[c], c)) == AddCol(before[c], Unpack(k[c]))
    {
      PickersInRange(nc, c);
      PickerColumns(nc, c);
      var x0, x1 := BVal(x[InvVar(nc, 0, c)], 0), BVal(x[InvVar(nc, 1, c)], 1);
      var x2, x3 := BVal(x[InvVar(nc, 2, c)], 2), BVal(x[InvVar(nc, 3, c)], 3);
      PlainTables(k[c], InvSBox(x0), InvSBox(x1), InvSBox(x2), InvSBox(x3));
      assert before[c] == InvSubCol(Col(x0, x1, x2, x3));
      AddColCommutes(Unpack(k[c]), before[c]);
    }
  }

  // The macro inv_mcol mixes one key word backwards.
  lemma InvMcolIsInvMixCol(x: bv32)
    ensures Unpack(InvMcol(x)) == InvMixCol(Unpack(x))
  {
    hide InvMixCol, AddCol, ImTab, Xor4, Xor, BVal;
    InvMixedTables(0, BVal(x, 0), BVal(x, 1), BVal(x, 2), BVal(x, 3));
    XorZero(InvMcol(x));
    AddColZero(InvMixCol(Unpack(x)));
  }

  lemma XorZero(w: bv32)
    ensures Xor(0, w) == w
  {
  }

  lemma AddColZero(a: Col)
    ensures AddCol(Unpack(0), a) == a && AddCol(a, Unpack(0)) == a
  {
  }

  // ls_box(x, 3) substitutes the rotated word and ls_box(x, 0) the word itself.
  lemma LsBoxIsSubWord(x: bv32)
    ensures Unpack(LsBox(x, 3)) == SubCol(RotCol(Unpack(x)))
    ensures Unpack(LsBox(x, 0)) == SubCol(Unpack(x))
  {
    hide SBox, AddCol, Xor4, Xor, BVal, Upr, BytesToWord;
    PlainTables(0, SBox(BVal(x, 1)), SBox(BVal(x, 2)), SBox(BVal(x, 3)), SBox(BVal(x, 0)));
    PlainTables(0, SBox(BVal(x, 0)), SBox(BVal(x, 1)), SBox(BVal(x, 2)), SBox(BVal(x, 3)));
    XorZero(LsBox(x, 3));
    XorZero(LsBox(x, 0));
    AddColZero(SubCol(RotCol(Unpack(x))));
    AddColZero(SubCol(Unpack(x)));
  }
}
