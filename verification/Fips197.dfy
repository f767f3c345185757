/** The cipher, its inverse and the key expansion as FIPS 197 defines them, on columns of
    bytes. nc is the number of columns of a block: 4 in FIPS 197, and 6 or 8 for the wider
    blocks of Rijndael, whose row offsets differ for 8 columns. */
module Fips197 {
  import opened SBoxes

  datatype Col = Col(r0: bv8, r1: bv8, r2: bv8, r3: bv8)

  type State = seq<Col>

  predicate ValidColumns(nc: nat) {
    nc == 4 || nc == 6 || nc == 8
  }

  function AddCol(a: Col, b: Col): Col {
    Col(Sum2(a.r0, b.r0), Sum2(a.r1, b.r1), Sum2(a.r2, b.r2), Sum2(a.r3, b.r3))
  }

  function SubCol(a: Col): Col {
    Col(SBox(a.r0), SBox(a.r1), SBox(a.r2), SBox(a.r3))
  }

  function InvSubCol(a: Col): Col {
    Col(InvSBox(a.r0), InvSBox(a.r1), InvSBox(a.r2), InvSBox(a.r3))
  }

  // Sums in GF(2^8).
  function Sum2(a: bv8, b: bv8): bv8 {
    a ^ b
  }

  function Sum3(a: bv8, b: bv8, c: bv8): bv8 {
    Sum2(Sum2(a, b), c)
  }

  function Sum4(a: bv8, b: bv8, c: bv8, d: bv8): bv8 {
    Sum2(Sum2(a, b), Sum2(c, d))
  }

  // Section 5.1.3: a column times the polynomial {03}x^3 + {01}x^2 + {01}x + {02}. Row i of
  // the product is this sum over the column rotated by i.
  function MixRow(a: bv8, b: bv8, c: bv8, d: bv8): bv8 {
    Sum4(GfMul(a, 2), GfMul(b, 3), c, d)
  }

  function MixCol(a: Col): Col {
    Col(MixRow(a.r0, a.r1, a.r2, a.r3), MixRow(a.r1, a.r2, a.r3, a.r0),
        MixRow(a.r2, a.r3, a.r0, a.r1), MixRow(a.r3, a.r0, a.r1, a.r2))
  }

  // Section 5.3.3: the inverse polynomial {0b}x^3 + {0d}x^2 + {09}x + {0e}.
  function InvMixRow(a: bv8, b: bv8, c: bv8, d: bv8): bv8 {
    Sum4(GfMul(a, 0x0E), GfMul(b, 0x0B), GfMul(c, 0x0D), GfMul(d, 0x09))
  }

  function InvMixCol(a: Col): Col {
    Col(InvMixRow(a.r0, a.r1, a.r2, a.r3), InvMixRow(a.r1, a.r2, a.r3, a.r0),
        InvMixRow(a.r2, a.r3, a.r0, a.r1), InvMixRow(a.r3, a.r0, a.r1, a.r2))
  }

  // How far row r of a block with nc columns is shifted (section 5.1.2).
  function RowShift(nc: nat, r: nat): nat
    requires r < 4
  {
    if nc == 8 && r >= 2 then r + 1 else r
  }

  function AddRoundKey(s: State, k: State): State
    requires |s| == |k|
  {
    seq(|s|, c requires 0 <= c < |s| => AddCol(s[c], k[c]))
  }

  function SubBytes(s: State): State {
    seq(|s|, c requires 0 <= c < |s| => SubCol(s[c]))
  }

  function InvSubBytes(s: State): State {
    seq(|s|, c requires 0 <= c < |s| => InvSubCol(s[c]))
  }

  function MixColumns(s: State): State {
    seq(|s|, c requires 0 <= c < |s| => MixCol(s[c]))
  }

  function InvMixColumns(s: State): State {
    seq(|s|, c requires 0 <= c < |s| => InvMixCol(s[c]))
  }

  // The column of the state that supplies row r of column c after shifting rows left or right.
  function LeftSource(nc: nat, c: nat, r: nat): nat
    requires 0 < nc && r < 4
  {
    (c + RowShift(nc, r)) % nc
  }

  function RightSource(nc: nat, c: nat, r: nat): nat
    requires ValidColumns(nc) && r < 4
  {
    (c + nc - RowShift(nc, r)) % nc
  }

  lemma WrapOnce(j: nat, nc: nat)
    requires 0 < nc && j < 2 * nc
    ensures j % nc == if j < nc then j else j - nc
  {
  }

  function ShiftRows(s: State): State {
    var nc := |s|;
    seq(nc, c requires 0 <= c < nc =>
      Col(s[c].r0, s[LeftSource(nc, c, 1)].r1, s[LeftSource(nc, c, 2)].r2, s[LeftSource(nc, c, 3)].r3))
  }

  function InvShiftRows(s: State): State
    requires ValidColumns(|s|)
  {
    var nc := |s|;
    seq(nc, c requires 0 <= c < nc =>
      Col(s[c].r0, s[RightSource(nc, c, 1)].r1, s[RightSource(nc, c, 2)].r2, s[RightSource(nc, c, 3)].r3))
  }

  // Round key i of the schedule w.
  function RoundKey(w: State, nc: nat, i: nat): State
    requires (i + 1) * nc <= |w|
  {
    assert i * nc <= (i + 1) * nc;
    w[i * nc..(i + 1) * nc]
  }

  predicate IsSchedule(w: State, nc: nat, nr: nat) {
    ValidColumns(nc) && 0 < nr && |w| == nc * (nr + 1)
  }

  lemma RoundKeyFits(w: State, nc: nat, nr: nat, i: nat)
    requires IsSchedule(w, nc, nr) && i <= nr
    ensures (i + 1) * nc <= |w|
  {
    assert (i + 1) * nc <= (nr + 1) * nc;
  }

  // The state after the initial key addition and n full rounds (section 5.1).
  function Rounds(s: State, w: State, nr: nat, n: nat): (t: State)
    requires IsSchedule(w, |s|, nr) && n < nr
    ensures |t| == |s|
    decreases n
  {
    RoundKeyFits(w, |s|, nr, n);
    var k := RoundKey(w, |s|, n);
    if n == 0 then AddRoundKey(s, k)
    else AddRoundKey(MixColumns(ShiftRows(SubBytes(Rounds(s, w, nr, n - 1)))), k)
  }

  function Cipher(s: State, w: State, nr: nat): (t: State)
    requires IsSchedule(w, |s|, nr)
    ensures |t| == |s|
  {
    RoundKeyFits(w, |s|, nr, nr);
    AddRoundKey(ShiftRows(SubBytes(Rounds(s, w, nr, nr - 1))), RoundKey(w, |s|, nr))
  }

  // The part of the straightforward inverse cipher that removes rounds n, ..., 1 and the
  // initial key addition (section 5.3).
  function Peel(t: State, w: State, nr: nat, n: nat): (s: State)
    requires IsSchedule(w, |t|, nr) && n < nr
    ensures |s| == |t|
    decreases n
  {
    RoundKeyFits(w, |t|, nr, n);
    var k := RoundKey(w, |t|, n);
    if n == 0 then AddRoundKey(t, k)
    else Peel(InvSubBytes(InvShiftRows(InvMixColumns(AddRoundKey(t, k)))), w, nr, n - 1)
  }

  function InvCipher(t: State, w: State, nr: nat): (s: State)
    requires IsSchedule(w, |t|, nr)
    ensures |s| == |t|
  {
    RoundKeyFits(w, |t|, nr, nr);
    Peel(InvSubBytes(InvShiftRows(AddRoundKey(t, RoundKey(w, |t|, nr)))), w, nr, nr - 1)
  }

  // The equivalent inverse cipher of section 5.3.5: the rounds have the shape of the forward
  // rounds and use a schedule dw of their own.
  function EqInvRounds(t: State, dw: State, nr: nat, n: nat): (s: State)
    requires IsSchedule(dw, |t|, nr) && n < nr
    ensures |s| == |t|
    decreases n
  {
    RoundKeyFits(dw, |t|, nr, n);
    var k := RoundKey(dw, |t|, n);
    if n == 0 then AddRoundKey(t, k)
    else AddRoundKey(InvMixColumns(InvShiftRows(InvSubBytes(EqInvRounds(t, dw, nr, n - 1)))), k)
  }

  function EqInvCipher(t: State, dw: State, nr: nat): (s: State)
    requires IsSchedule(dw, |t|, nr)
    ensures |s| == |t|
  {
    RoundKeyFits(dw, |t|, nr, nr);
    AddRoundKey(InvShiftRows(InvSubBytes(EqInvRounds(t, dw, nr, nr - 1))), RoundKey(dw, |t|, nr))
  }

  // dw holds the round keys of w in reverse order, all but the two end ones passed through
  // InvMixColumns.
  ghost predicate IsInverseSchedule(dw: State, w: State, nc: nat, nr: nat)
    requires IsSchedule(w, nc, nr) && IsSchedule(dw, nc, nr)
  {
    forall i: nat | i <= nr ::
      (RoundKeyFits(w, nc, nr, nr - i); RoundKeyFits(dw, nc, nr, i);
       RoundKey(dw, nc, i) ==
         if i == 0 || i == nr then RoundKey(w, nc, nr - i) else InvMixColumns(RoundKey(w, nc, nr - i)))
  }

  // Rcon (section 5.2): the powers of x.
  function Rcon(i: nat): bv8
    requires 0 < i
  {
    if i == 1 then 1 else XTime(Rcon(i - 1))
  }

  function RotCol(a: Col): Col {
    Col(a.r1, a.r2, a.r3, a.r0)
  }

  // Word i of the expanded key (section 5.2), for a key of |key| words.
  function KeyWord(key: seq<Col>, i: nat): Col
    requires 0 < |key|
  {
    var nk := |key|;
    if i < nk then key[i]
    else
      var temp := KeyWord(key, i - 1);
      var mixed :=
        if i % nk == 0 then AddCol(SubCol(RotCol(temp)), Col(Rcon(i / nk), 0, 0, 0))
        else if nk > 6 && i % nk == 4 then SubCol(temp)
        else temp;
      AddCol(KeyWord(key, i - nk), mixed)
  }

  function RoundCount(nk: nat, nc: nat): nat {
    (if nk > nc then nk else nc) + 6
  }

  function KeyExpansion(key: seq<Col>, nc: nat): (w: State)
    requires 0 < |key|
    ensures |w| == nc * (RoundCount(|key|, nc) + 1)
  {
    seq(nc * (RoundCount(|key|, nc) + 1), i requires 0 <= i => KeyWord(key, i))
  }

  // ---------- Undoing each transformation ----------

  lemma XTimeLinear(a: bv8, b: bv8)
    ensures XTime(Sum2(a, b)) == Sum2(XTime(a), XTime(b))
  {
  }

  lemma GfMulConstants(x: bv8)
    ensures var x2 := XTime(x); var x4 := XTime(x2); var x8 := XTime(x4);
      && GfMul(x, 2) == x2 && GfMul(x, 3) == Sum2(x, x2)
      && GfMul(x, 0x09) == Sum2(x, x8) && GfMul(x, 0x0B) == Sum3(x, x2, x8)
      && GfMul(x, 0x0D) == Sum3(x, x4, x8) && GfMul(x, 0x0E) == Sum3(x2, x4, x8)
  {
  }

  lemma SumAssociative(a: bv8, b: bv8, c: bv8)
    ensures Sum2(a, Sum2(b, c)) == Sum2(Sum2(a, b), c)
  {
  }

  lemma SumCommutative(a: bv8, b: bv8)
    ensures Sum2(a, b) == Sum2(b, a)
  {
  }

  lemma Regroup2(a: bv8, b: bv8, c: bv8, d: bv8)
    ensures Sum2(Sum2(a, b), Sum2(c, d)) == Sum2(Sum2(a, c), Sum2(b, d))
  {
    hide Sum2;
    SumAssociative(a, b, Sum2(c, d));
    SumAssociative(b, c, d);
    SumCommutative(b, c);
    SumAssociative(c, b, d);
    SumAssociative(a, c, Sum2(b, d));
  }

  lemma Regroup3(a: bv8, b: bv8, c: bv8, d: bv8, e: bv8, f: bv8)
    ensures Sum3(Sum2(a, b), Sum2(c, d), Sum2(e, f)) == Sum2(Sum3(a, c, e), Sum3(b, d, f))
  {
    hide Sum2;
    Regroup2(a, b, c, d);
    Regroup2(Sum2(a, c), Sum2(b, d), e, f);
  }

  lemma Regroup4(a: bv8, b: bv8, c: bv8, d: bv8, e: bv8, f: bv8, g: bv8, h: bv8)
    ensures Sum4(Sum2(a, b), Sum2(c, d), Sum2(e, f), Sum2(g, h)) == Sum2(Sum4(a, c, e, g), Sum4(b, d, f, h))
  {
    hide Sum2;
    Regroup2(a, b, c, d);
    Regroup2(e, f, g, h);
    Regroup2(Sum2(a, c), Sum2(b, d), Sum2(e, g), Sum2(f, h));
  }

  lemma SumRotate(a: bv8, b: bv8, c: bv8, d: bv8)
    ensures Sum4(b, c, d, a) == Sum4(a, b, c, d)
  {
    hide Sum2;
    SumCommutative(Sum2(b, c), Sum2(d, a));
    SumCommutative(d, a);
    Regroup2(a, d, b, c);
    SumCommutative(d, c);
  }

  // The factors used by InvMixCol.
  predicate InverseFactor(y: bv8) {
    y == 0x0E || y == 0x0B || y == 0x0D || y == 0x09
  }

  lemma GfMulLinear(a: bv8, b: bv8, y: bv8)
    requires InverseFactor(y)
    ensures GfMul(Sum2(a, b), y) == Sum2(GfMul(a, y), GfMul(b, y))
  {
    hide GfMul, XTime, Sum2, Sum3;
    var a2, b2 := XTime(a), XTime(b);
    var a4, b4 := XTime(a2), XTime(b2);
    var a8, b8 := XTime(a4), XTime(b4);
    XTimeLinear(a, b);
    XTimeLinear(a2, b2);
    XTimeLinear(a4, b4);
    GfMulConstants(a);
    GfMulConstants(b);
    GfMulConstants(Sum2(a, b));
    Regroup2(a, b, a8, b8);
    Regroup3(a2, b2, a4, b4, a8, b8);
    Regroup3(a, b, a2, b2, a8, b8);
    Regroup3(a, b, a4, b4, a8, b8);
  }

  lemma GfMulSum4(a: bv8, b: bv8, c: bv8, d: bv8, y: bv8)
    requires InverseFactor(y)
    ensures GfMul(Sum4(a, b, c, d), y) == Sum4(GfMul(a, y), GfMul(b, y), GfMul(c, y), GfMul(d, y))
  {
    hide GfMul, Sum2;
    GfMulLinear(Sum2(a, b), Sum2(c, d), y);
    GfMulLinear(a, b, y);
    GfMulLinear(c, d, y);
  }

  lemma InvMixRowLinear(a: bv8, b: bv8, c: bv8, d: bv8, e: bv8, f: bv8, g: bv8, h: bv8)
    ensures InvMixRow(Sum2(a, b), Sum2(c, d), Sum2(e, f), Sum2(g, h))
            == Sum2(InvMixRow(a, c, e, g), InvMixRow(b, d, f, h))
  {
    hide GfMul, Sum2, Sum4;
    GfMulLinear(a, b, 0x0E);
    GfMulLinear(c, d, 0x0B);
    GfMulLinear(e, f, 0x0D);
    GfMulLinear(g, h, 0x09);
    Regroup4(GfMul(a, 0x0E), GfMul(b, 0x0E), GfMul(c, 0x0B), GfMul(d, 0x0B),
             GfMul(e, 0x0D), GfMul(f, 0x0D), GfMul(g, 0x09), GfMul(h, 0x09));
  }

  lemma InvMixColLinear(a: Col, b: Col)
    ensures InvMixCol(AddCol(a, b)) == AddCol(InvMixCol(a), InvMixCol(b))
  {
    hide InvMixRow, Sum2;
    InvMixRowLinear(a.r0, b.r0, a.r1, b.r1, a.r2, b.r2, a.r3, b.r3);
    InvMixRowLinear(a.r1, b.r1, a.r2, b.r2, a.r3, b.r3, a.r0, b.r0);
    InvMixRowLinear(a.r2, b.r2, a.r3, b.r3, a.r0, b.r0, a.r1, b.r1);
    InvMixRowLinear(a.r3, b.r3, a.r0, b.r0, a.r1, b.r1, a.r2, b.r2);
  }

  lemma SumWithItself(x: bv8)
    ensures Sum2(x, x) == 0
  {
  }

  lemma FirstOfNextRow(b: bv8)
    ensures Sum2(GfMul(GfMul(b, 3), 0x0E), GfMul(GfMul(b, 2), 0x0B)) == XTime(XTime(b))
  {
  }

  lemma LastOfNextRow(b: bv8)
    ensures Sum2(GfMul(b, 0x0D), GfMul(b, 0x09)) == XTime(XTime(b))
  {
  }

  lemma FirstOfLastRow(d: bv8)
    ensures Sum2(GfMul(d, 0x0E), GfMul(d, 0x0B)) == Sum2(d, XTime(XTime(d)))
  {
  }

  lemma FirstOfOppositeRow(c: bv8)
    ensures var x2 := XTime(c); var x16 := XTime(XTime(XTime(x2)));
      Sum2(GfMul(c, 0x0E), GfMul(GfMul(c, 3), 0x0B)) == Sum3(c, x2, x16)
  {
    hide GfMul, XTime, Sum2, Sum3;
    var x2 := XTime(c);
    var x4 := XTime(x2);
    GfMulConstants(c);
    GfMulConstants(x2);
    GfMulLinear(c, x2, 0x0B);
    FirstOfLastRow(c);
    SumAssociative(GfMul(c, 0x0E), GfMul(c, 0x0B), GfMul(x2, 0x0B));
    SecondCancels(c, x4, x2, XTime(XTime(x4)));
  }

  lemma LastOfOppositeRow(c: bv8)
    ensures var x2 := XTime(c); var x16 := XTime(XTime(XTime(x2)));
      Sum2(GfMul(GfMul(c, 2), 0x0D), GfMul(c, 0x09)) == Sum3(c, x2, x16)
  {
    hide GfMul, XTime, Sum2, Sum3;
    var x2 := XTime(c);
    var x8 := XTime(XTime(x2));
    GfMulConstants(c);
    GfMulConstants(x2);
    SumCommutative(Sum2(c, x8), Sum3(x2, x8, XTime(x8)));
    SecondCancels(c, x8, x2, XTime(x8));
  }

  lemma SecondCancels(p: bv8, q: bv8, r: bv8, s: bv8)
    ensures Sum2(Sum2(p, q), Sum3(r, q, s)) == Sum3(p, r, s)
  {
    hide Sum2;
    SumCommutative(r, q);
    SumAssociative(q, r, s);
    SumAssociative(Sum2(p, q), q, Sum2(r, s));
    SumTwice(p, q);
    SumAssociative(p, r, s);
  }

  lemma SumTwice(p: bv8, q: bv8)
    ensures Sum2(Sum2(p, q), q) == p
  {
  }

  lemma LastOfLastRow(d: bv8)
    ensures Sum2(GfMul(GfMul(d, 3), 0x0D), GfMul(GfMul(d, 2), 0x09)) == Sum2(d, XTime(XTime(d)))
  {
  }

  // The product of the two polynomials is 1: the coefficient of the byte's own row is one and
  // those of the three other rows are zero.
  lemma MixProductOwnRow(a: bv8)
    ensures Sum4(GfMul(GfMul(a, 2), 0x0E), GfMul(a, 0x0B), GfMul(a, 0x0D), GfMul(GfMul(a, 3), 0x09)) == a
  {
  }

  lemma MixProductNextRow(b: bv8)
    ensures Sum4(GfMul(GfMul(b, 3), 0x0E), GfMul(GfMul(b, 2), 0x0B), GfMul(b, 0x0D), GfMul(b, 0x09)) == 0
  {
    hide GfMul, XTime, Sum2;
    FirstOfNextRow(b);
    LastOfNextRow(b);
    SumWithItself(XTime(XTime(b)));
  }

  lemma MixProductOppositeRow(c: bv8)
    ensures Sum4(GfMul(c, 0x0E), GfMul(GfMul(c, 3), 0x0B), GfMul(GfMul(c, 2), 0x0D), GfMul(c, 0x09)) == 0
  {
    hide GfMul, XTime, Sum2;
    FirstOfOppositeRow(c);
    LastOfOppositeRow(c);
    SumWithItself(Sum2(GfMul(c, 0x0E), GfMul(GfMul(c, 3), 0x0B)));
  }

  lemma MixProductLastRow(d: bv8)
    ensures Sum4(GfMul(d, 0x0E), GfMul(d, 0x0B), GfMul(GfMul(d, 3), 0x0D), GfMul(GfMul(d, 2), 0x09)) == 0
  {
    hide GfMul, XTime, Sum2;
    FirstOfLastRow(d);
    LastOfLastRow(d);
    SumWithItself(Sum2(d, XTime(XTime(d))));
  }

  lemma MixRowUndone(a: bv8, b: bv8, c: bv8, d: bv8)
    ensures InvMixRow(MixRow(a, b, c, d), MixRow(b, c, d, a), MixRow(c, d, a, b), MixRow(d, a, b, c)) == a
  {
    hide GfMul, Sum4;
    GfMulSum4(GfMul(a, 2), GfMul(b, 3), c, d, 0x0E);
    GfMulSum4(GfMul(b, 2), GfMul(c, 3), d, a, 0x0B);
    GfMulSum4(GfMul(c, 2), GfMul(d, 3), a, b, 0x0D);
    GfMulSum4(GfMul(d, 2), GfMul(a, 3), b, c, 0x09);
    MixProductOwnRow(a);
    MixProductNextRow(b);
    MixProductOppositeRow(c);
    MixProductLastRow(d);
    var a1, b1, c1, d1 := GfMul(a, 0x0B), GfMul(GfMul(b, 2), 0x0B), GfMul(GfMul(c, 3), 0x0B), GfMul(d, 0x0B);
    var a2, b2, c2, d2 := GfMul(a, 0x0D), GfMul(b, 0x0D), GfMul(GfMul(c, 2), 0x0D), GfMul(GfMul(d, 3), 0x0D);
    var a3, b3, c3, d3 := GfMul(GfMul(a, 3), 0x09), GfMul(b, 0x09), GfMul(c, 0x09), GfMul(GfMul(d, 2), 0x09);
    SumRotate(a1, b1, c1, d1);
    SumRotate(b2, c2, d2, a2);
    SumRotate(a2, b2, c2, d2);
    SumRotate(d3, a3, b3, c3);
    SumRowsByColumn(GfMul(GfMul(a, 2), 0x0E), GfMul(GfMul(b, 3), 0x0E), GfMul(c, 0x0E), GfMul(d, 0x0E),
                    a1, b1, c1, d1, a2, b2, c2, d2, a3, b3, c3, d3);
    Sum4Zero(a);
  }

  lemma Sum4Zero(a: bv8)
    ensures Sum4(a, 0, 0, 0) == a
  {
  }

  lemma SumRowsByColumn(a0: bv8, b0: bv8, c0: bv8, d0: bv8, a1: bv8, b1: bv8, c1: bv8, d1: bv8,
                        a2: bv8, b2: bv8, c2: bv8, d2: bv8, a3: bv8, b3: bv8, c3: bv8, d3: bv8)
    ensures Sum4(Sum4(a0, b0, c0, d0), Sum4(a1, b1, c1, d1), Sum4(a2, b2, c2, d2), Sum4(a3, b3, c3, d3))
            == Sum4(Sum4(a0, a1, a2, a3), Sum4(b0, b1, b2, b3), Sum4(c0, c1, c2, c3), Sum4(d0, d1, d2, d3))
  {
    hide Sum2;
    Regroup4(a0, a1, b0, b1, c0, c1, d0, d1);
    Regroup4(a2, a3, b2, b3, c2, c3, d2, d3);
    Regroup4(Sum2(a0, a1), Sum2(a2, a3), Sum2(b0, b1), Sum2(b2, b3),
             Sum2(c0, c1), Sum2(c2, c3), Sum2(d0, d1), Sum2(d2, d3));
  }

  lemma InvMixColMixCol(a: Col)
    ensures InvMixCol(MixCol(a)) == a
  {
    hide MixRow, InvMixRow;
    MixRowUndone(a.r0, a.r1, a.r2, a.r3);
    MixRowUndone(a.r1, a.r2, a.r3, a.r0);
    MixRowUndone(a.r2, a.r3, a.r0, a.r1);
    MixRowUndone(a.r3, a.r0, a.r1, a.r2);
  }
}
