/** crc8 of misc.c, with char as an unsigned byte. */
module Crc8 {
  import opened Common

  // One bit step.
  function Shift(c: bv8): bv8 {
    if c & 1 != 0 then (c >> 1) ^ 0x8C else c >> 1
  }

  function Shifts(c: bv8, n: nat): bv8 {
    if n == 0 then c else Shift(Shifts(c, n - 1))
  }

  function Mix(c: bv8, b: bv8): bv8 {
    c ^ b
  }

  // The remainder after a message, byte by byte.
  function Crc(c: bv8, m: Bytes): bv8 {
    if m == [] then c else Shifts(Mix(Crc(c, m[..|m| - 1]), m[|m| - 1]), 8)
  }

  // What crc8 returns: zero for an empty message, whatever the start.
  function Result(c: bv8, m: Bytes): bv8 {
    if m == [] then 0 else Crc(c, m)
  }

  method Crc8(start: bv8, message: Bytes) returns (crc: bv8)
    ensures crc == Result(start, message)
  {
    hide Shift, Mix;
    if |message| == 0 {
      return 0;
    }
    crc := start;
    for k := 0 to |message|
      invariant crc == Crc(start, message[..k])
    {
      assert message[..k + 1][..k] == message[..k];
      crc := Mix(crc, message[k]);
      ghost var mixed := crc;
      for i := 0 to 8
        invariant crc == Shifts(mixed, i)
      {
        crc := Step(crc);
      }
    }
    assert message[..|message|] == message;
  }

  method Step(c: bv8) returns (r: bv8)
    ensures r == Shift(c)
  {
    if c & 0x01 != 0 {
      r := (c >> 1) ^ 0x8C;
    } else {
      r := c >> 1;
    }
  }

  lemma {:induction false} CrcJoins(c: bv8, a: Bytes, b: Bytes)
    ensures Crc(c, a + b) == Crc(Crc(c, a), b)
  {
    hide Shifts, Mix;
    if b == [] {
      assert a + b == a;
    } else {
      assert (a + b)[..|a + b| - 1] == a + b[..|b| - 1];
      CrcJoins(c, a, b[..|b| - 1]);
    }
  }

  // ---------- One changed byte ----------

  lemma ShiftOneToOne(c: bv8, d: bv8)
    ensures Shift(c) == Shift(d) <==> c == d
  {
  }

  lemma {:induction false} ShiftsOneToOne(c: bv8, d: bv8, n: nat)
    ensures Shifts(c, n) == Shifts(d, n) <==> c == d
  {
    hide Shift;
    if n != 0 {
      ShiftsOneToOne(c, d, n - 1);
      ShiftOneToOne(Shifts(c, n - 1), Shifts(d, n - 1));
    }
  }

  lemma MixOneToOne(c: bv8, d: bv8, b: bv8)
    ensures Mix(c, b) == Mix(d, b) <==> c == d
    ensures Mix(b, c) == Mix(b, d) <==> c == d
  {
  }

  // From different remainders the same message leads to different remainders.
  lemma {:induction false} CrcOneToOne(c: bv8, d: bv8, m: Bytes)
    ensures Crc(c, m) == Crc(d, m) <==> c == d
  {
    hide Shifts, Mix;
    if m != [] {
      var front, b := m[..|m| - 1], m[|m| - 1];
      CrcOneToOne(c, d, front);
      MixOneToOne(Crc(c, front), Crc(d, front), b);
      ShiftsOneToOne(Mix(Crc(c, front), b), Mix(Crc(d, front), b), 8);
    }
  }

  // Changing one byte always changes the result.
  lemma OneByteShows(start: bv8, m: Bytes, k: nat, b: bv8)
    requires k < |m| && b != m[k]
    ensures Result(start, m[k := b]) != Result(start, m)
  {
    hide Shifts, Mix, Crc;
    var before, after := m[..k], m[k + 1..];
    assert m == (before + [m[k]]) + after && m[k := b] == (before + [b]) + after;
    CrcJoins(start, before + [m[k]], after);
    CrcJoins(start, before + [b], after);
    CrcJoins(start, before, [m[k]]);
    CrcJoins(start, before, [b]);
    var c := Crc(start, before);
    CrcOfOne(c, m[k]);
    CrcOfOne(c, b);
    MixOneToOne(m[k], b, c);
    ShiftsOneToOne(Mix(c, m[k]), Mix(c, b), 8);
    CrcOneToOne(Crc(c, [m[k]]), Crc(c, [b]), after);
  }

  lemma CrcOfOne(c: bv8, b: bv8)
    ensures Crc(c, [b]) == Shifts(Mix(c, b), 8)
  {
    assert [b][..0] == [];
  }

  // ---------- Parts through the interface ----------

  // Parts can be fed one after the other exactly when neither is empty, or the zero that an empty
  // part returns happens to be right.
  lemma ResultJoinsExactly(c: bv8, a: Bytes, b: Bytes)
    ensures Result(c, a + b) == Result(Result(c, a), b) <==>
      if a == [] then b == [] || c == 0 else b != [] || Crc(c, a) == 0
  {
    hide Crc;
    if a == [] {
      assert a + b == b;
      CrcOneToOne(c, 0, b);
    } else if b == [] {
      assert a + b == a;
    } else {
      CrcJoins(c, a, b);
    }
  }

  // ---------- The remainder of a polynomial division ----------

  // Coefficients over GF(2), from the highest power down.
  type Poly = seq<bool>

  // x^8 + x^5 + x^4 + 1
  const DIVISOR: Poly := [true, false, false, true, true, false, false, false, true]

  function Nought(n: nat): (p: Poly)
    ensures |p| == n
  {
    seq(n, _ => false)
  }

  function Plus(a: Poly, b: Poly): (c: Poly)
    requires |a| == |b|
    ensures |c| == |a|
  {
    seq(|a|, i requires 0 <= i < |a| => a[i] != b[i])
  }

  // One step of long division: a coefficient brought down, the divisor taken away where it goes.
  function Brought(r: Poly, c: bool): (s: Poly)
    requires |r| == 8
    ensures |s| == 8
  {
    if r[0] then Plus(r + [c], DIVISOR)[1..] else r[1..] + [c]
  }

  function Remainder(p: Poly): (r: Poly)
    ensures |r| == 8
  {
    if p == [] then Nought(8) else Brought(Remainder(p[..|p| - 1]), p[|p| - 1])
  }

  lemma RemainderMore(p: Poly, c: bool)
    ensures Remainder(p + [c]) == Brought(Remainder(p), c)
  {
    hide Brought;
    assert (p + [c])[..|p|] == p;
  }

  lemma BroughtPlus(r: Poly, s: Poly, c: bool, d: bool)
    requires |r| == |s| == 8
    ensures Brought(Plus(r, s), c != d) == Plus(Brought(r, c), Brought(s, d))
  {
  }

  lemma {:induction false} RemainderPlus(p: Poly, q: Poly)
    requires |p| == |q|
    ensures Remainder(Plus(p, q)) == Plus(Remainder(p), Remainder(q))
  {
    hide Brought;
    if p != [] {
      var k := |p| - 1;
      RemainderPlus(p[..k], q[..k]);
      assert Plus(p, q)[..k] == Plus(p[..k], q[..k]);
      BroughtPlus(Remainder(p[..k]), Remainder(q[..k]), p[k], q[k]);
    }
  }

  // Short polynomials are their own remainders, and leading zeros change nothing.
  lemma {:induction false} RemainderOfShort(p: Poly)
    requires |p| <= 8
    ensures Remainder(p) == Nought(8 - |p|) + p
  {
    if p != [] {
      var k := |p| - 1;
      RemainderOfShort(p[..k]);
      assert p == p[..k] + [p[k]];
      assert (Nought(8 - k) + p[..k])[1..] == Nought(8 - |p|) + p[..k];
    }
  }

  lemma {:induction false} LeadingZeros(n: nat, p: Poly)
    ensures Remainder(Nought(n) + p) == Remainder(p)
    decreases n + |p|
  {
    hide Brought;
    if p != [] {
      var k := |p| - 1;
      assert (Nought(n) + p)[..n + k] == Nought(n) + p[..k];
      LeadingZeros(n, p[..k]);
    } else if n > 0 {
      assert Nought(n) + [] == Nought(n) && Nought(n)[..n - 1] == Nought(n - 1) + [];
      LeadingZeros(n - 1, []);
      ZeroBrought();
    }
  }

  lemma ZeroBrought()
    ensures Brought(Nought(8), false) == Nought(8)
  {
  }

  // x^8 leaves what the divisor has below it.
  lemma HighestPower(b: bool)
    ensures Remainder([b] + Nought(8)) == if b then DIVISOR[1..] else Nought(8)
  {
    hide Remainder;
    var p := [b] + Nought(7);
    RemainderOfShort(p);
    RemainderMore(p, false);
    assert [b] + Nought(8) == p + [false];
    assert Nought(0) + p == p;
  }

  // One more coefficient, before the eight that leave room for the remainder.
  lemma FeedOne(p: Poly, b: bool)
    ensures Remainder(p + [b] + Nought(8)) ==
      Plus(Brought(Remainder(p + Nought(8)), false), if b then DIVISOR[1..] else Nought(8))
  {
    hide Brought, Remainder;
    var one, low := p + Nought(8) + [false], Nought(|p|) + ([b] + Nought(8));
    assert p + [b] + Nought(8) == Plus(one, low);
    RemainderPlus(one, low);
    RemainderMore(p + Nought(8), false);
    LeadingZeros(|p|, [b] + Nought(8));
    HighestPower(b);
  }

  // A byte as coefficients; its lowest bit stands for the highest power.
  function Coeffs(b: bv8): (p: Poly)
    ensures |p| == 8
  {
    [b & 1 != 0, b & 2 != 0, b & 4 != 0, b & 8 != 0, b & 16 != 0, b & 32 != 0, b & 64 != 0, b & 128 != 0]
  }

  function Bits(m: Bytes): Poly {
    if m == [] then [] else Bits(m[..|m| - 1]) + Coeffs(m[|m| - 1])
  }

  lemma ShiftIsStep(c: bv8, b: bool)
    ensures Coeffs(Shift(c ^ if b then 1 else 0)) ==
      Plus(Brought(Coeffs(c), false), if b then DIVISOR[1..] else Nought(8))
  {
    hide Coeffs, Shift, Brought, Turned;
    MixedBits(c, b);
    ShiftTurns(c ^ if b then 1 else 0);
    BroughtTurns(Coeffs(c));
    TurnedMixed(Coeffs(c), b);
  }

  // Bringing down a zero, as the register does it.
  function Turned(r: Poly): (s: Poly)
    requires |r| == 8
    ensures |s| == 8
  {
    [r[1], r[2], r[3] != r[0], r[4] != r[0], r[5], r[6], r[7], r[0]]
  }

  lemma TurnedMixed(r: Poly, b: bool)
    requires |r| == 8
    ensures Turned(r[0 := r[0] != b]) == Plus(Turned(r), if b then DIVISOR[1..] else Nought(8))
  {
  }

  lemma BroughtTurns(r: Poly)
    requires |r| == 8
    ensures Brought(r, false) == Turned(r)
  {
  }

  lemma ShiftTurns(x: bv8)
    ensures Coeffs(Shift(x)) == Turned(Coeffs(x))
  {
    ShiftBits(x);
    hide Shift;
  }

  lemma MixedBits(c: bv8, b: bool)
    ensures var x := c ^ if b then 1 else 0;
      Coeffs(x) == Coeffs(c)[0 := Coeffs(c)[0] != b]
  {
    if b {
      LowBitTurns(c);
    } else {
      NoBits(c);
    }
  }

  lemma LowBitTurns(c: bv8)
    ensures var x := c ^ 1;
      && (x & 1 != 0) == !(c & 1 != 0) && (x & 2 != 0) == (c & 2 != 0) && (x & 4 != 0) == (c & 4 != 0)
      && (x & 8 != 0) == (c & 8 != 0) && (x & 16 != 0) == (c & 16 != 0) && (x & 32 != 0) == (c & 32 != 0)
      && (x & 64 != 0) == (c & 64 != 0) && (x & 128 != 0) == (c & 128 != 0)
  {
  }

  lemma ShiftBits(x: bv8)
    ensures var s, low := Shift(x), x & 1 != 0;
      && (s & 1 != 0) == (x & 2 != 0) && (s & 2 != 0) == (x & 4 != 0)
      && (s & 4 != 0) == ((x & 8 != 0) != low) && (s & 8 != 0) == ((x & 16 != 0) != low)
      && (s & 16 != 0) == (x & 32 != 0) && (s & 32 != 0) == (x & 64 != 0)
      && (s & 64 != 0) == (x & 128 != 0) && (s & 128 != 0) == low
  {
  }

  function Dropped(b: bv8, k: nat): bv8 {
    if k == 0 then b else Dropped(b, k - 1) >> 1
  }

  lemma LowBit(b: bv8, k: nat)
    requires k < 8
    ensures Coeffs(b)[k] == (Dropped(b, k) & 1 != 0)
  {
    DroppedIs(b);
  }

  lemma BitTaken(y: bv8, z: bv8)
    ensures Shift(y) ^ (z >> 1) == Shift((y ^ z) ^ if z & 1 != 0 then 1 else 0)
  {
    hide Shift;
    var low: bv8 := if z & 1 != 0 then 1 else 0;
    LowTaken(z);
    EvenTaken(y, z ^ low);
    WithoutLow(y, z);
  }

  lemma LowTaken(z: bv8)
    ensures (z ^ if z & 1 != 0 then 1 else 0) & 1 == 0
  {
  }

  lemma EvenTaken(y: bv8, z: bv8)
    requires z & 1 == 0
    ensures Shift(y) ^ (z >> 1) == Shift(y ^ z)
  {
  }

  lemma WithoutLow(y: bv8, z: bv8)
    ensures var low: bv8 := if z & 1 != 0 then 1 else 0; (z ^ low) >> 1 == z >> 1 && y ^ (z ^ low) == (y ^ z) ^ low
  {
  }

  // After k of its bits the byte that was mixed in is still there in front of the remainder.
  lemma {:induction false} BitsTaken(p: Poly, c: bv8, b: bv8, k: nat)
    requires k <= 8 && Remainder(p + Nought(8)) == Coeffs(c)
    ensures Remainder(p + Coeffs(b)[..k] + Nought(8)) == Coeffs(Shifts(Mix(c, b), k) ^ Dropped(b, k))
  {
    hide Remainder, Coeffs, Shift, Shifts, Brought, Dropped, Mix, Plus;
    if k == 0 {
      DroppedIs(b);
      NoShifts(Mix(c, b));
      assert p + Coeffs(b)[..0] == p;
      MixTwice(c, b);
    } else {
      var j := k - 1;
      BitsTaken(p, c, b, j);
      var bit := Coeffs(b)[j];
      FeedOne(p + Coeffs(b)[..j], bit);
      assert p + Coeffs(b)[..j] + [bit] == p + Coeffs(b)[..k];
      LowBit(b, j);
      OneBitTaken(Shifts(Mix(c, b), j), Dropped(b, j), bit);
      DroppedMore(b, j);
      ShiftsMore(Mix(c, b), j);
    }
  }

  lemma OneBitTaken(y: bv8, z: bv8, bit: bool)
    requires bit == (z & 1 != 0)
    ensures Plus(Brought(Coeffs(y ^ z), false), if bit then DIVISOR[1..] else Nought(8)) == Coeffs(Shift(y) ^ (z >> 1))
  {
    hide Coeffs, Shift, Brought, Plus;
    ShiftIsStep(y ^ z, bit);
    BitTaken(y, z);
  }

  lemma NoShifts(c: bv8)
    ensures Shifts(c, 0) == c
  {
  }

  lemma ShiftsMore(c: bv8, n: nat)
    ensures Shifts(c, n + 1) == Shift(Shifts(c, n))
  {
  }

  lemma DroppedMore(b: bv8, k: nat)
    ensures Dropped(b, k + 1) == Dropped(b, k) >> 1
  {
  }

  lemma MixTwice(c: bv8, b: bv8)
    ensures Mix(c, b) ^ b == c
  {
  }

  lemma AllDropped(b: bv8)
    ensures Dropped(b, 8) == 0
  {
    DroppedIs(b);
    assert Dropped(b, 8) == Dropped(b, 7) >> 1;
  }

  lemma DroppedIs(b: bv8)
    ensures Dropped(b, 0) == b && Dropped(b, 1) == b >> 1 && Dropped(b, 2) == b >> 2 && Dropped(b, 3) == b >> 3
    ensures Dropped(b, 4) == b >> 4 && Dropped(b, 5) == b >> 5 && Dropped(b, 6) == b >> 6 && Dropped(b, 7) == b >> 7
  {
    assert Dropped(b, 1) == b >> 1 && Dropped(b, 2) == (b >> 1) >> 1 && Dropped(b, 3) == (b >> 2) >> 1;
    assert Dropped(b, 4) == (b >> 3) >> 1 && Dropped(b, 5) == (b >> 4) >> 1;
    assert Dropped(b, 6) == (b >> 5) >> 1 && Dropped(b, 7) == (b >> 6) >> 1;
  }

  // From zero, the result is the remainder of the message times x^8 by x^8 + x^5 + x^4 + 1.
  lemma {:induction false} CrcIsRemainder(m: Bytes)
    ensures Coeffs(Crc(0, m)) == Remainder(Bits(m) + Nought(8))
  {
    hide Remainder, Coeffs, Shifts, Mix;
    if m == [] {
      assert [] + Nought(8) == Nought(8);
      LeadingZeros(8, []);
      assert Nought(8) + [] == Nought(8);
      NoRemainder();
    } else {
      var front, b := m[..|m| - 1], m[|m| - 1];
      CrcIsRemainder(front);
      BitsTaken(Bits(front), Crc(0, front), b, 8);
      AllDropped(b);
      assert Coeffs(b)[..8] == Coeffs(b);
      NoBits(Shifts(Mix(Crc(0, front), b), 8));
    }
  }

  lemma NoBits(c: bv8)
    ensures c ^ 0 == c
  {
  }

  lemma NoRemainder()
    ensures Coeffs(0) == Nought(8) && Remainder([]) == Nought(8)
  {
  }

  // A start counts like a difference in the first byte.
  lemma StartIsMixedIn(c: bv8, m: Bytes)
    requires m != []
    ensures Crc(c, m) == Crc(0, m[0 := c ^ m[0]])
  {
    hide Shifts, Crc;
    var d := c ^ m[0];
    assert m == [m[0]] + m[1..] && m[0 := d] == [d] + m[1..];
    CrcJoins(c, [m[0]], m[1..]);
    CrcJoins(0, [d], m[1..]);
    CrcOfOne(c, m[0]);
    CrcOfOne(0, d);
    NoBits(d);
    assert Mix(0, d) == d;
  }
}
