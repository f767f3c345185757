/** The 128-byte streaming core of SHA-512, with its byte counter in two 64-bit words. */
module Sha512Stream {
  import opened Common
  import opened HashCore
  import opened Fips180
  import opened HashBlocks

  function Compressor(): (seq<bv64>, Bytes) -> seq<bv64> {
    (h, block) => Sha512Compress(h, block)
  }

  function Chain(m: Bytes): seq<bv64> {
    Fold(Compressor(), SHA512_INIT, m, 128)
  }

  function Output(h: seq<bv64>): Bytes {
    if h == [] then [] else LongBytes(h[0]) + Output(h[1..])
  }

  function Digest(m: Bytes): Bytes {
    Output(Chain(Padded(m, 128, LengthField128(|m|))))
  }

  lemma {:induction false} FoldKeepsSize(h: seq<bv64>, m: Bytes)
    requires |h| == 8
    ensures |Fold(Compressor(), h, m, 128)| == 8
    decreases |m|
  {
    hide LFeed, Sha512Rounds;
    if |m| >= 128 {
      FoldKeepsSize(Compressor()(h, m[..128]), m[128..]);
    }
  }

  lemma ChainStep(m: Bytes, block: Bytes)
    requires |m| % 128 == 0 && |block| == 128
    ensures Chain(m + block) == Sha512Compress(Chain(m), block)
    ensures |Chain(m)| == 8
  {
    hide Sha512Compress, Fold;
    FoldOne(Compressor(), SHA512_INIT, m, block, 128);
    FoldKeepsSize(SHA512_INIT, m);
  }

  lemma ChainNothing()
    ensures Chain([]) == SHA512_INIT && |SHA512_INIT| == 8 && Counts(0, 0, 0) && Aligned(0) == 0
  {
  }

  function Aligned(n: nat): nat {
    n - n % 128
  }

  // The two counter words hold the byte count modulo 2^128.
  ghost predicate Counts(lo: nat, hi: nat, n: nat) {
    lo == n % TWO64 && hi == n / TWO64 % TWO64
  }

  // Adding len to the low word and carrying into the high one; both wrap.
  lemma CarryCounts(lo: nat, hi: nat, n: nat, len: nat)
    requires Counts(lo, hi, n) && len < TWO64
    ensures var lo' := Wrap64(lo + len);
      Counts(lo', if lo' < len then Wrap64(hi + 1) else hi, n + len)
  {
    var q := n / TWO64;
    assert n + len == TWO64 * q + (lo + len);
    if lo + len < TWO64 {
      assert (n + len) / TWO64 == q && (n + len) % TWO64 == lo + len;
    } else {
      assert n + len == TWO64 * (q + 1) + (lo + len - TWO64);
      assert (n + len) / TWO64 == q + 1 && (n + len) % TWO64 == lo + len - TWO64;
    }
  }

  // Three bits move from the low word to the high one when bytes become bits.
  lemma BitCount(lo: nat, hi: nat, n: nat)
    requires Counts(lo, hi, n)
    ensures Wrap64(lo * 8) == 8 * n % TWO64
    ensures Wrap64(hi * 8) + lo / TWO61 == 8 * n / TWO64 % TWO64
  {
    var q := n / TWO64;
    var p, r := q / TWO64, lo / TWO61;
    assert TWO64 == 8 * TWO61;
    assert n == TWO64 * q + lo && q == TWO64 * p + hi;
    assert 8 * lo == TWO64 * r + 8 * (lo % TWO61);
    assert 8 * n == TWO64 * (8 * q + r) + 8 * (lo % TWO61);
    assert 8 * (lo % TWO61) < TWO64 && r < 8;
    assert 8 * n / TWO64 == 8 * q + r && 8 * n % TWO64 == 8 * (lo % TWO61);
    HighBits(hi, p, r);
  }

  lemma HighBits(hi: nat, p: nat, r: nat)
    requires hi < TWO64 && r < 8
    ensures (8 * (TWO64 * p + hi) + r) % TWO64 == Wrap64(hi * 8) + r
  {
    var s, u := hi / TWO61, hi % TWO61;
    HighAndLow(8 * (TWO64 * p + hi) + r, 8 * p + s, 8 * u + r);
    HighAndLow(8 * hi, s, 8 * u);
  }

  lemma HighAndLow(x: nat, high: nat, low: nat)
    requires x == TWO64 * high + low && low < TWO64
    ensures x / TWO64 == high && x % TWO64 == low
  {
  }

  class Sha512Context {
    var hash: seq<bv64>
    var total0: nat
    var total1: nat
    const wbuffer: array<bv8>
    // Every byte fed so far.
    ghost var fed: Bytes

    ghost predicate Valid()
      reads this, wbuffer
    {
      && wbuffer.Length == 128
      && Counts(total0, total1, |fed|)
      && wbuffer[..|fed| % 128] == fed[Aligned(|fed|)..]
      && hash == Chain(fed[..Aligned(|fed|)]) && |hash| == 8
    }

    // sha512_begin.
    constructor ()
      ensures Valid() && fed == [] && fresh(wbuffer)
    {
      hide Chain, Counts, SHA512_INIT;
      ChainNothing();
      hash := SHA512_INIT;
      total0, total1 := 0, 0;
      wbuffer := new bv8[128];
      fed := [];
    }

    // The buffer holds the bytes after the whole blocks of data, of which pos are in place.
    ghost predicate Holds(data: Bytes, pos: nat)
      reads this`hash, wbuffer
    {
      && wbuffer.Length == 128 && pos <= 128 && pos <= |data| && (|data| - pos) % 128 == 0
      && wbuffer[..pos] == data[|data| - pos..]
      && hash == Chain(data[..|data| - pos]) && |hash| == 8
    }

    // process_block on a full buffer.
    method ProcessBlock(ghost data: Bytes)
      requires Holds(data, 128)
      modifies this`hash
      ensures Holds(data, 0)
    {
      hide Chain, Sha512Compress;
      ghost var before, block := data[..|data| - 128], data[|data| - 128..];
      ChainStep(before, block);
      assert before + block == data == data[..|data|];
      assert wbuffer[..] == block;
      hash := Sha512ProcessBlock128(hash, wbuffer[..]);
    }

    // Between calls the buffer holds what the whole blocks leave.
    lemma StartHolds()
      requires Valid()
      ensures Holds(fed, |fed| % 128)
    {
      hide Chain;
      assert |fed| - |fed| % 128 == Aligned(|fed|);
      AlignedIsWhole(|fed|);
    }

    lemma EndHolds(data: Bytes, pos: nat)
      requires Holds(data, pos) && pos < 128
      ensures pos == |data| % 128 && wbuffer.Length == 128
      ensures wbuffer[..|data| % 128] == data[Aligned(|data|)..] && hash == Chain(data[..Aligned(|data|)])
      ensures |hash| == 8
    {
      hide Chain;
      PositionIsRest(|data|, pos);
    }

    // Bytes copied behind those already buffered.
    method Append(ghost data: Bytes, pos: nat, more: Bytes)
      requires Holds(data, pos) && pos + |more| <= 128
      modifies wbuffer
      ensures Holds(data + more, pos + |more|)
    {
      hide Chain;
      Put(wbuffer, pos, more);
      PendingGrows(data, pos, more);
      assert wbuffer[..pos + |more|] == wbuffer[..pos] + wbuffer[pos..pos + |more|];
    }

    // sha512_hash; a size_t holds the length of the buffer.
    method Hash(buffer: Bytes)
      requires Valid() && |buffer| < TWO64
      modifies this`hash, this`total0, this`total1, this`fed, wbuffer
      ensures Valid() && fed == old(fed) + buffer
    {
      hide Chain, Holds, Wrap64, Counts;
      BlockPosition(total0, total1, |fed|);
      CarryCounts(total0, total1, |fed|, |buffer|);
      StartHolds();
      var bufpos := total0 % 128;
      total0 := Wrap64(total0 + |buffer|);
      if total0 < |buffer| {
        total1 := Wrap64(total1 + 1);
      }
      ghost var data := fed;
      var rest := buffer;
      while true
        invariant 0 <= bufpos < 128 && Holds(data, bufpos)
        invariant data + rest == old(fed) + buffer
        invariant Counts(total0, total1, |old(fed)| + |buffer|)
        decreases |rest|, bufpos
      {
        var remaining := 128 - bufpos;
        if remaining > |rest| {
          remaining := |rest|;
        }
        assert data + rest == (data + rest[..remaining]) + rest[remaining..];
        Append(data, bufpos, rest[..remaining]);
        data := data + rest[..remaining];
        rest := rest[remaining..];
        bufpos := bufpos + remaining;
        if bufpos != 128 {
          break;
        }
        ProcessBlock(data);
        bufpos := 0;
      }
      assert data == old(fed) + buffer;
      EndHolds(data, bufpos);
      fed := data;
    }

    // One pass of the end loop: zeros, the length field when it fits, and the block.
    method PadBlock(ghost data: Bytes, bufpos: nat) returns (remaining: nat)
      requires bufpos <= 128
      requires Holds(data, bufpos) && total0 < TWO64 && total1 < TWO64
      modifies this`hash, wbuffer
      ensures remaining == 128 - bufpos
      ensures Holds(data + PadBytes(total0, total1, remaining), 0)
    {
      hide Chain, Holds, Wrap64, StoreLength;
      remaining := 128 - bufpos;
      if remaining >= 16 {
        Append(data, bufpos, Zeros(remaining - 16));
        var field := StoreLength(total0, total1);
        Append(data + Zeros(remaining - 16), 112, field);
        assert (data + Zeros(remaining - 16)) + field == data + (Zeros(remaining - 16) + field);
        ProcessBlock(data + (Zeros(remaining - 16) + field));
      } else {
        Append(data, bufpos, Zeros(remaining));
        ProcessBlock(data + Zeros(remaining));
      }
    }

    // sha512_end.
    method End() returns (resbuf: Bytes, ghost passes: nat)
      requires Valid()
      modifies this`hash, wbuffer
      ensures resbuf == Digest(fed)
      ensures passes == if |fed| % 128 < 112 then 1 else 2
    {
      hide Chain, Holds, LengthField128, Output, Wrap64, Counts, StoreLength;
      BlockPosition(total0, total1, |fed|);
      StartHolds();
      passes := 0;
      var bufpos := total0 % 128;
      ghost var data := fed;
      Append(data, bufpos, [0x80]);
      data := data + [0x80];
      bufpos := bufpos + 1;
      while true
        invariant 0 <= bufpos <= 128 && passes <= 1
        invariant passes == 0 ==> data == fed + [0x80] && bufpos == |fed| % 128 + 1 && Holds(data, bufpos)
        invariant passes == 1 ==> |fed| % 128 >= 112 && bufpos == 0 && Holds(data, 0)
        invariant passes == 1 ==> data == fed + [0x80] + Zeros(127 - |fed| % 128)
        decreases 1 - passes
      {
        var remaining := PadBlock(data, bufpos);
        data := data + PadBytes(total0, total1, remaining);
        passes := passes + 1;
        if remaining >= 16 {
          break;
        }
        bufpos := 0;
      }
      StoredLength(total0, total1, |fed|);
      EndIsPadded(fed, data, LengthField128(|fed|), passes);
      WholeChain(data);
      resbuf := Output(hash);
    }

    lemma WholeChain(data: Bytes)
      requires Holds(data, 0)
      ensures hash == Chain(data)
    {
      hide Chain;
      assert data[..|data|] == data;
    }
  }

  // What one pass of the end loop puts into the buffer.
  function PadBytes(lo: nat, hi: nat, remaining: nat): Bytes
    requires lo < TWO64 && hi < TWO64
  {
    if remaining >= 16 then Zeros(remaining - 16) + StoreLength(lo, hi) else Zeros(remaining)
  }

  // The parts of a counter word that a shift moves.
  function Up(w: bv64): bv64 { w << 3 }
  function Down(w: bv64): bv64 { w >> 61 }
  function Low(w: bv64): bv64 { w & 0x1FFF_FFFF_FFFF_FFFF }
  function Or(x: bv64, y: bv64): bv64 { x | y }

  // The counter of bits as sha512_end stores it: the high word first, both big-endian.
  function StoreLength(lo: nat, hi: nat): (f: Bytes)
    requires lo < TWO64 && hi < TWO64
    ensures |f| == 16
  {
    LongBytes(Or(Up(ToLong(hi)), Down(ToLong(lo)))) + LongBytes(Up(ToLong(lo)))
  }

  // ---------- 64-bit words as numbers ----------

  function Nat64(w: bv64): (n: nat)
    ensures n < TWO64
  {
    w as nat
  }

  lemma LongOfNat(w: bv64)
    ensures ToLong(Nat64(w)) == w
  {
  }

  function Double(w: bv64): bv64 { w << 1 }
  function Top(w: bv64): bv64 { w >> 63 }
  function Rest(w: bv64): bv64 { w & 0x7FFF_FFFF_FFFF_FFFF }

  lemma TopAndRest(w: bv64)
    ensures Nat64(w) == 0x8000_0000_0000_0000 * Nat64(Top(w)) + Nat64(Rest(w))
  {
  }

  lemma DoubleRest(w: bv64)
    ensures Nat64(Double(w)) == 2 * Nat64(Rest(w))
  {
  }

  lemma OddWord(w: bv64)
    ensures Nat64(Or(Double(w), 1)) == Nat64(Double(w)) + 1
  {
    OddBits(w);
    hide Nat64;
    assert Or(Double(w), 1) == (w << 1) | 1 && Double(w) == w << 1;
    NatIs((w << 1) | 1);
    NatIs(w << 1);
  }

  lemma OddBits(w: bv64)
    ensures ((w << 1) | 1) as nat == (w << 1) as nat + 1
  {
  }

  lemma NatIs(w: bv64)
    ensures Nat64(w) == w as nat
  {
  }

  // Converting a number to a word and back, bit by bit.
  lemma {:induction false} NatOfLong(x: nat)
    requires x < TWO64
    ensures Nat64(ToLong(x)) == x
  {
    hide Nat64, ToLong, Double, Top, Rest, Or;
    if x == 0 {
      ZeroLong();
    } else {
      var w := ToLong(x / 2);
      NatOfLong(x / 2);
      TopAndRest(w);
      DoubleRest(w);
      OddWord(w);
      LongOfNat(Double(w));
      LongOfNat(Or(Double(w), 1));
    }
  }

  lemma ZeroLong()
    ensures Nat64(ToLong(0)) == 0
  {
  }

  lemma DownAndLow(w: bv64)
    ensures Nat64(w) == 0x2000_0000_0000_0000 * Nat64(Down(w)) + Nat64(Low(w))
  {
  }

  lemma UpIsLow(w: bv64)
    ensures Nat64(Up(w)) == 8 * Nat64(Low(w))
  {
  }

  // The two parts of the high word share no bit, so joining them by or adds them.
  lemma JoinedByOr(hi: bv64, lo: bv64)
    ensures Nat64(Or(Up(hi), Down(lo))) == Nat64(Up(hi)) + Nat64(Down(lo))
  {
    JoinedBits(hi, lo);
    hide Nat64;
    NatIs((hi << 3) | (lo >> 61));
    NatIs(hi << 3);
    NatIs(lo >> 61);
  }

  lemma JoinedBits(hi: bv64, lo: bv64)
    ensures ((hi << 3) | (lo >> 61)) as nat == (hi << 3) as nat + (lo >> 61) as nat
  {
  }

  // Three bits of a word move out at the top, the others up.
  lemma ShiftCounts(w: bv64)
    ensures Nat64(Up(w)) == Wrap64(Nat64(w) * 8) && Nat64(Down(w)) == Nat64(w) / TWO61
  {
    hide Nat64, Up, Down, Low;
    DownAndLow(w);
    UpIsLow(w);
    var top, low := Nat64(Down(w)), Nat64(Low(w));
    assert Nat64(w) * 8 == TWO64 * top + 8 * low;
  }

  lemma StoredLength(lo: nat, hi: nat, n: nat)
    requires Counts(lo, hi, n)
    ensures lo < TWO64 && hi < TWO64 && StoreLength(lo, hi) == LengthField128(n)
  {
    hide LongBytes, ToLong, Nat64, Up, Down, Or, Wrap64;
    BitCount(lo, hi, n);
    var h, l := ToLong(hi), ToLong(lo);
    NatOfLong(hi);
    NatOfLong(lo);
    ShiftCounts(h);
    ShiftCounts(l);
    JoinedByOr(h, l);
    LongOfNat(Or(Up(h), Down(l)));
    LongOfNat(Up(l));
  }

  // What the end loop feeds is the padding of the standard.
  lemma EndIsPadded(m: Bytes, data: Bytes, field: Bytes, passes: nat)
    requires |field| == 16
    requires |m| % 128 < 112 ==> data == m + [0x80] + Zeros(111 - |m| % 128) + field
    requires |m| % 128 >= 112 ==> data == m + [0x80] + Zeros(127 - |m| % 128) + Zeros(112) + field
    ensures data == Padded(m, 128, field)
  {
    PadZerosOf(|m|);
    if |m| % 128 >= 112 {
      assert Zeros(127 - |m| % 128) + Zeros(112) == Zeros(239 - |m| % 128);
      assert data == m + [0x80] + (Zeros(127 - |m| % 128) + Zeros(112)) + field;
    }
  }

  lemma PadZerosOf(n: nat)
    ensures PadZeros(n, 128, 16) == if n % 128 < 112 then 111 - n % 128 else 239 - n % 128
  {
    Remainder(n / 128, n % 128 + 17);
  }

  // The remainder after 17 bytes more, from the one before.
  lemma Remainder(q: nat, x: nat)
    requires x < 2 * 128
    ensures (128 * q + x) % 128 == if x < 128 then x else x - 128
  {
  }

  lemma AlignedIsWhole(n: nat)
    ensures Aligned(n) % 128 == 0
  {
  }

  lemma PositionIsRest(n: nat, pos: nat)
    requires pos < 128 && pos <= n && (n - pos) % 128 == 0
    ensures n % 128 == pos && Aligned(n) == n - pos
  {
  }

  // The low counter word still tells how many bytes are buffered.
  lemma BlockPosition(lo: nat, hi: nat, n: nat)
    requires Counts(lo, hi, n)
    ensures lo % 128 == n % 128 && lo < TWO64 && hi < TWO64
  {
  }

  // Begin, one call for every piece, end: the digest of the message, however it is cut.
  method DigestPieces(pieces: seq<Bytes>) returns (digest: Bytes)
    requires forall i | 0 <= i < |pieces| :: |pieces[i]| < TWO64
    ensures digest == Digest(Joined(pieces))
  {
    hide Digest, Chain, Counts, Aligned;
    var ctx := new Sha512Context();
    assert pieces[..0] == [];
    for i := 0 to |pieces|
      invariant ctx.Valid() && fresh(ctx) && fresh(ctx.wbuffer)
      invariant ctx.fed == Joined(pieces[..i])
    {
      assert pieces[..i + 1][..i] == pieces[..i];
      ctx.Hash(pieces[i]);
    }
    assert pieces[..|pieces|] == pieces;
    ghost var passes;
    digest, passes := ctx.End();
  }
}
