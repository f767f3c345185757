/** The second MD5: bytes are packed into a block of 16 words as they arrive. */
module Md5Words {
  import opened Common
  import opened HashCore
  import Md5Rounds
  import opened Rfc1321
  import HashStream

  // md5_block_host_order for one block; X points at 16 words.
  method BlockHostOrder(h: seq<bv32>, x: seq<bv32>) returns (h': seq<bv32>)
    requires |h| == 4 && |x| == 16
    ensures h' == CompressWords(h, x)
  {
    h' := Md5Rounds.Unrolled(Md5Rounds.R, h, x);
  }

  // ---------- Bytes into words ----------

  function ByteOrZero(t: Bytes, i: nat): bv8 {
    if i < |t| then t[i] else 0
  }

  // Word j of a byte string, with zeros where the string ends.
  function PaddedWord(t: Bytes, j: nat): bv32 {
    Pack(ByteOrZero(t, 4 * j), ByteOrZero(t, 4 * j + 1), ByteOrZero(t, 4 * j + 2), ByteOrZero(t, 4 * j + 3))
  }

  // The words that t reaches hold it.
  ghost predicate Packed(ws: seq<bv32>, t: Bytes) {
    |ws| == 16 && |t| <= 64 && forall j: nat | 4 * j < |t| :: ws[j] == PaddedWord(t, j)
  }

  // The byte b shifted into place k of a word, and l |= x.
  function ByteAt(b: bv8, k: nat): bv32 {
    match k case 0 => b as bv32 case 1 => b as bv32 << 8 case 2 => b as bv32 << 16 case _ => b as bv32 << 24
  }

  function Or(l: bv32, x: bv32): bv32 {
    l | x
  }

  // HOST_c2l: the next four bytes.
  function C2l(b0: bv8, b1: bv8, b2: bv8, b3: bv8): bv32 {
    Or(Or(Or(ByteAt(b0, 0), ByteAt(b1, 1)), ByteAt(b2, 2)), ByteAt(b3, 3))
  }

  // HOST_p_c2l: the word l from its byte n on, with the 4 - n bytes of d.
  function PC2l(l: bv32, n: nat, d: Bytes): bv32
    requires n < 4 && |d| == 4 - n
  {
    match n
    case 0 => C2l(d[0], d[1], d[2], d[3])
    case 1 => Or(Or(Or(l, ByteAt(d[0], 1)), ByteAt(d[1], 2)), ByteAt(d[2], 3))
    case 2 => Or(Or(l, ByteAt(d[0], 2)), ByteAt(d[1], 3))
    case _ => Or(l, ByteAt(d[0], 3))
  }

  // HOST_p_c2l_p: the bytes of d from byte sc on, when they do not fill the word.
  function PC2lP(l: bv32, sc: nat, d: Bytes): bv32
    requires 0 < |d| && sc + |d| < 4
  {
    var l := if sc == 0 then ByteAt(d[0], 0) else Or(l, ByteAt(d[0], sc));
    var l := if |d| > 1 then Or(l, ByteAt(d[1], sc + 1)) else l;
    if |d| > 2 then Or(l, ByteAt(d[2], sc + 2)) else l
  }

  // HOST_c2l_p: the first bytes of a word, from the highest down.
  function C2lP(d: Bytes): bv32
    requires |d| < 4
  {
    match |d|
    case 0 => 0
    case 1 => ByteAt(d[0], 0)
    case 2 => Or(ByteAt(d[1], 1), ByteAt(d[0], 0))
    case _ => Or(Or(ByteAt(d[2], 2), ByteAt(d[1], 1)), ByteAt(d[0], 0))
  }

  lemma Or0(a: bv8)
    ensures ByteAt(a, 0) == Pack(a, 0, 0, 0)
  {
  }

  lemma Or1(a: bv8, b: bv8)
    ensures Or(Pack(a, 0, 0, 0), ByteAt(b, 1)) == Pack(a, b, 0, 0)
  {
  }

  lemma Or2(a: bv8, b: bv8, c: bv8)
    ensures Or(Pack(a, b, 0, 0), ByteAt(c, 2)) == Pack(a, b, c, 0)
  {
  }

  lemma Or3(a: bv8, b: bv8, c: bv8, d: bv8)
    ensures Or(Pack(a, b, c, 0), ByteAt(d, 3)) == Pack(a, b, c, d)
  {
  }

  lemma OrDown2(a: bv8, b: bv8)
    ensures Or(ByteAt(b, 1), ByteAt(a, 0)) == Pack(a, b, 0, 0)
  {
  }

  lemma OrDown3(a: bv8, b: bv8, c: bv8)
    ensures Or(Or(ByteAt(c, 2), ByteAt(b, 1)), ByteAt(a, 0)) == Pack(a, b, c, 0)
  {
  }

  lemma C2lIsPack(b0: bv8, b1: bv8, b2: bv8, b3: bv8)
    ensures C2l(b0, b1, b2, b3) == Pack(b0, b1, b2, b3)
  {
    hide Pack, ByteAt, Or;
    Or0(b0);
    Or1(b0, b1);
    Or2(b0, b1, b2);
    Or3(b0, b1, b2, b3);
  }

  lemma PC2lJoins(a: Bytes, l: bv32, d: Bytes)
    requires |a| < 4 && |d| == 4 - |a| && (|a| > 0 ==> l == PaddedWord(a, 0))
    ensures PC2l(l, |a|, d) == PaddedWord(a + d, 0)
  {
    hide Pack, ByteAt, Or, C2l;
    match |a| {
      case 0 =>
        assert a + d == d;
        C2lIsPack(d[0], d[1], d[2], d[3]);
      case 1 =>
        Or1(a[0], d[0]);
        Or2(a[0], d[0], d[1]);
        Or3(a[0], d[0], d[1], d[2]);
      case 2 =>
        Or2(a[0], a[1], d[0]);
        Or3(a[0], a[1], d[0], d[1]);
      case _ =>
        Or3(a[0], a[1], a[2], d[0]);
    }
  }

  lemma PC2lPJoins(a: Bytes, l: bv32, d: Bytes)
    requires 0 < |d| && |a| + |d| < 4 && (|a| > 0 ==> l == PaddedWord(a, 0))
    ensures PC2lP(l, |a|, d) == PaddedWord(a + d, 0)
  {
    hide Pack, ByteAt, Or;
    var t := a + d;
    Or0(t[0]);
    if |t| > 1 {
      Or1(t[0], t[1]);
    }
    if |t| > 2 {
      Or2(t[0], t[1], t[2]);
    }
  }

  lemma C2lPJoins(d: Bytes)
    requires |d| < 4
    ensures C2lP(d) == PaddedWord(d, 0)
  {
    hide Pack, ByteAt, Or;
    NoBytes();
    Or0(ByteOrZero(d, 0));
    OrDown2(ByteOrZero(d, 0), ByteOrZero(d, 1));
    OrDown3(ByteOrZero(d, 0), ByteOrZero(d, 1), ByteOrZero(d, 2));
  }

  lemma NoBytes()
    ensures Pack(0, 0, 0, 0) == 0
  {
  }

  // Storing the word in which t ends, with the bytes of d added to it, packs t + d.
  lemma WordPacks(ws: seq<bv32>, t: Bytes, d: Bytes, v: bv32)
    requires Packed(ws, t) && |t| < 64 && |t| % 4 + |d| <= 4 && (d == [] ==> |t| % 4 == 0)
    requires v == PaddedWord(t[|t| - |t| % 4..] + d, 0)
    ensures Packed(ws[|t| / 4 := v], t + d)
  {
    hide PaddedWord;
    var sw := |t| / 4;
    forall j: nat | 4 * j < |t + d| ensures ws[sw := v][j] == PaddedWord(t + d, j) {
      if j < sw {
        WordOfPrefix(t, d, j);
      } else {
        TailWord(t + d, sw);
        assert (t + d)[4 * sw..] == t[4 * sw..] + d;
      }
    }
  }

  lemma WordOfPrefix(t: Bytes, d: Bytes, j: nat)
    requires 4 * j + 4 <= |t|
    ensures PaddedWord(t + d, j) == PaddedWord(t, j)
  {
    hide Pack;
  }

  lemma TailWord(t: Bytes, j: nat)
    requires 4 * j <= |t| <= 4 * j + 4
    ensures PaddedWord(t, j) == PaddedWord(t[4 * j..], 0)
  {
    hide Pack;
  }

  lemma LastWord(t: Bytes, ws: seq<bv32>)
    requires Packed(ws, t) && |t| % 4 != 0
    ensures ws[|t| / 4] == PaddedWord(t[|t| - |t| % 4..], 0)
  {
    hide Pack;
    TailWord(t, |t| / 4);
  }

  lemma FullBlock(ws: seq<bv32>, t: Bytes)
    requires Packed(ws, t) && |t| == 64
    ensures ws == WordsLE(t)
  {
    hide Pack;
    forall j | 0 <= j < 16 ensures ws[j] == WordLE(t, j) {
      assert ws[j] == PaddedWord(t, j);
    }
  }

  // HOST_l2c undone by packing.
  lemma PackedBytes(w: bv32)
    ensures PaddedWord(BytesLE(w), 0) == w
  {
    hide Pack, Byte0, Byte1, Byte2, Byte3;
    PackBytes(w);
  }

  lemma ZeroWord()
    ensures PaddedWord(Zeros(4), 0) == 0
  {
    hide Pack;
    NoBytes();
  }

  // ---------- The context ----------

  // The two 32-bit halves of the bit count after n bytes.
  predicate BitCount(n: nat, nl: nat, nh: nat) {
    nl == 8 * n % TWO32 && nh == 8 * n / TWO32 % TWO32
  }

  // The low half with its carry, and the bits that len << 3 loses, keep the count.
  lemma CountBits(n: nat, nl: nat, nh: nat, len: nat)
    requires BitCount(n, nl, nh)
    ensures var l := (nl + 8 * len) % TWO32;
      BitCount(n + len, l, (nh + (if l < nl then 1 else 0) + len / 0x2000_0000) % TWO32)
  {
    var qa, qb, rb := 8 * n / TWO32, 8 * len / TWO32, 8 * len % TWO32;
    assert qb == len / 0x2000_0000;
    var carry := if nl + rb >= TWO32 then 1 else 0;
    var sum := nl + rb - TWO32 * carry;
    HighAndLow(8 * (n + len), qa + qb + carry, sum);
    HighAndLow(nl + 8 * len, qb + carry, sum);
    ModSum(qa, carry + qb);
  }

  lemma HighAndLow(x: nat, high: nat, low: nat)
    requires x == TWO32 * high + low && low < TWO32
    ensures x / TWO32 == high && x % TWO32 == low
  {
  }

  lemma ModSum(x: nat, y: nat)
    ensures (x % TWO32 + y) % TWO32 == (x + y) % TWO32
  {
  }

  lemma TailOfTail(m: Bytes, pos: nat)
    requires pos <= |m|
    ensures var t := m[|m| - pos..]; |t| == pos && t[|t| - |t| % 4..] == m[|m| - pos % 4..]
  {
  }

  class Md5WordsContext {
    var abcd: seq<bv32>
    var nl: nat
    var nh: nat
    var num: nat
    const data: array<bv32>
    // Every byte fed so far.
    ghost var fed: Bytes

    // The last pos bytes of m are packed into the block, all before them hashed.
    ghost predicate Holds(m: Bytes, pos: nat)
      reads this`abcd, data
    {
      && data.Length == 16 && pos <= 64 && pos <= |m| && (|m| - pos) % 64 == 0
      && Packed(data[..], m[|m| - pos..])
      && abcd == HashStream.Chain(HashStream.Md5, m[..|m| - pos]) && |abcd| == 4
    }

    ghost predicate Valid()
      reads this, data
    {
      num == |fed| % 64 && Holds(fed, num) && BitCount(|fed|, nl, nh)
    }

    // Md5Init.
    constructor ()
      ensures Valid() && fed == [] && fresh(data)
    {
      abcd := [0x67452301, 0xEFCDAB89, 0x98BADCFE, 0x10325476];
      nl, nh, num := 0, 0, 0;
      data := new bv32[16];
      fed := [];
    }

    method SetWord(ghost m: Bytes, ghost pos: nat, ghost d: Bytes, sw: nat, v: bv32)
      requires Holds(m, pos) && pos < 64 && sw == pos / 4
      requires pos % 4 + |d| <= 4 && (d == [] ==> pos % 4 == 0)
      requires v == PaddedWord(m[|m| - pos % 4..] + d, 0)
      modifies data
      ensures Holds(m + d, pos + |d|)
    {
      hide PaddedWord, Packed, HashStream.Chain;
      ghost var t, ws := m[|m| - pos..], data[..];
      TailOfTail(m, pos);
      PendingGrows(m, pos, d);
      WordPacks(ws, t, d, v);
      assert ws == data[..] && |ws| == 16;
      data[sw] := v;
      assert data[..] == ws[sw := v];
    }

    // The bytes of the word that m ends in.
    lemma PartWord(m: Bytes, pos: nat)
      requires Holds(m, pos) && pos < 64 && pos % 4 != 0
      ensures data[pos / 4] == PaddedWord(m[|m| - pos % 4..], 0)
    {
      hide PaddedWord, HashStream.Chain, Packed;
      TailOfTail(m, pos);
      LastWord(m[|m| - pos..], data[..]);
    }

    // HOST_c2l into word i.
    method SetWhole(ghost m: Bytes, i: nat, w: Bytes)
      requires Holds(m, 4 * i) && i < 16 && |w| == 4
      modifies data
      ensures Holds(m + w, 4 * (i + 1))
    {
      hide PaddedWord, Holds, C2l, Pack;
      HoldsSize(m, 4 * i);
      PC2lJoins([], 0, w);
      assert [] + w == w && m[|m|..] + w == w;
      SetWord(m, 4 * i, w, i, C2l(w[0], w[1], w[2], w[3]));
    }

    // Whole words from the byte string, up to word ew.
    method SetWords(ghost m: Bytes, sw: nat, ew: nat, d: Bytes)
      requires Holds(m, 4 * sw) && sw <= ew <= 16 && |d| == 4 * (ew - sw)
      modifies data
      ensures Holds(m + d, 4 * ew)
    {
      hide Holds;
      assert m + d[..0] == m;
      for i := sw to ew
        invariant Holds(m + d[..4 * (i - sw)], 4 * i)
      {
        var k := 4 * (i - sw);
        SetWhole(m + d[..k], i, d[k..k + 4]);
        assert (m + d[..k]) + d[k..k + 4] == m + d[..k + 4];
      }
      assert d[..4 * (ew - sw)] == d;
    }

    // md5_block_host_order on the packed block.
    method Block(ghost m: Bytes)
      requires Holds(m, 64)
      modifies this`abcd
      ensures Holds(m, 0)
    {
      hide HashStream.Chain, CompressWords;
      ghost var before, block := m[..|m| - 64], m[|m| - 64..];
      FullBlock(data[..], block);
      HashStream.ChainStep(HashStream.Md5, before, block);
      assert before + block == m == m[..|m|];
      abcd := BlockHostOrder(abcd, data[..]);
    }

    // The first step into a partly filled word: HOST_p_c2l.
    method TopUp(ghost m: Bytes, pos: nat, d: Bytes)
      requires Holds(m, pos) && pos < 64 && |d| == 4 - pos % 4
      modifies data
      ensures Holds(m + d, pos + |d|)
    {
      hide PaddedWord, PC2l, Holds;
      HoldsSize(m, pos);
      ghost var a := m[|m| - pos % 4..];
      if pos % 4 != 0 {
        PartWord(m, pos);
      }
      PC2lJoins(a, data[pos / 4], d);
      SetWord(m, pos, d, pos / 4, PC2l(data[pos / 4], pos % 4, d));
    }

    // A few bytes that stay within a partly filled word: HOST_p_c2l_p.
    method Within(ghost m: Bytes, pos: nat, d: Bytes)
      requires Holds(m, pos) && pos < 64 && 0 < |d| && pos % 4 + |d| < 4
      modifies data
      ensures Holds(m + d, pos + |d|)
    {
      hide PaddedWord, PC2lP, Holds;
      HoldsSize(m, pos);
      ghost var a := m[|m| - pos % 4..];
      if pos % 4 != 0 {
        PartWord(m, pos);
      }
      PC2lPJoins(a, data[pos / 4], d);
      SetWord(m, pos, d, pos / 4, PC2lP(data[pos / 4], pos % 4, d));
    }

    // The bytes after the last whole word: HOST_c2l_p.
    method Tail(ghost m: Bytes, pos: nat, d: Bytes)
      requires Holds(m, pos) && pos < 64 && pos % 4 == 0 && |d| < 4
      modifies data
      ensures Holds(m + d, pos + |d|)
    {
      hide PaddedWord, C2lP, HashStream.Chain;
      C2lPJoins(d);
      assert m[|m|..] + d == d;
      SetWord(m, pos, d, pos / 4, C2lP(d));
    }

    // md5_block_data_order: blocks straight from the byte string.
    method BlockDataOrder(ghost m: Bytes, d: Bytes, n: nat)
      requires Holds(m, 0) && |d| == 64 * n
      modifies this`abcd
      ensures Holds(m + d, 0)
    {
      hide HashStream.Chain, CompressWords, WordsLE, Packed;
      assert m[..|m|] == m && m + d[..0] == m;
      NothingPacked(data[..]);
      for i := 0 to n
        invariant abcd == HashStream.Chain(HashStream.Md5, m + d[..64 * i]) && |abcd| == 4
      {
        ghost var before, block := m + d[..64 * i], d[64 * i..64 * i + 64];
        HashStream.ChainStep(HashStream.Md5, before, block);
        assert before + block == m + d[..64 * (i + 1)];
        var x := LoadBlock(d[64 * i..64 * i + 64]);
        CompressBlock(abcd, block);
        abcd := BlockHostOrder(abcd, x);
      }
      ghost var all := m + d;
      assert d[..64 * n] == d && all[..|all|] == all && all[|all|..] == [];
    }

    // HASH_UPDATE.
    method Update(input: Bytes)
      requires Valid()
      modifies this, data
      ensures Valid() && fed == old(fed) + input
    {
      hide Holds, BitCount;
      if |input| == 0 {
        assert fed + input == fed;
        return;
      }
      Count(|input|);
      ghost var m := fed;
      fed := fed + input;
      var rest := input;
      if num != 0 {
        if num + |rest| >= 64 {
          FillBlock(m, rest[..64 - num]);
          m := m + rest[..64 - num];
          rest := rest[64 - num..];
          num := 0;
        } else {
          FillPart(m, rest);
          num := num + |rest|;
          return;
        }
      }
      assert m + rest == fed;
      WholeBlocks(m, rest);
    }

    // Less than a block into the empty block.
    method PackRest(ghost m: Bytes, rest: Bytes)
      requires Holds(m, 0) && |rest| < 64
      modifies data
      ensures Holds(m + rest, |rest|)
    {
      hide Holds;
      HoldsSize(m, 0);
      var ew := |rest| / 4;
      var whole, tail := rest[..4 * ew], rest[4 * ew..];
      SetWords(m, 0, ew, whole);
      Tail(m + whole, 4 * ew, tail);
      assert (m + whole) + tail == m + rest;
    }

    // With nothing buffered: whole blocks first, then the rest into the block.
    method WholeBlocks(ghost m: Bytes, d: Bytes)
      requires Holds(m, 0) && num == 0
      modifies this`abcd, this`num, data
      ensures Holds(m + d, num) && num == |m + d| % 64
    {
      hide Holds;
      HoldsSize(m, 0);
      var sw := |d| / 64;
      var blocks, rest := d[..64 * sw], d[64 * sw..];
      ghost var done := m + blocks;
      assert done + rest == m + d;
      if sw > 0 {
        BlockDataOrder(m, blocks, sw);
      } else {
        assert done == m;
      }
      RestOfBlocks(|m|, |d|);
      if |rest| != 0 {
        num := |rest|;
        PackRest(done, rest);
      } else {
        assert done == m + d;
      }
    }

    lemma RestOfBlocks(m: nat, d: nat)
      requires m % 64 == 0
      ensures d - 64 * (d / 64) < 64 && (m + d) % 64 == d - 64 * (d / 64)
    {
    }

    // Nl and Nh take in len bytes.
    method Count(len: nat)
      requires BitCount(|fed|, nl, nh)
      modifies this`nl, this`nh
      ensures BitCount(|fed| + len, nl, nh)
    {
      hide BitCount;
      CountBits(|fed|, nl, nh, len);
      ModSum(nh + (if (nl + 8 * len) % TWO32 < nl then 1 else 0), len / 0x2000_0000);
      var l := (nl + 8 * len) % TWO32;
      if l < nl {
        nh := (nh + 1) % TWO32;
      }
      nh := (nh + len / 0x2000_0000) % TWO32;
      nl := l;
    }

    // The bytes that fill the block, and the block.
    method FillBlock(ghost m: Bytes, d: Bytes)
      requires Holds(m, num) && 0 < num < 64 && |d| == 64 - num
      modifies this`abcd, data
      ensures Holds(m + d, 0)
    {
      hide Holds;
      var sw, sc := num / 4, num % 4;
      TopUp(m, num, d[..4 - sc]);
      SetWords(m + d[..4 - sc], sw + 1, 16, d[4 - sc..]);
      assert (m + d[..4 - sc]) + d[4 - sc..] == m + d;
      Block(m + d);
    }

    // Bytes that do not fill the block.
    method FillPart(ghost m: Bytes, d: Bytes)
      requires Holds(m, num) && 0 < num && 0 < |d| && num + |d| < 64
      modifies data
      ensures Holds(m + d, num + |d|)
    {
      hide Holds;
      var sw, sc := num / 4, num % 4;
      if sc + |d| < 4 {
        Within(m, num, d);
      } else {
        var ew, ec := (num + |d|) / 4, (num + |d|) % 4;
        PartPlace(num, |d|);
        TopUp(m, num, d[..4 - sc]);
        var upTo := 4 * ew - num;
        SetWords(m + d[..4 - sc], sw + 1, ew, d[4 - sc..upTo]);
        assert (m + d[..4 - sc]) + d[4 - sc..upTo] == m + d[..upTo];
        if ec != 0 {
          Tail(m + d[..upTo], 4 * ew, d[upTo..]);
        }
        assert (m + d[..upTo]) + d[upTo..] == m + d;
        if ec == 0 {
          assert d[..upTo] == d;
        }
      }
    }

    // The bytes that fill the first word, whole words, and the rest.
    lemma PartPlace(pos: nat, len: nat)
      requires pos + len < 64 && pos % 4 + len >= 4
      ensures var sw, sc, ew, ec := pos / 4, pos % 4, (pos + len) / 4, (pos + len) % 4;
        && pos + (4 - sc) == 4 * (sw + 1) <= 4 * ew < 64
        && 4 - sc <= 4 * ew - pos <= len && pos + len == 4 * ew + ec
    {
    }

    lemma HoldsSize(m: Bytes, pos: nat)
      requires Holds(m, pos)
      ensures data.Length == 16 && |abcd| == 4 && pos <= |m| && (|m| - pos) % 64 == 0
    {
    }

    // Zero words from word sw up to word ew.
    method ZeroWords(ghost m: Bytes, sw: nat, ew: nat)
      requires Holds(m, 4 * sw) && sw <= ew <= 16
      modifies data
      ensures Holds(m + Zeros(4 * (ew - sw)), 4 * ew)
    {
      hide PaddedWord, Holds;
      assert m + Zeros(0) == m;
      for i := sw to ew
        invariant Holds(m + Zeros(4 * (i - sw)), 4 * i)
      {
        ghost var done := m + Zeros(4 * (i - sw));
        ZeroWord();
        assert done[|done|..] + Zeros(4) == Zeros(4);
        SetWord(done, 4 * i, Zeros(4), i, 0);
        assert done + Zeros(4) == m + Zeros(4 * (i + 1 - sw));
      }
    }

    // A register stored into word i.
    method StoreWord(ghost m: Bytes, i: nat, w: bv32)
      requires Holds(m, 4 * i) && i < 16
      modifies data
      ensures Holds(m + BytesLE(w), 4 * i + 4)
    {
      hide PaddedWord, Holds, BytesLE;
      PackedBytes(w);
      assert m[|m|..] + BytesLE(w) == BytesLE(w);
      SetWord(m, 4 * i, BytesLE(w), i, w);
    }

    // The end mark, zeros to the end of its word, and with no room for the length the block.
    method StartPad() returns (i: nat, ghost m: Bytes)
      requires Valid()
      modifies this`abcd, data
      ensures i <= 14 && Holds(m, 4 * i)
      ensures |fed| % 64 < 56 ==> m == fed + [0x80] + Zeros(3 - |fed| % 4) && 4 * i == |fed| % 64 + 4 - |fed| % 4
      ensures |fed| % 64 >= 56 ==> m == fed + [0x80] + Zeros(63 - |fed| % 64) && i == 0
    {
      hide Holds, BitCount, Zeros;
      StartPlace(|fed|);
      i := num / 4;
      var j := num % 4;
      var end: Bytes := [0x80, 0, 0, 0];
      EndMark(end, j);
      TopUp(fed, num, end[..4 - j]);
      i := i + 1;
      m := fed + end[..4 - j];
      assert m == fed + [0x80] + Zeros(3 - j);
      if i > 14 {
        MoreZeros(fed + [0x80], 3 - j, 4 * (16 - i));
        ZeroWords(m, i, 16);
        m := m + Zeros(4 * (16 - i));
        Block(m);
        i := 0;
      }
    }

    // Where the end mark stands: in word i, j bytes into it.
    lemma StartPlace(n: nat)
      ensures var i, j := n % 64 / 4, n % 64 % 4;
        && j == n % 4 && 4 * i + j == n % 64 && i < 16
        && (n % 64 < 56 <==> i + 1 <= 14) && 3 - j + 4 * (16 - (i + 1)) == 63 - n % 64
    {
      var q, r := n / 64, n % 64;
      SplitInto(r, 4);
      SplitInto(n, 64);
      LastTwoBits(n, 16 * q + r / 4, r % 4);
    }

    lemma SplitInto(x: nat, d: nat)
      requires 0 < d
      ensures x == d * (x / d) + x % d && x % d < d
    {
    }

    lemma LastTwoBits(x: nat, high: nat, low: nat)
      requires x == 4 * high + low && low < 4
      ensures x % 4 == low
    {
    }

    lemma EndMark(end: Bytes, j: nat)
      requires end == [0x80, 0, 0, 0] && j < 4
      ensures end[..4 - j] == [0x80] + Zeros(3 - j)
    {
    }

    lemma MoreZeros(m: Bytes, a: nat, b: nat)
      ensures m + Zeros(a) + Zeros(b) == m + Zeros(a + b)
    {
      assert Zeros(a) + Zeros(b) == Zeros(a + b);
      assert m + Zeros(a) + Zeros(b) == m + (Zeros(a) + Zeros(b));
    }

    // HASH_FINAL. The digest is that of the streaming core, over all bytes fed.
    method Final() returns (md: Bytes)
      requires Valid()
      modifies this`abcd, this`num, data
      ensures md == HashStream.Digest(HashStream.Md5, fed) && num == 0
    {
      hide Holds, BytesLE, ToWord, OutputLE, HashStream.Chain;
      var i, m := StartPad();
      ZeroWords(m, i, 14);
      m := m + Zeros(4 * (14 - i));
      assert |fed| % 64 < 56 ==> m == fed + [0x80] + Zeros(55 - |fed| % 64);
      ghost var start := m;
      StoreWord(m, 14, ToWord(nl));
      m := m + BytesLE(ToWord(nl));
      StoreWord(m, 15, ToWord(nh));
      m := m + BytesLE(ToWord(nh));
      ghost var field := HashStream.LengthField(HashStream.Md5, |fed|);
      assert m == start + field;
      Block(m);
      HashStream.EndIsPadded(fed, m, field, 1);
      Whole(m);
      num := 0;
      md := OutputLE(abcd);
    }

    lemma Whole(m: Bytes)
      requires Holds(m, 0)
      ensures abcd == HashStream.Chain(HashStream.Md5, m)
    {
      assert m[..|m|] == m;
    }
  }

  lemma NothingPacked(ws: seq<bv32>)
    requires |ws| == 16
    ensures Packed(ws, [])
  {
  }

  lemma CompressBlock(h: seq<bv32>, block: Bytes)
    requires |h| == 4 && |block| == 64
    ensures HashStream.Compress(HashStream.Md5, h, block) == CompressWords(h, WordsLE(block))
  {
    hide CompressWords;
  }

  // The words of a block, in data order.
  method LoadBlock(d: Bytes) returns (x: seq<bv32>)
    requires |d| == 64
    ensures x == WordsLE(d)
  {
    hide C2l, Pack;
    x := [];
    for i := 0 to 16
      invariant |x| == i && forall j | 0 <= j < i :: x[j] == WordLE(d, j)
    {
      C2lIsPack(d[4 * i], d[4 * i + 1], d[4 * i + 2], d[4 * i + 3]);
      x := x + [C2l(d[4 * i], d[4 * i + 1], d[4 * i + 2], d[4 * i + 3])];
    }
  }

  // Begin, one call for every piece, end.
  method DigestPieces(pieces: seq<Bytes>) returns (md: Bytes)
    ensures md == HashStream.Digest(HashStream.Md5, Joined(pieces))
  {
    hide HashStream.Digest, HashStream.Chain, BitCount, Packed;
    var c := new Md5WordsContext();
    assert pieces[..0] == [];
    for i := 0 to |pieces|
      invariant c.Valid() && fresh(c) && fresh(c.data) && c.fed == Joined(pieces[..i])
    {
      assert pieces[..i + 1][..i] == pieces[..i];
      c.Update(pieces[i]);
    }
    assert pieces[..|pieces|] == pieces;
    md := c.Final();
  }

  // The two implementations agree on a message, each fed in its own pieces.
  method BothDigests(xs: seq<Bytes>, ys: seq<Bytes>) returns (x: Bytes, y: Bytes)
    requires Joined(xs) == Joined(ys)
    ensures x == y == HashStream.Digest(HashStream.Md5, Joined(xs))
  {
    hide HashStream.Digest;
    x := HashStream.DigestPieces(HashStream.Md5, xs);
    y := DigestPieces(ys);
  }
}
