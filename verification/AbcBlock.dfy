/** The one block that "abc" is padded to. */
module AbcBlock {
  import opened Common
  import opened HashCore
  import Fips180
  import Rfc1321
  import Sha512Stream

  const ABC: Bytes := [0x61, 0x62, 0x63]

  // 16 words, of which all but the first and one other are zero.
  predicate IsAbc<W(==)>(m: seq<W>, first: W, zero: W, at: nat, length: W)
    requires at < 16
  {
    |m| == 16 && m[0] == first && m[at] == length && forall i | 0 < i < 16 && i != at :: m[i] == zero
  }

  lemma AbcBytes(field: Bytes)
    requires |field| == 8
    ensures var block := Padded(ABC, 64, field);
      && |block| == 64 && block[0] == 0x61 && block[1] == 0x62 && block[2] == 0x63 && block[3] == 0x80
      && (forall i | 4 <= i < 56 :: block[i] == 0) && forall i | 56 <= i < 64 :: block[i] == field[i - 56]
  {
    assert PadZeros(3, 64, 8) == 52;
  }

  // Three letters and a one bit in front, and the byte at at, the lowest of the length, behind.
  predicate IsAbcBytes(block: Bytes, at: nat)
    requires 4 <= at < |block|
  {
    && block[0] == 0x61 && block[1] == 0x62 && block[2] == 0x63 && block[3] == 0x80 && block[at] == 0x18
    && forall i | 4 <= i < |block| && i != at :: block[i] == 0
  }

  // The block in big-endian order, with the length in the last word.
  lemma BlockBE()
    ensures var block := Padded(ABC, 64, Fips180.LengthField64(3));
      |block| == 64 && IsAbc(WordsBE(block), 0x61626380, 0, 15, 0x18)
  {
    var block := Padded(ABC, 64, Fips180.LengthField64(3));
    FieldBE();
    AbcBytes(Fips180.LengthField64(3));
    hide Padded, Fips180.LengthField64;
    assert IsAbcBytes(block, 63);
    hide WordBE, IsAbcBytes;
    forall j: nat | j < 16
      ensures WordBE(block, j) == if j == 0 then 0x61626380 else if j == 15 then 0x18 else 0
    {
      BigEndianWord(block, j);
    }
  }

  // The block in little-endian order, with the length in the last word but one.
  lemma BlockLE()
    ensures var block := Padded(ABC, 64, Rfc1321.LengthField(3));
      |block| == 64 && IsAbc(WordsLE(block), 0x80636261, 0, 14, 0x18)
  {
    var block := Padded(ABC, 64, Rfc1321.LengthField(3));
    FieldLE();
    AbcBytes(Rfc1321.LengthField(3));
    hide Padded, Rfc1321.LengthField;
    assert IsAbcBytes(block, 56);
    hide WordLE, IsAbcBytes;
    forall j: nat | j < 16
      ensures WordLE(block, j) == if j == 0 then 0x80636261 else if j == 14 then 0x18 else 0
    {
      LittleEndianWord(block, j);
    }
  }

  lemma BigEndianWord(block: Bytes, j: nat)
    requires |block| == 64 || |block| == 128
    requires IsAbcBytes(block, |block| - 1) && 4 * j < |block|
    ensures WordBE(block, j) == if j == 0 then 0x61626380 else if j == |block| / 4 - 1 then 0x18 else 0
  {
    LiteralWords();
    hide Pack;
  }

  lemma LittleEndianWord(block: Bytes, j: nat)
    requires |block| == 64 && IsAbcBytes(block, 56) && j < 16
    ensures WordLE(block, j) == if j == 0 then 0x80636261 else if j == 14 then 0x18 else 0
  {
    LiteralWords();
    hide Pack;
  }

  lemma LiteralWords()
    ensures Pack(0, 0, 0, 0) == 0 && Pack(0x18, 0, 0, 0) == 0x18
    ensures Pack(0x80, 0x63, 0x62, 0x61) == 0x61626380 && Pack(0x61, 0x62, 0x63, 0x80) == 0x80636261
  {
  }

  lemma FieldBE()
    ensures Fips180.LengthField64(3) == [0, 0, 0, 0, 0, 0, 0, 0x18]
  {
    assert 8 * 3 / 0x1_0000_0000 == 0;
    assert BytesBE(ToWord(0)) == [0, 0, 0, 0] && BytesBE(ToWord(24)) == [0, 0, 0, 0x18];
  }

  lemma FieldLE()
    ensures Rfc1321.LengthField(3) == [0x18, 0, 0, 0, 0, 0, 0, 0]
  {
    assert 8 * 3 / 0x1_0000_0000 == 0;
    assert BytesLE(ToWord(0)) == [0, 0, 0, 0] && BytesLE(ToWord(24)) == [0x18, 0, 0, 0];
  }

  lemma Associates(a: Bytes, b: Bytes, c: Bytes, d: Bytes, e: Bytes)
    ensures a + (b + (c + (d + e))) == a + b + c + d + e
  {
  }

  lemma MoreLE(w: bv32, ws: seq<bv32>)
    ensures OutputLE([w] + ws) == BytesLE(w) + OutputLE(ws)
  {
    assert ([w] + ws)[1..] == ws;
  }

  lemma FourLE(a: bv32, b: bv32, c: bv32, d: bv32, more: seq<bv32>)
    ensures OutputLE([a, b, c, d] + more) == BytesLE(a) + BytesLE(b) + BytesLE(c) + BytesLE(d) + OutputLE(more)
  {
    hide BytesLE, OutputLE;
    MoreLE(d, more);
    MoreLE(c, [d] + more);
    MoreLE(b, [c] + ([d] + more));
    MoreLE(a, [b] + ([c] + ([d] + more)));
    assert [a, b, c, d] + more == [a] + ([b] + ([c] + ([d] + more)));
    Associates(BytesLE(a), BytesLE(b), BytesLE(c), BytesLE(d), OutputLE(more));
  }

  lemma MoreBE(w: bv32, ws: seq<bv32>)
    ensures OutputBE([w] + ws) == BytesBE(w) + OutputBE(ws)
  {
    assert ([w] + ws)[1..] == ws;
  }

  lemma FourBE(a: bv32, b: bv32, c: bv32, d: bv32, more: seq<bv32>)
    ensures OutputBE([a, b, c, d] + more) == BytesBE(a) + BytesBE(b) + BytesBE(c) + BytesBE(d) + OutputBE(more)
  {
    hide BytesBE, OutputBE;
    MoreBE(d, more);
    MoreBE(c, [d] + more);
    MoreBE(b, [c] + ([d] + more));
    MoreBE(a, [b] + ([c] + ([d] + more)));
    assert [a, b, c, d] + more == [a] + ([b] + ([c] + ([d] + more)));
    Associates(BytesBE(a), BytesBE(b), BytesBE(c), BytesBE(d), OutputBE(more));
  }

  lemma NoOutput(b: Bytes)
    ensures OutputBE([]) == OutputLE([]) == [] && b + [] == b
  {
  }

  lemma EightBE(a: bv32, b: bv32, c: bv32, d: bv32, e: bv32, f: bv32, g: bv32, h: bv32)
    ensures OutputBE([a, b, c, d, e, f, g, h]) == BytesBE(a) + BytesBE(b) + BytesBE(c) + BytesBE(d) +
      (BytesBE(e) + BytesBE(f) + BytesBE(g) + BytesBE(h))
  {
    hide BytesBE, OutputBE;
    FourBE(a, b, c, d, [e, f, g, h]);
    assert [a, b, c, d] + [e, f, g, h] == [a, b, c, d, e, f, g, h];
    FourBE(e, f, g, h, []);
    assert [e, f, g, h] + [] == [e, f, g, h];
    NoOutput(BytesBE(e) + BytesBE(f) + BytesBE(g) + BytesBE(h));
  }

  // The block of SHA-512, 64-bit words with the length in the last.
  lemma LongBlock()
    ensures var block := Padded(ABC, 128, Fips180.LengthField128(3));
      |block| == 128 && IsAbc(Fips180.LongsBE(block), 0x6162638000000000, 0, 15, 0x18)
  {
    var block := Padded(ABC, 128, Fips180.LengthField128(3));
    LongField();
    LongAbcBytes(Fips180.LengthField128(3));
    hide Padded, Fips180.LengthField128;
    assert IsAbcBytes(block, 127);
    hide Fips180.LongBE, IsAbcBytes;
    forall i: nat | i < 16
      ensures Fips180.LongBE(block, i) == if i == 0 then 0x6162638000000000 else if i == 15 then 0x18 else 0
    {
      LongOfBlock(block, i);
    }
  }

  lemma LongOfBlock(block: Bytes, i: nat)
    requires |block| == 128 && IsAbcBytes(block, 127) && i < 16
    ensures Fips180.LongBE(block, i) == if i == 0 then 0x6162638000000000 else if i == 15 then 0x18 else 0
  {
    LiteralLongs();
    hide Joined64, Fips180.LongBE, WordBE, IsAbcBytes;
    LongOf(block, i);
    BigEndianWord(block, 2 * i);
    BigEndianWord(block, 2 * i + 1);
  }

  lemma LongOf(block: Bytes, i: nat)
    requires |block| == 128 && i < 16
    ensures Fips180.LongBE(block, i) == Joined64(WordBE(block, 2 * i), WordBE(block, 2 * i + 1))
  {
  }

  function Joined64(high: bv32, low: bv32): bv64 {
    (high as bv64 << 32) | (low as bv64)
  }

  lemma LiteralLongs()
    ensures Joined64(0, 0) == 0 && Joined64(0, 0x18) == 0x18 && Joined64(0x61626380, 0) == 0x6162638000000000
  {
  }

  lemma LongAbcBytes(field: Bytes)
    requires |field| == 16
    ensures var block := Padded(ABC, 128, field);
      && |block| == 128 && block[0] == 0x61 && block[1] == 0x62 && block[2] == 0x63 && block[3] == 0x80
      && (forall i | 4 <= i < 112 :: block[i] == 0) && forall i | 112 <= i < 128 :: block[i] == field[i - 112]
  {
    assert PadZeros(3, 128, 16) == 108;
  }

  lemma LongField()
    ensures Fips180.LengthField128(3) == [0, 0, 0, 0, 0, 0, 0, 0, 0, 0, 0, 0, 0, 0, 0, 0x18]
  {
    assert 8 * 3 / 0x1_0000_0000_0000_0000 == 0;
    assert Fips180.ToLong(0) == 0 && Fips180.ToLong(24) == 24;
    assert Fips180.LongBytes(0) == [0, 0, 0, 0, 0, 0, 0, 0];
    assert Fips180.LongBytes(24) == [0, 0, 0, 0, 0, 0, 0, 0x18];
  }

  lemma MoreLongs(w: bv64, ws: seq<bv64>)
    ensures Sha512Stream.Output([w] + ws) == Fips180.LongBytes(w) + Sha512Stream.Output(ws)
  {
    assert ([w] + ws)[1..] == ws;
  }

  lemma FourLongs(a: bv64, b: bv64, c: bv64, d: bv64, more: seq<bv64>)
    ensures Sha512Stream.Output([a, b, c, d] + more) == Fips180.LongBytes(a) + Fips180.LongBytes(b) +
      Fips180.LongBytes(c) + Fips180.LongBytes(d) + Sha512Stream.Output(more)
  {
    hide Fips180.LongBytes, Sha512Stream.Output;
    MoreLongs(d, more);
    MoreLongs(c, [d] + more);
    MoreLongs(b, [c] + ([d] + more));
    MoreLongs(a, [b] + ([c] + ([d] + more)));
    assert [a, b, c, d] + more == [a] + ([b] + ([c] + ([d] + more)));
    Associates(Fips180.LongBytes(a), Fips180.LongBytes(b), Fips180.LongBytes(c), Fips180.LongBytes(d),
               Sha512Stream.Output(more));
  }

  lemma EightLongs(a: bv64, b: bv64, c: bv64, d: bv64, e: bv64, f: bv64, g: bv64, h: bv64)
    ensures Sha512Stream.Output([a, b, c, d, e, f, g, h]) ==
      Fips180.LongBytes(a) + Fips180.LongBytes(b) + Fips180.LongBytes(c) + Fips180.LongBytes(d) +
      (Fips180.LongBytes(e) + Fips180.LongBytes(f) + Fips180.LongBytes(g) + Fips180.LongBytes(h))
  {
    NoLongs();
    hide Fips180.LongBytes, Sha512Stream.Output;
    FourLongs(a, b, c, d, [e, f, g, h]);
    assert [a, b, c, d] + [e, f, g, h] == [a, b, c, d, e, f, g, h];
    FourLongs(e, f, g, h, []);
    assert [e, f, g, h] + [] == [e, f, g, h];
    NoOutput(Fips180.LongBytes(e) + Fips180.LongBytes(f) + Fips180.LongBytes(g) + Fips180.LongBytes(h));
  }

  lemma NoLongs()
    ensures Sha512Stream.Output([]) == []
  {
  }

  // One block is compressed once.
  lemma FoldBlock<H>(f: (H, Bytes) -> H, h: H, block: Bytes, size: nat)
    requires BlockSize(size) && |block| == size
    ensures Fold(f, h, block, size) == f(h, block)
  {
    FoldOne(f, h, [], block, size);
    assert [] + block == block;
  }
}
