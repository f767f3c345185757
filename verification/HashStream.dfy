/** The 64-byte streaming core shared by MD5, SHA-1 and SHA-256 in hash_md5_sha.c. */
module HashStream {
  import opened Common
  import opened HashCore
  import Rfc1321
  import Fips180
  import opened HashBlocks

  datatype Alg = Md5 | Sha1 | Sha256

  function HashWords(alg: Alg): nat {
    match alg case Md5 => 4 case Sha1 => 5 case Sha256 => 8
  }

  function InitHash(alg: Alg): (h: seq<bv32>)
    ensures |h| == HashWords(alg)
  {
    match alg case Md5 => Rfc1321.INIT case Sha1 => Fips180.SHA1_INIT case Sha256 => Fips180.SHA256_INIT
  }

  function Compress(alg: Alg, h: seq<bv32>, block: Bytes): (h': seq<bv32>)
    ensures |h'| == |h|
  {
    match alg
    case Md5 => Rfc1321.Compress(h, block)
    case Sha1 => Fips180.Sha1Compress(h, block)
    case Sha256 => Fips180.Sha256Compress(h, block)
  }

  function Compressor(alg: Alg): (seq<bv32>, Bytes) -> seq<bv32> {
    (h, block) => Compress(alg, h, block)
  }

  // The 64-bit length field: little-endian for MD5, big-endian for the SHA family.
  function LengthField(alg: Alg, n: nat): (f: Bytes)
    ensures |f| == 8
  {
    if alg == Md5 then Rfc1321.LengthField(n) else Fips180.LengthField64(n)
  }

  function Output(alg: Alg, h: seq<bv32>): Bytes {
    if alg == Md5 then OutputLE(h) else OutputBE(h)
  }

  // The chaining value after the whole blocks of m.
  function Chain(alg: Alg, m: Bytes): seq<bv32> {
    Fold(Compressor(alg), InitHash(alg), m, 64)
  }

  // The digest of the standards: pad once, fold over all blocks.
  function Digest(alg: Alg, m: Bytes): Bytes {
    Output(alg, Chain(alg, Padded(m, 64, LengthField(alg, |m|))))
  }

  lemma {:induction false} FoldKeepsSize(alg: Alg, h: seq<bv32>, m: Bytes)
    ensures |Fold(Compressor(alg), h, m, 64)| == |h|
    decreases |m|
  {
    hide Compress;
    if |m| >= 64 {
      FoldKeepsSize(alg, Compressor(alg)(h, m[..64]), m[64..]);
    }
  }

  lemma ChainStep(alg: Alg, m: Bytes, block: Bytes)
    requires |m| % 64 == 0 && |block| == 64
    ensures Chain(alg, m + block) == Compress(alg, Chain(alg, m), block)
    ensures |Chain(alg, m)| == HashWords(alg)
  {
    hide Compress, Fold;
    FoldOne(Compressor(alg), InitHash(alg), m, block, 64);
    FoldKeepsSize(alg, InitHash(alg), m);
  }

  lemma ChainNothing(alg: Alg)
    ensures Chain(alg, []) == InitHash(alg) && Wrap64(0) == 0 && Aligned(0) == 0
  {
    hide Compress, InitHash;
  }

  // The largest whole number of blocks.
  function Aligned(n: nat): nat {
    n - n % 64
  }

  class HashContext {
    const alg: Alg
    var hash: seq<bv32>
    var total64: nat
    const wbuffer: array<bv8>
    // Every byte fed so far.
    ghost var fed: Bytes

    ghost predicate Valid()
      reads this, wbuffer
    {
      && wbuffer.Length == 64
      && total64 == Wrap64(|fed|)
      && wbuffer[..|fed| % 64] == fed[Aligned(|fed|)..]
      && hash == Chain(alg, fed[..Aligned(|fed|)]) && |hash| == HashWords(alg)
    }

    // md5_begin, sha1_begin and sha256_begin.
    constructor (alg: Alg)
      ensures Valid() && fed == [] && this.alg == alg && fresh(wbuffer)
    {
      hide Chain, InitHash, Wrap64;
      ChainNothing(alg);
      this.alg := alg;
      hash := InitHash(alg);
      total64 := 0;
      wbuffer := new bv8[64];
      fed := [];
    }

    // The buffer holds the bytes after the whole blocks of data, of which pos are in place.
    ghost predicate Holds(data: Bytes, pos: nat)
      reads this`hash, wbuffer
    {
      && wbuffer.Length == 64 && pos <= 64 && pos <= |data| && (|data| - pos) % 64 == 0
      && wbuffer[..pos] == data[|data| - pos..]
      && hash == Chain(alg, data[..|data| - pos]) && |hash| == HashWords(alg)
    }

    // process_block on a full buffer.
    method ProcessBlock(ghost data: Bytes)
      requires Holds(data, 64)
      modifies this`hash
      ensures Holds(data, 0)
    {
      hide Chain, Compress;
      ghost var before, block := data[..|data| - 64], data[|data| - 64..];
      ChainStep(alg, before, block);
      assert before + block == data == data[..|data|];
      assert wbuffer[..] == block;
      BlockIsCompress(alg, hash, block);
      match alg {
        case Md5 =>
          hash := Md5ProcessBlock64(hash, WordsLE(wbuffer[..]));
        case Sha1 =>
          hash := Sha1ProcessBlock64(hash, wbuffer[..]);
        case Sha256 =>
          hash := Sha256ProcessBlock64(hash, wbuffer[..]);
      }
    }

    // Between calls the buffer holds what the whole blocks leave.
    lemma StartHolds()
      requires Valid()
      ensures Holds(fed, |fed| % 64)
    {
      hide Chain;
      assert |fed| - |fed| % 64 == Aligned(|fed|);
      AlignedIsWhole(|fed|);
    }

    lemma EndHolds(data: Bytes, pos: nat)
      requires Holds(data, pos) && pos < 64
      ensures pos == |data| % 64 && wbuffer.Length == 64
      ensures wbuffer[..|data| % 64] == data[Aligned(|data|)..] && hash == Chain(alg, data[..Aligned(|data|)])
      ensures |hash| == HashWords(alg)
    {
      hide Chain;
      PositionIsRest(|data|, pos);
    }

    // Bytes copied behind those already buffered.
    method Append(ghost data: Bytes, pos: nat, more: Bytes)
      requires Holds(data, pos) && pos + |more| <= 64
      modifies wbuffer
      ensures Holds(data + more, pos + |more|)
    {
      hide Chain;
      Put(wbuffer, pos, more);
      PendingGrows(data, pos, more);
      assert wbuffer[..pos + |more|] == wbuffer[..pos] + wbuffer[pos..pos + |more|];
    }

    // common64_hash.
    method Hash(buffer: Bytes)
      requires Valid()
      modifies this`hash, this`total64, this`fed, wbuffer
      ensures Valid() && fed == old(fed) + buffer
    {
      hide Chain, Holds, Wrap64;
      BlockPosition(fed, total64);
      StartHolds();
      var bufpos := total64 % 64;
      total64 := Wrap64(total64 + |buffer|);
      ghost var data := fed;
      var rest := buffer;
      while true
        invariant 0 <= bufpos < 64 && Holds(data, bufpos)
        invariant data + rest == old(fed) + buffer && total64 == Wrap64(old(total64) + |buffer|)
        decreases |rest|, bufpos
      {
        var remaining := 64 - bufpos;
        if remaining > |rest| {
          remaining := |rest|;
        }
        assert data + rest == (data + rest[..remaining]) + rest[remaining..];
        Append(data, bufpos, rest[..remaining]);
        data := data + rest[..remaining];
        rest := rest[remaining..];
        bufpos := bufpos + remaining;
        if bufpos != 64 {
          break;
        }
        ProcessBlock(data);
        bufpos := 0;
      }
      assert data == old(fed) + buffer;
      CountFollows(|old(fed)|, |buffer|);
      EndHolds(data, bufpos);
      fed := data;
    }

    // One pass of the end loop: zeros, the length field when it fits, and the block.
    method PadBlock(ghost data: Bytes, bufpos: nat) returns (remaining: nat)
      requires bufpos <= 64
      requires Holds(data, bufpos)
      modifies this`hash, wbuffer
      ensures remaining == 64 - bufpos
      ensures Holds(data + PadBytes(alg, total64, remaining), 0)
    {
      hide Chain, Holds, Wrap64, StoreLength;
      remaining := 64 - bufpos;
      if remaining >= 8 {
        Append(data, bufpos, Zeros(remaining - 8));
        var field := StoreLength(alg, Wrap64(total64 * 8));
        Append(data + Zeros(remaining - 8), 56, field);
        assert (data + Zeros(remaining - 8)) + field == data + (Zeros(remaining - 8) + field);
        ProcessBlock(data + (Zeros(remaining - 8) + field));
      } else {
        Append(data, bufpos, Zeros(remaining));
        ProcessBlock(data + Zeros(remaining));
      }
    }

    // common64_end followed by the output of md5_end and sha1_end.
    method End() returns (resbuf: Bytes, ghost passes: nat)
      requires Valid()
      modifies this`hash, wbuffer
      ensures resbuf == Digest(alg, fed)
      ensures passes == if |fed| % 64 < 56 then 1 else 2
    {
      hide Chain, Holds, LengthField, Output, Wrap64, StoreLength;
      BlockPosition(fed, total64);
      StartHolds();
      passes := 0;
      var bufpos := total64 % 64;
      ghost var data := fed;
      Append(data, bufpos, [0x80]);
      data := data + [0x80];
      bufpos := bufpos + 1;
      while true
        invariant 0 <= bufpos <= 64 && passes <= 1
        invariant passes == 0 ==> data == fed + [0x80] && bufpos == |fed| % 64 + 1 && Holds(data, bufpos)
        invariant passes == 1 ==> |fed| % 64 >= 56 && bufpos == 0 && Holds(data, 0)
        invariant passes == 1 ==> data == fed + [0x80] + Zeros(63 - |fed| % 64)
        decreases 1 - passes
      {
        var remaining := PadBlock(data, bufpos);
        data := data + PadBytes(alg, total64, remaining);
        passes := passes + 1;
        if remaining >= 8 {
          break;
        }
        bufpos := 0;
      }
      StoredLength(alg, |fed|);
      EndIsPadded(fed, data, LengthField(alg, |fed|), passes);
      WholeChain(data);
      resbuf := Output(alg, hash);
    }

    lemma WholeChain(data: Bytes)
      requires Holds(data, 0)
      ensures hash == Chain(alg, data)
    {
      hide Chain;
      assert data[..|data|] == data;
    }
  }

  // What one pass of the end loop puts into the buffer.
  function PadBytes(alg: Alg, total64: nat, remaining: nat): Bytes {
    if remaining >= 8 then Zeros(remaining - 8) + StoreLength(alg, Wrap64(total64 * 8)) else Zeros(remaining)
  }

  // The 64-bit counter of bits as it lies in memory after the optional byte swap.
  function StoreLength(alg: Alg, t: nat): (f: Bytes)
    requires t < TWO64
    ensures |f| == 8
  {
    if alg == Md5 then BytesLE(ToWord(t % TWO32)) + BytesLE(ToWord(t / TWO32))
    else BytesBE(ToWord(t / TWO32)) + BytesBE(ToWord(t % TWO32))
  }

  // Shifting the wrapped byte counter gives the length field of the standards.
  lemma StoredLength(alg: Alg, n: nat)
    ensures StoreLength(alg, Wrap64(Wrap64(n) * 8)) == LengthField(alg, n)
  {
    hide BytesLE, BytesBE, ToWord, Wrap64;
    ShiftedCounter(n);
    HalvesOf(8 * n);
  }

  lemma ShiftedCounter(n: nat)
    ensures Wrap64(Wrap64(n) * 8) == Wrap64(8 * n)
  {
    var q, r := n / TWO64, n % TWO64;
    assert 8 * n == 8 * r + TWO64 * (8 * q);
    WrapsAround(8 * r, 8 * q);
  }

  lemma WrapsAround(x: nat, k: nat)
    ensures Wrap64(x + TWO64 * k) == Wrap64(x)
  {
    var q, r := x / TWO64, x % TWO64;
    assert x + TWO64 * k == TWO64 * (q + k) + r;
  }

  lemma HalvesOf(x: nat)
    ensures Wrap64(x) % TWO32 == x % TWO32 && Wrap64(x) / TWO32 == x / TWO32 % TWO32
  {
    var q, r := x / TWO64, x % TWO64;
    assert x == TWO32 * (TWO32 * q) + r;
    assert x / TWO32 == TWO32 * q + r / TWO32;
  }

  // What the end loop feeds is the padding of the standards.
  lemma EndIsPadded(m: Bytes, data: Bytes, field: Bytes, passes: nat)
    requires |field| == 8
    requires |m| % 64 < 56 ==> data == m + [0x80] + Zeros(55 - |m| % 64) + field
    requires |m| % 64 >= 56 ==> data == m + [0x80] + Zeros(63 - |m| % 64) + Zeros(56) + field
    ensures data == Padded(m, 64, field)
  {
    PadZerosOf(|m|);
    if |m| % 64 >= 56 {
      assert Zeros(63 - |m| % 64) + Zeros(56) == Zeros(119 - |m| % 64);
      assert data == m + [0x80] + (Zeros(63 - |m| % 64) + Zeros(56)) + field;
    }
  }

  lemma PadZerosOf(n: nat)
    ensures PadZeros(n, 64, 8) == if n % 64 < 56 then 55 - n % 64 else 119 - n % 64
  {
    Remainder(n / 64, n % 64 + 9);
  }

  // The remainder after 9 bytes more, from the one before.
  lemma Remainder(q: nat, x: nat)
    requires x < 2 * 64
    ensures (64 * q + x) % 64 == if x < 64 then x else x - 64
  {
  }

  lemma BlockIsCompress(alg: Alg, h: seq<bv32>, block: Bytes)
    requires |block| == 64 && |h| == HashWords(alg)
    ensures Compress(alg, h, block) == match alg
      case Md5 => Rfc1321.CompressWords(h, WordsLE(block))
      case Sha1 => Fips180.Sha1Compress(h, block)
      case Sha256 => Fips180.Sha256Compress(h, block)
  {
    hide Rfc1321.CompressWords, Fips180.Sha1Compress, Fips180.Sha256Compress;
  }

  lemma AlignedIsWhole(n: nat)
    ensures Aligned(n) % 64 == 0
  {
  }

  lemma PositionIsRest(n: nat, pos: nat)
    requires pos < 64 && pos <= n && (n - pos) % 64 == 0
    ensures n % 64 == pos && Aligned(n) == n - pos
  {
  }

  // The counter modulo 2^64 still tells how many bytes are buffered.
  lemma BlockPosition(fed: Bytes, total: nat)
    requires total == Wrap64(|fed|)
    ensures total % 64 == |fed| % 64
  {
  }

  lemma CountFollows(n: nat, k: nat)
    ensures Wrap64(Wrap64(n) + k) == Wrap64(n + k)
  {
  }

  // Begin, one call for every piece, end: the digest of the message, however it is cut.
  method DigestPieces(alg: Alg, pieces: seq<Bytes>) returns (digest: Bytes)
    ensures digest == Digest(alg, Joined(pieces))
  {
    hide Digest, Chain, Wrap64, Aligned, HashWords;
    var ctx := new HashContext(alg);
    assert pieces[..0] == [];
    for i := 0 to |pieces|
      invariant ctx.Valid() && ctx.alg == alg && fresh(ctx) && fresh(ctx.wbuffer)
      invariant ctx.fed == Joined(pieces[..i])
    {
      assert pieces[..i + 1][..i] == pieces[..i];
      ctx.Hash(pieces[i]);
    }
    assert pieces[..|pieces|] == pieces;
    ghost var passes;
    digest, passes := ctx.End();
  }
}
