/** What the Merkle-Damgard hashes share: words and bytes, folding a compression function over
    blocks, and padding. */
module HashCore {
  import opened Common

  const TWO61 := 0x2000_0000_0000_0000
  const TWO64 := 0x1_0000_0000_0000_0000

  // A number below 2^32 as a word, and arithmetic modulo 2^64.
  function ToWord(x: nat): bv32
    requires x < TWO32
  {
    x as bv32
  }

  function Wrap64(n: nat): (r: nat)
    ensures r < TWO64
  {
    n % TWO64
  }

  function Byte0(w: bv32): bv8 { (w & 0xFF) as bv8 }
  function Byte1(w: bv32): bv8 { ((w >> 8) & 0xFF) as bv8 }
  function Byte2(w: bv32): bv8 { ((w >> 16) & 0xFF) as bv8 }
  function Byte3(w: bv32): bv8 { ((w >> 24) & 0xFF) as bv8 }

  // The word with bytes b0 (lowest) to b3.
  function Pack(b0: bv8, b1: bv8, b2: bv8, b3: bv8): bv32 {
    (b0 as bv32) | (b1 as bv32 << 8) | (b2 as bv32 << 16) | (b3 as bv32 << 24)
  }

  function BytesLE(w: bv32): (b: Bytes)
    ensures |b| == 4
  {
    [Byte0(w), Byte1(w), Byte2(w), Byte3(w)]
  }

  function BytesBE(w: bv32): (b: Bytes)
    ensures |b| == 4
  {
    [Byte3(w), Byte2(w), Byte1(w), Byte0(w)]
  }

  lemma PackBytes(w: bv32)
    ensures Pack(Byte0(w), Byte1(w), Byte2(w), Byte3(w)) == w
  {
  }

  // Word i of a byte string, in either byte order.
  function WordLE(b: Bytes, i: nat): bv32
    requires 4 * i + 4 <= |b|
  {
    Pack(b[4 * i], b[4 * i + 1], b[4 * i + 2], b[4 * i + 3])
  }

  function WordBE(b: Bytes, i: nat): bv32
    requires 4 * i + 4 <= |b|
  {
    Pack(b[4 * i + 3], b[4 * i + 2], b[4 * i + 1], b[4 * i])
  }

  function WordsLE(b: Bytes): (ws: seq<bv32>)
    ensures |ws| == |b| / 4
  {
    seq(|b| / 4, i requires 0 <= i < |b| / 4 => WordLE(b, i))
  }

  function WordsBE(b: Bytes): (ws: seq<bv32>)
    ensures |ws| == |b| / 4
  {
    seq(|b| / 4, i requires 0 <= i < |b| / 4 => WordBE(b, i))
  }

  // The words of a digest as bytes.
  function OutputLE(ws: seq<bv32>): Bytes {
    if ws == [] then [] else BytesLE(ws[0]) + OutputLE(ws[1..])
  }

  function OutputBE(ws: seq<bv32>): Bytes {
    if ws == [] then [] else BytesBE(ws[0]) + OutputBE(ws[1..])
  }

  // Addition modulo 2^32.
  function Add(x: bv32, y: bv32): bv32 {
    x + y
  }

  lemma AddCommutes(x: bv32, y: bv32)
    ensures Add(x, y) == Add(y, x)
  {
  }

  lemma AddAssociates(x: bv32, y: bv32, z: bv32)
    ensures Add(Add(x, y), z) == Add(x, Add(y, z))
  {
    assert Add(x + y, z) == Add(x, y + z);
  }

  function Rotl(x: bv32, n: bv32): bv32
    requires 0 < n < 32
  {
    (x << n) | (x >> (32 - n))
  }

  function Rotr(x: bv32, n: bv32): bv32
    requires 0 < n < 32
  {
    (x >> n) | (x << (32 - n))
  }

  // memcpy or memset into a buffer.
  method Put(buffer: array<bv8>, pos: nat, data: Bytes)
    requires pos + |data| <= buffer.Length
    modifies buffer
    ensures buffer[..pos] == old(buffer[..pos]) && buffer[pos..pos + |data|] == data
  {
    for i := 0 to |data|
      invariant buffer[..pos] == old(buffer[..pos]) && buffer[pos..pos + i] == data[..i]
    {
      buffer[pos + i] := data[i];
    }
  }

  // Of data the last pos bytes are pending, and more is added to them.
  lemma PendingGrows(data: Bytes, pos: nat, more: Bytes)
    requires pos <= |data|
    ensures var all := data + more;
      && all[..|all| - (pos + |more|)] == data[..|data| - pos]
      && all[|all| - (pos + |more|)..] == data[|data| - pos..] + more
  {
  }

  // ---------- Folding over blocks ----------

  // The chaining value after all whole blocks of m.
  function Fold<H>(f: (H, Bytes) -> H, h: H, m: Bytes, size: nat): H
    requires 0 < size
    decreases |m|
  {
    if |m| < size then h else Fold(f, f(h, m[..size]), m[size..], size)
  }

  lemma {:induction false} FoldAppend<H>(f: (H, Bytes) -> H, h: H, a: Bytes, b: Bytes, size: nat)
    requires BlockSize(size) && |a| % size == 0
    ensures Fold(f, h, a + b, size) == Fold(f, Fold(f, h, a, size), b, size)
    decreases |a|
  {
    if |a| < size {
      assert |a| == 0;
      assert a + b == b;
    } else {
      assert (a + b)[..size] == a[..size] && (a + b)[size..] == a[size..] + b;
      assert |a[size..]| % size == 0 by { ModMinus(|a|, size); }
      FoldAppend(f, f(h, a[..size]), a[size..], b, size);
    }
  }

  predicate BlockSize(size: nat) {
    size == 64 || size == 128
  }

  lemma ModMinus(n: nat, size: nat)
    requires BlockSize(size) && size <= n
    ensures (n - size) % size == n % size
  {
  }

  lemma FoldOne<H>(f: (H, Bytes) -> H, h: H, a: Bytes, block: Bytes, size: nat)
    requires BlockSize(size) && |a| % size == 0 && |block| == size
    ensures Fold(f, h, a + block, size) == f(Fold(f, h, a, size), block)
  {
    FoldAppend(f, h, a, block, size);
    var g := Fold(f, h, a, size);
    assert block[..size] == block && block[size..] == [];
    assert Fold(f, g, block, size) == Fold(f, f(g, block), [], size);
  }

  // The two 32-bit halves of a number modulo 2^64.
  lemma HalvesOfLong(x: nat, lo: nat, hi: nat)
    requires lo < TWO32 && hi < TWO32 && TWO32 * hi + lo == x % TWO64
    ensures x % TWO32 == lo && x / TWO32 % TWO32 == hi
  {
  }

  // A message cut into pieces.
  function Joined(pieces: seq<Bytes>): Bytes {
    if pieces == [] then [] else Joined(pieces[..|pieces| - 1]) + pieces[|pieces| - 1]
  }

  // ---------- Padding ----------

  // The least number of zero bytes that brings n + 1 + lengthBytes to whole blocks.
  function PadZeros(n: nat, size: nat, lengthBytes: nat): (z: nat)
    requires 0 < size
  {
    (size - (n + 1 + lengthBytes) % size) % size
  }

  // A one bit, zeros, and the length field.
  function Padded(m: Bytes, size: nat, lengthField: Bytes): Bytes
    requires 0 < size
  {
    m + [0x80] + Zeros(PadZeros(|m|, size, |lengthField|)) + lengthField
  }

  // Sections 5.1.1 and 5.1.2 of FIPS 180-4, and 3.1 of RFC 1321: a one bit, the least number of zeros that
  // leaves room for the length, and the length.
  lemma PaddingIsLeast(m: Bytes, size: nat, field: Bytes)
    requires BlockSize(size)
    ensures var p, z := Padded(m, size, field), |Padded(m, size, field)| - |m| - 1 - |field|;
      && |p| % size == 0 && 0 <= z < size && p[..|m|] == m && p[|m|] == 0x80
      && (forall i | |m| < i < |m| + 1 + z :: p[i] == 0) && p[|m| + 1 + z..] == field
  {
    var n, z := |m| + 1 + |field|, PadZeros(|m|, size, |field|);
    WholeAfter(n, size);
    var p := Padded(m, size, field);
    assert p == m + ([0x80] + Zeros(z) + field);
  }

  lemma WholeAfter(n: nat, size: nat)
    requires BlockSize(size)
    ensures (n + (size - n % size) % size) % size == 0
  {
    if size == 64 {
      WholeAfter64(n);
    } else {
      WholeAfter128(n);
    }
  }

  lemma WholeAfter64(n: nat)
    ensures (n + (64 - n % 64) % 64) % 64 == 0
  {
    assert (64 - n % 64) % 64 == if n % 64 == 0 then 0 else 64 - n % 64;
  }

  lemma WholeAfter128(n: nat)
    ensures (n + (128 - n % 128) % 128) % 128 == 0
  {
    assert (128 - n % 128) % 128 == if n % 128 == 0 then 0 else 128 - n % 128;
  }
}
