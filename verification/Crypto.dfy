/** Cipher block chaining over 16-byte blocks, string encryption and file encryption. */
module Crypto {
  import opened Aes
  import opened Fips197
  import opened Decimal
  import opened Common

  // ---------- Cipher block chaining, section 6.2 of NIST SP 800-38A ----------

  function XorBlock(a: Bytes, b: Bytes): (c: Bytes)
    requires |a| == |b|
    ensures |c| == |a|
  {
    seq(|a|, i requires 0 <= i < |a| => a[i] ^ b[i])
  }

  function CbcEncrypt(key: Bytes, iv: Bytes, p: Bytes): (c: Bytes)
    requires ValidKey(key) && |iv| == 16 && |p| % 16 == 0
    ensures |c| == |p|
    decreases |p|
  {
    if p == [] then [] else
      var block := EncryptBytes(key, 4, XorBlock(p[..16], iv));
      block + CbcEncrypt(key, block, p[16..])
  }

  function CbcDecrypt(key: Bytes, iv: Bytes, c: Bytes): (p: Bytes)
    requires ValidKey(key) && |iv| == 16 && |c| % 16 == 0
    ensures |p| == |c|
    decreases |c|
  {
    if c == [] then [] else
      XorBlock(DecryptBytes(key, 4, c[..16]), iv) + CbcDecrypt(key, c[..16], c[16..])
  }

  lemma XorBlockTwice(a: Bytes, b: Bytes)
    requires |a| == |b|
    ensures XorBlock(XorBlock(a, b), b) == a
  {
    forall i | 0 <= i < |a|
      ensures (a[i] ^ b[i]) ^ b[i] == a[i]
    {
      XorByteTwice(a[i], b[i]);
    }
  }

  lemma XorByteTwice(a: bv8, b: bv8)
    ensures (a ^ b) ^ b == a
  {
  }

  // Chaining with any key and any starting vector is undone block by block.
  lemma {:induction false} CbcRoundTrip(key: Bytes, iv: Bytes, p: Bytes)
    requires ValidKey(key) && |iv| == 16 && |p| % 16 == 0
    ensures CbcDecrypt(key, iv, CbcEncrypt(key, iv, p)) == p
    decreases |p|
  {
    hide EncryptBytes, DecryptBytes, XorBlock;
    if p != [] {
      var mixed := XorBlock(p[..16], iv);
      var block := EncryptBytes(key, 4, mixed);
      var c := CbcEncrypt(key, iv, p);
      assert c[..16] == block && c[16..] == CbcEncrypt(key, block, p[16..]);
      DecryptUndoesEncrypt(key, 4, mixed);
      XorBlockTwice(p[..16], iv);
      CbcRoundTrip(key, block, p[16..]);
    }
  }

  // Block i is ciphered after the block before it, or the starting vector, is added to it.
  lemma {:induction false} CbcBlock(key: Bytes, iv: Bytes, p: Bytes, i: nat, x: Bytes)
    requires ValidKey(key) && |iv| == 16 && |p| % 16 == 0 && 16 * i < |p| && |x| == 16
    requires var before := iv + CbcEncrypt(key, iv, p);
      forall j | 0 <= j < 16 :: x[j] == p[16 * i + j] ^ before[16 * i + j]
    ensures CbcEncrypt(key, iv, p)[16 * i..16 * i + 16] == EncryptBytes(key, 4, x)
    decreases |p|
  {
    hide EncryptBytes, DecryptBytes, CbcEncrypt, CbcDecrypt;
    var c, first := CbcEncrypt(key, iv, p), EncryptBytes(key, 4, XorBlock(p[..16], iv));
    var rest := CbcEncrypt(key, first, p[16..]);
    CbcUnfold(key, iv, p);
    if i == 0 {
      FirstMixed(iv, c, p, x);
    } else {
      forall j | 0 <= j < 16
        ensures x[j] == p[16..][16 * (i - 1) + j] ^ (first + rest)[16 * (i - 1) + j]
      {
        SameByte(iv, c, p, 16 * (i - 1) + j);
      }
      CbcBlock(key, first, p[16..], i - 1, x);
      assert (first + rest)[16 * i..16 * i + 16] == rest[16 * (i - 1)..16 * (i - 1) + 16];
    }
  }

  lemma FirstMixed(iv: Bytes, c: Bytes, p: Bytes, x: Bytes)
    requires |iv| == |x| == 16 <= |p|
    requires forall j | 0 <= j < 16 :: x[j] == p[j] ^ (iv + c)[j]
    ensures x == XorBlock(p[..16], iv)
  {
    assert forall j | 0 <= j < 16 :: (iv + c)[j] == iv[j];
  }

  lemma SameByte(iv: Bytes, cipher: Bytes, p: Bytes, at: nat)
    requires |iv| == 16 <= |p| && at < |p| - 16 && |p| == |cipher|
    ensures p[16..][at] == p[16 + at] && cipher[at] == (iv + cipher)[16 + at]
  {
  }

  method OneBlock(cx: AesContext, ghost key: Bytes, b: Bytes, encrypt: bool) returns (c: Bytes)
    requires cx.Valid() && cx.KeyedWith(key) && |b| == 4 * cx.ncol
    ensures c == if encrypt then EncryptBytes(key, cx.ncol, b) else DecryptBytes(key, cx.ncol, b)
  {
    hide EncryptBytes, DecryptBytes, ToBytes, ToState, Cipher, EqInvCipher;
    cx.BlockOperations(key, b);
    var block := new bv8[4 * cx.ncol];
    if encrypt {
      cx.Encrypt(b, block);
    } else {
      cx.Decrypt(b, block);
    }
    c := block[..4 * cx.ncol];
  }

  // A fresh context for blocks of 4, 6 or 8 columns, the key set, a block encrypted and decrypted
  // again.
  method BlockThereAndBack(key: Bytes, nc: nat, block: Bytes) returns (c: Bytes, p: Bytes)
    requires ValidKey(key) && ValidColumns(nc) && |block| == 4 * nc
    ensures c == EncryptBytes(key, nc, block) && p == block
  {
    hide EncryptBytes, DecryptBytes;
    var cx := new AesContext(4 * nc);
    assert key[..4 * KeyWords(|key|)] == key;
    SpanIsTight(KeyWords(|key|), nc);
    cx.SetKey(key, |key|, false);
    c := OneBlock(cx, key, block, true);
    p := OneBlock(cx, key, c, false);
    DecryptUndoesEncrypt(key, nc, block);
  }

  lemma CbcUnfold(key: Bytes, iv: Bytes, p: Bytes)
    requires ValidKey(key) && |iv| == 16 && |p| % 16 == 0 && p != []
    ensures var c := EncryptBytes(key, 4, XorBlock(p[..16], iv));
      CbcEncrypt(key, iv, p) == c + CbcEncrypt(key, c, p[16..])
    ensures CbcDecrypt(key, iv, p) == XorBlock(DecryptBytes(key, 4, p[..16]), iv) + CbcDecrypt(key, p[..16], p[16..])
  {
    hide EncryptBytes, DecryptBytes, XorBlock;
  }

  // The chaining loop of IH_AES_cbc_encrypt over a context that holds the key.
  method CbcCrypt(cx: AesContext, ghost key: Bytes, input: Bytes, iv: Bytes, encrypt: bool) returns (out: Bytes)
    requires cx.Valid() && cx.ncol == 4 && cx.KeyedWith(key)
    requires |iv| == 16 && |input| % 16 == 0
    ensures out == if encrypt then CbcEncrypt(key, iv, input) else CbcDecrypt(key, iv, input)
  {
    hide EncryptBytes, DecryptBytes, XorBlock, CbcEncrypt, CbcDecrypt;
    out := [];
    var pos := 0;
    var chain := iv;
    while pos < |input|
      invariant 0 <= pos <= |input| && pos % 16 == 0 && |chain| == 16
      invariant encrypt ==> out + CbcEncrypt(key, chain, input[pos..]) == CbcEncrypt(key, iv, input)
      invariant !encrypt ==> out + CbcDecrypt(key, chain, input[pos..]) == CbcDecrypt(key, iv, input)
    {
      var cur := input[pos..pos + 16];
      assert input[pos..][..16] == cur && input[pos..][16..] == input[pos + 16..];
      CbcUnfold(key, chain, input[pos..]);
      if encrypt {
        chain := OneBlock(cx, key, XorBlock(cur, chain), true);
        out := out + chain;
      } else {
        var plain := OneBlock(cx, key, cur, false);
        out := out + XorBlock(plain, chain);
        chain := cur;
      }
      pos := pos + 16;
    }
  }

  // ---------- String encryption ----------

  // The key "nvram_key@inhand"; its length is given as 128 bits.
  const NVRAM_CRYPTO_KEY: Bytes := [
    0x6E, 0x76, 0x72, 0x61, 0x6D, 0x5F, 0x6B, 0x65, 0x79, 0x40, 0x69, 0x6E, 0x68, 0x61, 0x6E, 0x64]
  const NVRAM_CRYPTO_KEY_SIZE := 128

  // Hexadecimal coding, two characters a byte, as bin2str and str2bin do it.
  function HexDigit(v: bv8): bv8 {
    if v < 10 then 0x30 + v else 0x37 + v
  }

  function HexValue(c: bv8): bv8 {
    if 0x30 <= c <= 0x39 then c - 0x30
    else if 0x41 <= c <= 0x46 then c - 0x37
    else if 0x61 <= c <= 0x66 then c - 0x57
    else 0
  }

  function HighDigit(x: bv8): bv8 {
    HexDigit(x >> 4)
  }

  function LowDigit(x: bv8): bv8 {
    HexDigit(x & 0x0F)
  }

  function HexPair(hi: bv8, lo: bv8): bv8 {
    (HexValue(hi) << 4) | HexValue(lo)
  }

  function Bin2Str(b: Bytes): (h: Bytes)
    ensures |h| == 2 * |b|
  {
    seq(2 * |b|, i requires 0 <= i < 2 * |b| => if i % 2 == 0 then HighDigit(b[i / 2]) else LowDigit(b[i / 2]))
  }

  function Str2Bin(h: Bytes): (b: Bytes)
    ensures |b| == |h| / 2
  {
    seq(|h| / 2, i requires 0 <= i < |h| / 2 => HexPair(h[2 * i], h[2 * i + 1]))
  }

  // The key and the digits as text.
  lemma KeyText()
    ensures forall i | 0 <= i < 16 :: NVRAM_CRYPTO_KEY[i] as int == "nvram_key@inhand"[i] as int
  {
  }

  lemma HexText()
    ensures var h := Bin2Str([0x01, 0x23, 0x45, 0x67, 0x89, 0xAB, 0xCD, 0xEF]);
      forall i | 0 <= i < 16 :: h[i] as int == "0123456789ABCDEF"[i] as int
  {
  }

  lemma HexByte(x: bv8)
    ensures HexPair(HighDigit(x), LowDigit(x)) == x
  {
    assert HexValue(HexDigit(x >> 4)) == x >> 4;
    assert HexValue(HexDigit(x & 0x0F)) == x & 0x0F;
  }

  lemma HexRoundTrip(b: Bytes)
    ensures Str2Bin(Bin2Str(b)) == b
  {
    hide HighDigit, LowDigit, HexPair;
    var h := Bin2Str(b);
    assert |h| / 2 == |b|;
    forall i | 0 <= i < |b|
      ensures Str2Bin(h)[i] == b[i]
    {
      assert (2 * i) % 2 == 0 && (2 * i) / 2 == i && (2 * i + 1) % 2 == 1 && (2 * i + 1) / 2 == i;
      HexByte(b[i]);
    }
  }

  // Zero padding to whole blocks.
  function PaddedLength(n: nat): nat {
    (n + 15) / 16 * 16
  }

  function Pad16(b: Bytes): (p: Bytes)
    ensures |p| == PaddedLength(|b|)
  {
    b + Zeros(PaddedLength(|b|) - |b|)
  }

  function EncryptedStr(b: Bytes): (h: Bytes)
    ensures |h| == 2 * PaddedLength(|b|)
  {
    Bin2Str(CbcEncrypt(NVRAM_CRYPTO_KEY, Zeros(16), Pad16(b)))
  }

  lemma NvramKeyIsValid()
    ensures ValidKey(NVRAM_CRYPTO_KEY)
  {
  }

  lemma HalfOfBlocks(n: nat)
    requires n % 32 == 0
    ensures n / 2 % 16 == 0
  {
  }

  // None is the error return for a length that is not a whole number of coded blocks.
  function DecryptedStr(h: Bytes): (p: Option<Bytes>)
    ensures p.Some? <==> |h| % 32 == 0
    ensures p.Some? ==> |p.value| == |h| / 2
  {
    if |h| % 32 != 0 then None
    else
      NvramKeyIsValid();
      HalfOfBlocks(|h|);
      Some(CbcDecrypt(NVRAM_CRYPTO_KEY, Zeros(16), Str2Bin(h)))
  }

  // Padding adds nothing but zeros, and fewer than a block.
  lemma PadsWithZeros(b: Bytes)
    ensures |b| <= |Pad16(b)| < |b| + 16 && |Pad16(b)| % 16 == 0
    ensures Pad16(b)[..|b|] == b && forall i | |b| <= i < |Pad16(b)| :: Pad16(b)[i] == 0
  {
  }

  // Decryption returns the string and zeros up to a whole block.
  lemma StrRoundTrip(b: Bytes)
    ensures DecryptedStr(EncryptedStr(b)).Some?
    ensures var p := DecryptedStr(EncryptedStr(b)).value;
      && |b| <= |p| < |b| + 16 && p[..|b|] == b && forall i | |b| <= i < |p| :: p[i] == 0
    ensures DecryptedStr(EncryptedStr(b)) == Some(Pad16(b))
  {
    hide Bin2Str, Str2Bin, CbcEncrypt, CbcDecrypt, Pad16;
    PadsWithZeros(b);
    var c := CbcEncrypt(NVRAM_CRYPTO_KEY, Zeros(16), Pad16(b));
    assert |Bin2Str(c)| % 32 == 0;
    HexRoundTrip(c);
    CbcRoundTrip(NVRAM_CRYPTO_KEY, Zeros(16), Pad16(b));
  }

  // aes_encrypt_str and aes_decrypt_str: the number of bytes ciphered, and the output.
  method AesEncryptStr(ibuf: Bytes) returns (ret: int, obuf: Bytes)
    ensures obuf == EncryptedStr(ibuf) && ret == PaddedLength(|ibuf|)
  {
    hide KeyExpansion, CbcEncrypt, Bin2Str;
    var len := PaddedLength(|ibuf|);
    var p := Pad16(ibuf);
    var ac := KeyedContext();
    var p2 := CbcCrypt(ac, NVRAM_CRYPTO_KEY, p, Zeros(16), true);
    obuf := Bin2Str(p2);
    ret := len;
  }

  method AesDecryptStr(ibuf: Bytes) returns (ret: int, obuf: Bytes)
    ensures DecryptedStr(ibuf).None? ==> ret == -1 && obuf == []
    ensures DecryptedStr(ibuf).Some? ==> ret == |ibuf| / 2 && obuf == DecryptedStr(ibuf).value
  {
    hide KeyExpansion, CbcDecrypt, Str2Bin;
    if |ibuf| % 32 != 0 {
      return -1, [];
    }
    ret := |ibuf| / 2;
    var p := Str2Bin(ibuf);
    var ac := KeyedContext();
    obuf := CbcCrypt(ac, NVRAM_CRYPTO_KEY, p, Zeros(16), false);
  }

  method KeyedContext() returns (ac: AesContext)
    ensures fresh(ac) && ac.ncol == 4 && ac.Valid() && ac.KeyedWith(NVRAM_CRYPTO_KEY)
  {
    ac := new AesContext(16);
    ac.SetKey(NVRAM_CRYPTO_KEY, NVRAM_CRYPTO_KEY_SIZE, false);
    assert NVRAM_CRYPTO_KEY[..16] == NVRAM_CRYPTO_KEY;
  }
}
