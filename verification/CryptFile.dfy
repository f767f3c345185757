/** File encryption: a text header with the length, then the file in 512-byte chunks, each
    encrypted on its own. */
module CryptFile {
  import opened Aes
  import opened Crypto
  import opened Decimal
  import opened Common

  const CHUNK := 512

  // "$AES$"
  const MARK: Bytes := [0x24, 0x41, 0x45, 0x53, 0x24]
  // " len="
  const LEN_TAG: Bytes := [0x20, 0x6C, 0x65, 0x6E, 0x3D]
  const NEWLINE: bv8 := 0x0A
  const MINUS: bv8 := 0x2D

  // ---------- The int that holds the length ----------

  const INT_MAX := 0x7FFF_FFFF
  const INT_MIN := -0x8000_0000

  // A number converted to a 32-bit int.
  function ToInt32(n: int): (i: int)
    ensures INT_MIN <= i <= INT_MAX
    ensures INT_MIN <= n <= INT_MAX ==> i == n
  {
    var low := n % 0x1_0000_0000;
    if low <= INT_MAX then low else low - 0x1_0000_0000
  }

  lemma WrappedSum(a: int, b: int)
    ensures ToInt32(ToInt32(a) + b) == ToInt32(a + b)
  {
  }

  // ---------- The header line ----------

  function DigitByte(d: nat): bv8
    requires d < 10
  {
    match d
    case 0 => 0x30 case 1 => 0x31 case 2 => 0x32 case 3 => 0x33 case 4 => 0x34
    case 5 => 0x35 case 6 => 0x36 case 7 => 0x37 case 8 => 0x38 case _ => 0x39
  }

  function ByteDigit(b: bv8): Option<nat> {
    if b == 0x30 then Some(0) else if b == 0x31 then Some(1) else if b == 0x32 then Some(2)
    else if b == 0x33 then Some(3) else if b == 0x34 then Some(4) else if b == 0x35 then Some(5)
    else if b == 0x36 then Some(6) else if b == 0x37 then Some(7) else if b == 0x38 then Some(8)
    else if b == 0x39 then Some(9) else None
  }

  function PrintNumber(n: nat): (b: Bytes)
    ensures |b| == |Numeral(n)|
  {
    var ds := Numeral(n);
    seq(|ds|, i requires 0 <= i < |ds| => DigitByte(ds[i]))
  }

  // printf's %d.
  function PrintInt(n: int): Bytes {
    if n < 0 then [MINUS] + PrintNumber(-n) else PrintNumber(n)
  }

  // sprintf "%s len=%d\n".
  function Header(flen: int): Bytes {
    MARK + LEN_TAG + PrintInt(flen) + [NEWLINE]
  }

  // The digits at the front of a text.
  function LeadingDigits(b: Bytes): (ds: Digits)
    ensures |ds| <= |b|
  {
    if b == [] || ByteDigit(b[0]).None? then [] else [ByteDigit(b[0]).value] + LeadingDigits(b[1..])
  }

  predicate IsSpace(b: bv8) {
    b == 0x20 || 0x09 <= b <= 0x0D
  }

  // scanf's %d: blanks, a sign, digits.
  function ScanInt(b: Bytes): Option<int> {
    if b != [] && IsSpace(b[0]) then ScanInt(b[1..])
    else
      var negative := b != [] && b[0] == MINUS;
      var rest := if b != [] && (b[0] == MINUS || b[0] == 0x2B) then b[1..] else b;
      var ds := LeadingDigits(rest);
      if ds == [] then None else Some(if negative then 0 - Value(ds) as int else Value(ds) as int)
  }

  // fgets with room for n bytes: up to and including the first newline.
  function FirstLine(b: Bytes, n: nat): (line: Bytes)
    ensures line <= b && |line| <= n
  {
    if b == [] || n == 0 then []
    else if b[0] == NEWLINE then [b[0]]
    else
      var rest := FirstLine(b[1..], n - 1);
      [b[0]] + rest
  }

  function UpToNul(b: Bytes): (t: Bytes)
    ensures t <= b
  {
    if b == [] || b[0] == 0 then [] else [b[0]] + UpToNul(b[1..])
  }

  // The length a marked header line gives; None when the file is not marked. A line without
  // a readable length leaves it at zero.
  function HeaderLength(line: Bytes): Option<int> {
    if !(MARK <= UpToNul(line)) then None
    else
      var tail := if |line| < 6 then [] else UpToNul(line[6..]);
      if |tail| < 4 || tail[..4] != LEN_TAG[1..] then Some(0)
      else match ScanInt(tail[4..]) case None => Some(0) case Some(v) => Some(ToInt32(v))
  }

  lemma DigitBack(d: nat)
    requires d < 10
    ensures ByteDigit(DigitByte(d)) == Some(d)
  {
  }

  lemma {:induction false} PrefixDigits(ds: Digits, after: Bytes)
    requires AreDigits(ds) && (after != [] ==> ByteDigit(after[0]).None?)
    ensures LeadingDigits(seq(|ds|, i requires 0 <= i < |ds| => DigitByte(ds[i])) + after) == ds
  {
    hide DigitByte, ByteDigit;
    var b := seq(|ds|, i requires 0 <= i < |ds| => DigitByte(ds[i]));
    if ds == [] {
      assert b + after == after;
    } else {
      DigitBack(ds[0]);
      assert (b + after)[1..] == seq(|ds[1..]|, i requires 0 <= i < |ds[1..]| => DigitByte(ds[1..][i])) + after;
      PrefixDigits(ds[1..], after);
    }
  }

  lemma LeadingOfNumber(n: nat, after: Bytes)
    requires after != [] ==> ByteDigit(after[0]).None?
    ensures LeadingDigits(PrintNumber(n) + after) == Numeral(n) && PrintNumber(n) != []
    ensures ByteDigit((PrintNumber(n) + after)[0]).Some?
  {
    PrefixDigits(Numeral(n), after);
    assert (PrintNumber(n) + after)[0] == DigitByte(Numeral(n)[0]);
  }

  lemma NotADigit(b: bv8)
    requires IsSpace(b) || b == MINUS || b == 0x2B
    ensures ByteDigit(b).None? && !IsSpace(MINUS)
  {
  }

  lemma ScanPrinted(n: int, after: Bytes)
    requires after != [] ==> ByteDigit(after[0]).None?
    ensures ScanInt(PrintInt(n) + after) == Some(n)
  {
    hide LeadingDigits, ByteDigit, PrintNumber, Numeral, Value, ScanInt;
    var m: nat := if n < 0 then -n else n;
    var digits := PrintNumber(m) + after;
    LeadingOfNumber(m, after);
    ValueOfNumeral(m);
    if n < 0 {
      assert PrintInt(n) + after == [MINUS] + digits;
      ScanMinus(digits);
    } else {
      ScanDigits(digits);
    }
  }

  lemma ScanDigits(b: Bytes)
    requires b != [] && ByteDigit(b[0]).Some? && LeadingDigits(b) != []
    ensures ScanInt(b) == Some(Value(LeadingDigits(b)))
  {
    hide LeadingDigits, ByteDigit, Value;
    if IsSpace(b[0]) || b[0] == MINUS || b[0] == 0x2B {
      NotADigit(b[0]);
    }
  }

  lemma ScanMinus(b: Bytes)
    requires LeadingDigits(b) != []
    ensures ScanInt([MINUS] + b) == Some(0 - Value(LeadingDigits(b)) as int)
  {
    hide LeadingDigits, ByteDigit, Value;
    NotADigit(MINUS);
    assert ([MINUS] + b)[1..] == b;
  }

  // A byte string without a NUL or a newline.
  predicate Printable(b: Bytes) {
    forall i | 0 <= i < |b| :: b[i] != 0 && b[i] != NEWLINE
  }

  lemma {:induction false} FirstLineOfText(text: Bytes, rest: Bytes, n: nat)
    requires Printable(text) && |text| < n
    ensures FirstLine(text + [NEWLINE] + rest, n) == text + [NEWLINE]
  {
    var b := text + [NEWLINE] + rest;
    if text != [] {
      assert b[1..] == text[1..] + [NEWLINE] + rest;
      FirstLineOfText(text[1..], rest, n - 1);
    }
  }

  lemma {:induction false} UpToNulOfText(text: Bytes)
    requires Printable(text)
    ensures UpToNul(text + [NEWLINE]) == text + [NEWLINE]
  {
    var b := text + [NEWLINE];
    if text == [] {
      assert b[1..] == [];
    } else {
      assert b[1..] == text[1..] + [NEWLINE];
      UpToNulOfText(text[1..]);
    }
  }

  lemma {:induction false} NumeralSize(n: nat, digits: nat)
    requires n < Pow10(digits) && 0 < digits
    ensures |Numeral(n)| <= digits
  {
    if n >= 10 {
      NumeralSize(n / 10, digits - 1);
    }
  }

  function Pow10(e: nat): nat {
    if e == 0 then 1 else 10 * Pow10(e - 1)
  }

  lemma NumberIsShortText(n: int)
    requires INT_MIN <= n <= INT_MAX
    ensures |PrintInt(n)| <= 11 && Printable(PrintInt(n))
  {
    assert Pow10(10) == 10_000_000_000;
    NumeralSize(if n < 0 then -n else n, 10);
  }

  // Every length that an int holds is read back, negative ones too.
  lemma HeaderIsReadBack(flen: int, rest: Bytes)
    requires INT_MIN <= flen <= INT_MAX
    ensures FirstLine(Header(flen) + rest, CHUNK - 1) == Header(flen)
    ensures HeaderLength(Header(flen)) == Some(flen)
  {
    var number := PrintInt(flen);
    var text := MARK + LEN_TAG + number;
    NumberIsShortText(flen);
    hide PrintInt, ScanInt, Printable;
    PrintableText(number);
    FirstLineOfText(text, rest, CHUNK - 1);
    UpToNulOfText(text);
    HeaderParts(flen);
    UpToNulOfText(LEN_TAG[1..] + number);
    ScanPrinted(flen, [NEWLINE]);
  }

  lemma PrintableText(number: Bytes)
    requires Printable(number)
    ensures Printable(MARK + LEN_TAG + number) && Printable(LEN_TAG[1..] + number)
  {
  }

  // The header after the mark and a blank.
  lemma HeaderParts(flen: int)
    ensures MARK <= Header(flen) && |Header(flen)| >= 6
    ensures Header(flen)[6..] == LEN_TAG[1..] + PrintInt(flen) + [NEWLINE]
    ensures var tail := Header(flen)[6..]; tail[..4] == LEN_TAG[1..] && tail[4..] == PrintInt(flen) + [NEWLINE]
  {
    hide PrintInt;
    var tail := LEN_TAG[1..] + PrintInt(flen) + [NEWLINE];
    assert Header(flen) == (MARK + [0x20]) + tail;
    assert |MARK + [0x20]| == 6;
    assert tail[..4] == LEN_TAG[1..] && tail[4..] == PrintInt(flen) + [NEWLINE];
  }

  // ---------- Whole files ----------

  function EncryptChunks(content: Bytes): Bytes {
    if content == [] then []
    else
      var n := Min(CHUNK, |content|);
      EncryptedStr(content[..n]) + EncryptChunks(content[n..])
  }

  // Decryption stops at flen bytes, at the end of the input and at a chunk it cannot decode.
  function DecryptChunks(data: Bytes, flen: int): Bytes
    decreases |data|
  {
    if flen <= 0 || data == [] then []
    else
      var n := Min(2 * CHUNK, |data|);
      match DecryptedStr(data[..n])
      case None => []
      case Some(p) =>
        var olen := Min(flen, |p|);
        p[..olen] + DecryptChunks(data[n..], flen - olen)
  }

  // The length goes through an int; with none, or a negative one, only the header is written.
  function EncryptFile(content: Bytes): Bytes {
    var flen := ToInt32(|content|);
    Header(flen) + if flen > 0 then EncryptChunks(content) else []
  }

  function DecryptFile(file: Bytes): Bytes {
    var line := FirstLine(file, CHUNK - 1);
    match HeaderLength(line)
    case None => []
    case Some(flen) => DecryptChunks(file[|line|..], flen)
  }

  lemma EncryptChunksStep(content: Bytes)
    requires content != []
    ensures var n := Min(CHUNK, |content|);
      EncryptChunks(content) == EncryptedStr(content[..n]) + EncryptChunks(content[n..])
  {
  }

  lemma DecryptChunksStep(data: Bytes, flen: nat)
    requires flen > 0 && data != []
    ensures var n := Min(2 * CHUNK, |data|); var p := DecryptedStr(data[..n]);
      DecryptChunks(data, flen) ==
        if p.None? then [] else
          var olen := Min(flen, |p.value|);
          p.value[..olen] + DecryptChunks(data[n..], flen - olen)
  {
  }

  lemma NothingLeft(flen: int)
    ensures EncryptChunks([]) == [] && DecryptChunks([], flen) == []
    ensures flen <= 0 ==> forall data: Bytes :: DecryptChunks(data, flen) == []
  {
  }

  // fread: up to n bytes from pos; the end-of-file flag is raised by a short read.
  function Fread(input: Bytes, pos: nat, n: nat): (data: Bytes)
    requires pos <= |input|
    ensures |data| == Min(n, |input| - pos) && pos + |data| <= |input|
  {
    input[pos..pos + Min(n, |input| - pos)]
  }

  // One pass of the loop: olen <= 0 tells the caller to stop.
  method CryptChunk(buf: Bytes, enc: bool, flen: int) returns (olen: int, obuf: Bytes, left: int)
    requires buf != [] && flen > 0
    ensures enc ==> obuf == EncryptedStr(buf) && olen == |obuf| > 0 && left == flen
    ensures !enc && DecryptedStr(buf).None? ==> olen <= 0
    ensures !enc && DecryptedStr(buf).Some? ==>
      obuf == DecryptedStr(buf).value[..Min(flen, |buf| / 2)] && olen == |obuf| > 0 && left == flen - olen
  {
    hide EncryptedStr, DecryptedStr;
    left := flen;
    if enc {
      olen, obuf := AesEncryptStr(buf);
      olen := 2 * olen;
    } else {
      olen, obuf := AesDecryptStr(buf);
      if olen <= 0 {
        return;
      }
      if flen < olen {
        olen := flen;
      }
      obuf := obuf[..olen];
      left := flen - olen;
    }
  }

  // What is still to be written when the input from pos on remains.
  function Remaining(input: Bytes, pos: nat, flen: int, enc: bool): Bytes
    requires pos <= |input|
  {
    if flen <= 0 then [] else if enc then EncryptChunks(input[pos..]) else DecryptChunks(input[pos..], flen)
  }

  lemma RemainingStep(input: Bytes, pos: nat, flen: int, enc: bool)
    requires pos <= |input| && flen > 0
    ensures var buf := Fread(input, pos, if enc then CHUNK else 2 * CHUNK);
      Remaining(input, pos, flen, enc) ==
        if buf == [] then []
        else if enc then EncryptedStr(buf) + Remaining(input, pos + |buf|, flen, enc)
        else if DecryptedStr(buf).None? then []
        else
          var n := Min(flen, |buf| / 2);
          DecryptedStr(buf).value[..n] + Remaining(input, pos + |buf|, flen - n, enc)
  {
    hide EncryptedStr, DecryptedStr, EncryptChunks, DecryptChunks;
    var buf := Fread(input, pos, if enc then CHUNK else 2 * CHUNK);
    var rest := input[pos..];
    NothingLeft(flen);
    if buf == [] {
      assert rest == [];
    } else {
      NothingLeft(flen - Min(flen, |buf| / 2));
      EncryptChunksStep(rest);
      DecryptChunksStep(rest, flen);
      assert buf == rest[..|buf|] && rest[|buf|..] == input[pos + |buf|..];
    }
  }

  function Whole(input: Bytes, enc: bool): Bytes {
    if enc then EncryptFile(input) else DecryptFile(input)
  }

  // Before the loop: write the header, or read it and decide how much to decrypt.
  method OpenFile(input: Bytes, enc: bool) returns (flen: int, pos: nat, output: Bytes)
    ensures pos <= |input|
    ensures enc ==> pos == 0 && flen == ToInt32(|input|) && output == Header(flen)
    ensures !enc ==> output == []
    ensures output + Remaining(input, pos, flen, enc) == Whole(input, enc)
  {
    hide Header, FirstLine, HeaderLength, EncryptChunks, DecryptChunks, ToInt32;
    flen, pos, output := 0, 0, [];
    if enc {
      flen := ToInt32(|input|);
      output := Header(flen);
      assert input[pos..] == input;
    } else {
      var buf := FirstLine(input, CHUNK - 1);
      match HeaderLength(buf) {
        case None =>
        case Some(n) =>
          flen := n;
          if flen >= 0 {
            pos := |buf|;
          }
      }
      NothingLeft(flen);
    }
  }

  lemma ConcatAssociative(a: Bytes, b: Bytes, c: Bytes)
    ensures (a + b) + c == a + (b + c)
  {
  }

  // crypt_file between a file read to the end and a file written from the start.
  method CryptFile(input: Bytes, enc: bool) returns (total: int, output: Bytes)
    ensures output == if enc then EncryptFile(input) else DecryptFile(input)
    ensures total == ToInt32(|output| - if enc then |Header(ToInt32(|input|))| else 0)
  {
    hide EncryptedStr, DecryptedStr, Header, EncryptChunks, DecryptChunks, Remaining, Fread,
      EncryptFile, DecryptFile, ToInt32;
    var flen, pos;
    flen, pos, output := OpenFile(input, enc);
    total := 0;
    ghost var head := |output|;
    var eof := false;
    while flen > 0 && !eof
      invariant pos <= |input| && (eof ==> pos == |input|)
      invariant total == ToInt32(|output| - head)
      invariant output + Remaining(input, pos, flen, enc) == Whole(input, enc)
      decreases |input| - pos, !eof
    {
      RemainingStep(input, pos, flen, enc);
      var size := if enc then CHUNK else 2 * CHUNK;
      var buf := Fread(input, pos, size);
      eof := |buf| < size;
      if buf == [] {
        return;
      }
      var olen, obuf, left := CryptChunk(buf, enc, flen);
      if olen <= 0 {
        return;
      }
      pos := pos + |buf|;
      flen := left;
      ConcatAssociative(output, obuf, Remaining(input, pos, flen, enc));
      WrappedSum(|output| - head, olen);
      output := output + obuf;
      total := ToInt32(total + olen);
    }
    EndRemaining(input, pos, flen, enc);
  }

  lemma EndRemaining(input: Bytes, pos: nat, flen: int, enc: bool)
    requires pos <= |input|
    requires pos == |input| || flen <= 0
    ensures Remaining(input, pos, flen, enc) == []
  {
    hide EncryptChunks, DecryptChunks;
    NothingLeft(flen);
    assert pos == |input| ==> input[pos..] == [];
  }

  // ---------- Decrypting an encrypted file ----------

  // The first piece that decryption takes is the first chunk.
  lemma FirstChunk(content: Bytes)
    requires content != []
    ensures var n, data := Min(CHUNK, |content|), EncryptChunks(content);
      var k := Min(2 * CHUNK, |data|);
      && data != [] && data[..k] == EncryptedStr(content[..n]) && data[k..] == EncryptChunks(content[n..])
  {
    hide EncryptedStr;
    var n := Min(CHUNK, |content|);
    var chunk, later := EncryptedStr(content[..n]), EncryptChunks(content[n..]);
    if n == CHUNK {
      assert |chunk| == 2 * CHUNK;
    } else {
      assert content[n..] == [] && later == [];
    }
    assert (chunk + later)[..|chunk|] == chunk && (chunk + later)[|chunk|..] == later;
  }

  lemma SameChunk(content: Bytes, at: nat)
    requires 512 <= at < |content|
    ensures content[at..Min(at + 512, |content|)] == content[512..][at - 512..Min(at, |content| - 512)]
  {
    var a, b := content[at..Min(at + 512, |content|)], content[512..][at - 512..Min(at, |content| - 512)];
    assert |a| == |b|;
    forall k | 0 <= k < |a|
      ensures a[k] == b[k]
    {
      assert content[512..][at - 512 + k] == content[at + k];
    }
  }

  // Each 512 bytes of the content become 1024 characters in the same place, coded on their own.
  lemma {:induction false} ChunkAt(content: Bytes, i: nat)
    requires 512 * i < |content|
    ensures var piece := content[512 * i..Min(512 * i + 512, |content|)];
      var all, coded := EncryptChunks(content), EncryptedStr(piece);
      1024 * i + |coded| <= |all| && all[1024 * i..1024 * i + |coded|] == coded
    decreases |content|
  {
    hide EncryptedStr, EncryptChunks;
    EncryptChunksStep(content);
    if i > 0 {
      var rest := content[512..];
      ChunkAt(rest, i - 1);
      SameChunk(content, 512 * i);
      assert |EncryptedStr(content[..512])| == 1024;
    } else {
      assert content[..Min(512, |content|)] == content[0..Min(512, |content|)];
    }
  }

  // "$AES$ len=-1234567890\n"
  lemma HeaderText()
    ensures Header(-1234567890) == [
      0x24, 0x41, 0x45, 0x53, 0x24, 0x20, 0x6C, 0x65, 0x6E, 0x3D,
      0x2D, 0x31, 0x32, 0x33, 0x34, 0x35, 0x36, 0x37, 0x38, 0x39, 0x30, 0x0A]
  {
    TenDigits();
    hide Numeral;
    assert PrintNumber(1234567890) == [0x31, 0x32, 0x33, 0x34, 0x35, 0x36, 0x37, 0x38, 0x39, 0x30];
  }

  // Decrypting up to flen bytes of the encrypted chunks gives the first flen bytes.
  lemma {:induction false} ChunksRoundTrip(content: Bytes, flen: nat)
    requires flen <= |content|
    ensures DecryptChunks(EncryptChunks(content), flen) == content[..flen]
    decreases |content|
  {
    hide EncryptedStr, DecryptedStr, EncryptChunks, DecryptChunks, Pad16;
    var data := EncryptChunks(content);
    if flen == 0 {
      NothingLeft(flen);
    } else {
      var n := Min(CHUNK, |content|);
      FirstChunk(content);
      StrRoundTrip(content[..n]);
      var olen := Min(flen, n);
      PadKeeps(content[..n], olen);
      assert olen == Min(flen, |Pad16(content[..n])|);
      DecryptedFirst(data, flen, Min(2 * CHUNK, |data|), Pad16(content[..n]));
      ChunksRoundTrip(content[n..], flen - olen);
      assert content[..n][..olen] == content[..olen];
      assert content[..flen] == content[..olen] + content[n..][..flen - olen];
    }
  }

  lemma DecryptedFirst(data: Bytes, flen: nat, k: nat, p: Bytes)
    requires 0 < flen && data != [] && k == Min(2 * CHUNK, |data|) && DecryptedStr(data[..k]) == Some(p)
    ensures var olen := Min(flen, |p|);
      DecryptChunks(data, flen) == p[..olen] + DecryptChunks(data[k..], flen - olen)
  {
    hide DecryptedStr;
  }

  lemma PadKeeps(b: Bytes, n: nat)
    requires n <= |b|
    ensures |b| <= |Pad16(b)| && Pad16(b)[..n] == b[..n]
  {
  }

  // What comes back is as much of the content as the int says.
  lemma FileComesBack(content: Bytes)
    ensures ToInt32(|content|) <= |content|
    ensures var flen := ToInt32(|content|);
      DecryptFile(EncryptFile(content)) == if flen > 0 then content[..flen] else []
  {
    hide Header, FirstLine, HeaderLength, EncryptChunks, DecryptChunks;
    var flen := ToInt32(|content|);
    var data := if flen > 0 then EncryptChunks(content) else [];
    HeaderIsReadBack(flen, data);
    assert (Header(flen) + data)[|Header(flen)|..] == data;
    if flen > 0 {
      ChunksRoundTrip(content, flen);
    } else {
      NothingLeft(flen);
    }
  }

  // The whole content comes back exactly when its length fits the int.
  lemma FileRoundTripExactly(content: Bytes)
    ensures DecryptFile(EncryptFile(content)) == content <==> |content| <= INT_MAX
  {
    hide EncryptFile, DecryptFile, ToInt32;
    FileComesBack(content);
  }

  // From 2 GiB on the int is negative and nothing comes back; past 4 GiB it starts again from zero.
  lemma LongFilesAreLost()
    ensures DecryptFile(EncryptFile(Zeros(0x8000_0000))) == []
    ensures DecryptFile(EncryptFile(Zeros(0x1_0000_0005))) == Zeros(5)
  {
    hide EncryptFile, DecryptFile;
    FileComesBack(Zeros(0x8000_0000));
    FileComesBack(Zeros(0x1_0000_0005));
  }

  // A file without the mark decrypts to nothing, although the code rewinds it as if to copy it.
  lemma UnmarkedFileIsDropped(file: Bytes)
    requires !(MARK <= file)
    ensures DecryptFile(file) == []
  {
    var line := FirstLine(file, CHUNK - 1);
    PrefixTransitive(MARK, UpToNul(line), line);
    PrefixTransitive(MARK, line, file);
  }

  lemma PrefixTransitive(a: Bytes, b: Bytes, c: Bytes)
    requires b <= c
    ensures a <= b ==> a <= c
  {
  }
}
