/** base64.c: section 4 of RFC 4648, with a decoder that passes over foreign characters. */
module Base64 {
  import opened Common

  const EQUALS: bv8 := 0x3D
  const NUL: bv8 := 0

  // base64_xlat: A-Z, a-z, 0-9, + and /.
  function Letter(v: bv8): bv8 {
    if v < 26 then v + 0x41 else if v < 52 then v + 0x47 else if v < 62 then v - 4 else if v == 62 then 0x2B else 0x2F
  }

  // strchr over the same table, as a position; it also finds the terminator, at position 64.
  function Position(c: bv8): bv32 {
    if 0x41 <= c <= 0x5A then c as bv32 - 0x41
    else if 0x61 <= c <= 0x7A then c as bv32 - 0x47
    else if 0x30 <= c <= 0x39 then c as bv32 + 4
    else if c == 0x2B then 62
    else if c == 0x2F then 63
    else 64
  }

  predicate InTable(c: bv8) {
    0x41 <= c <= 0x5A || 0x61 <= c <= 0x7A || 0x30 <= c <= 0x39 || c == 0x2B || c == 0x2F || c == NUL
  }

  predicate IsLetter(v: bv8, c: char) {
    Letter(v) as int == c as int
  }

  // Table 1 of RFC 4648.
  lemma UpperLetters()
    ensures IsLetter(0, 'A') && IsLetter(1, 'B') && IsLetter(2, 'C') && IsLetter(3, 'D') && IsLetter(4, 'E')
    ensures IsLetter(5, 'F') && IsLetter(6, 'G') && IsLetter(7, 'H') && IsLetter(8, 'I') && IsLetter(9, 'J')
    ensures IsLetter(10, 'K') && IsLetter(11, 'L') && IsLetter(12, 'M') && IsLetter(13, 'N') && IsLetter(14, 'O')
    ensures IsLetter(15, 'P') && IsLetter(16, 'Q') && IsLetter(17, 'R') && IsLetter(18, 'S') && IsLetter(19, 'T')
    ensures IsLetter(20, 'U') && IsLetter(21, 'V') && IsLetter(22, 'W') && IsLetter(23, 'X') && IsLetter(24, 'Y')
    ensures IsLetter(25, 'Z')
  {
  }

  lemma LowerLetters()
    ensures IsLetter(26, 'a') && IsLetter(27, 'b') && IsLetter(28, 'c') && IsLetter(29, 'd') && IsLetter(30, 'e')
    ensures IsLetter(31, 'f') && IsLetter(32, 'g') && IsLetter(33, 'h') && IsLetter(34, 'i') && IsLetter(35, 'j')
    ensures IsLetter(36, 'k') && IsLetter(37, 'l') && IsLetter(38, 'm') && IsLetter(39, 'n') && IsLetter(40, 'o')
    ensures IsLetter(41, 'p') && IsLetter(42, 'q') && IsLetter(43, 'r') && IsLetter(44, 's') && IsLetter(45, 't')
    ensures IsLetter(46, 'u') && IsLetter(47, 'v') && IsLetter(48, 'w') && IsLetter(49, 'x') && IsLetter(50, 'y')
    ensures IsLetter(51, 'z')
  {
  }

  lemma OtherLetters()
    ensures IsLetter(52, '0') && IsLetter(53, '1') && IsLetter(54, '2') && IsLetter(55, '3') && IsLetter(56, '4')
    ensures IsLetter(57, '5') && IsLetter(58, '6') && IsLetter(59, '7') && IsLetter(60, '8') && IsLetter(61, '9')
    ensures IsLetter(62, '+') && IsLetter(63, '/')
  {
  }

  // ---------- Encoding ----------

  function Six0(a: bv8): bv8 { a >> 2 }
  function Six1(a: bv8, b: bv8): bv8 { ((a << 4) & 0x3F) | (b >> 4) }
  function Six2(b: bv8, c: bv8): bv8 { ((b << 2) & 0x3F) | (c >> 6) }
  function Six3(c: bv8): bv8 { c & 0x3F }

  function Encode(b: Bytes): Bytes
    decreases |b|
  {
    if |b| >= 3 then
      [Letter(Six0(b[0])), Letter(Six1(b[0], b[1])), Letter(Six2(b[1], b[2])), Letter(Six3(b[2]))] + Encode(b[3..])
    else if |b| == 2 then
      [Letter(Six0(b[0])), Letter(Six1(b[0], b[1])), Letter(Six2(b[1], 0)), EQUALS]
    else if |b| == 1 then
      [Letter(Six0(b[0])), Letter(Six1(b[0], 0)), EQUALS, EQUALS]
    else []
  }

  // The four groups of six bits are the 24 bits of the bytes, the first byte highest.
  lemma GroupsAreBits(a: bv8, b: bv8, c: bv8)
    ensures ((Six0(a) as bv32) << 18) | ((Six1(a, b) as bv32) << 12) | ((Six2(b, c) as bv32) << 6) | (Six3(c) as bv32)
      == ((a as bv32) << 16) | ((b as bv32) << 8) | (c as bv32)
  {
  }

  lemma EncodeThree(b: Bytes)
    requires |b| >= 3
    ensures Encode(b) ==
      [Letter(Six0(b[0])), Letter(Six1(b[0], b[1])), Letter(Six2(b[1], b[2])), Letter(Six3(b[2]))] + Encode(b[3..])
  {
    hide Letter, Six0, Six1, Six2, Six3;
  }

  // Section 10 of RFC 4648: "f" is "Zg==", "fo" is "Zm8=" and "foo" is "Zm9v".
  lemma ShortAnswers()
    ensures Encode([0x66]) == [0x5A, 0x67, 0x3D, 0x3D] && Encode([0x66, 0x6F]) == [0x5A, 0x6D, 0x38, 0x3D]
    ensures Encode([0x66, 0x6F, 0x6F]) == [0x5A, 0x6D, 0x39, 0x76]
  {
    var foo: Bytes := [0x66, 0x6F, 0x6F];
    assert foo[3..] == [];
    assert Encode(foo) ==
      [Letter(Six0(0x66)), Letter(Six1(0x66, 0x6F)), Letter(Six2(0x6F, 0x6F)), Letter(Six3(0x6F))] + Encode([]);
  }

  method EncodeBytes(input: Bytes) returns (out: Bytes)
    ensures out == Encode(input)
  {
    hide Encode, Letter, Six0, Six1, Six2, Six3;
    out := [];
    var i := 0;
    while |input| - i >= 3
      invariant 0 <= i <= |input| && out + Encode(input[i..]) == Encode(input)
    {
      ghost var b, was := input[i..], out;
      EncodeThree(b);
      assert b[3..] == input[i + 3..];
      out := out + [Letter(Six0(input[i])), Letter(Six1(input[i], input[i + 1])),
                    Letter(Six2(input[i + 1], input[i + 2])), Letter(Six3(input[i + 2]))];
      i := i + 3;
    }
    var tail := EncodeTail(input[i..]);
    out := out + tail;
  }

  // The last one or two bytes.
  method EncodeTail(b: Bytes) returns (out: Bytes)
    requires |b| < 3
    ensures out == Encode(b)
  {
    hide Letter, Six0, Six1, Six2, LastTwo, LastOne;
    out := [];
    if |b| > 0 {
      out := out + [Letter(Six0(b[0]))];
      if |b| == 2 {
        LastBits(b[0], b[1]);
        out := out + [Letter(Six1(b[0], b[1]))];
        out := out + [Letter(LastTwo(b[1]))];
      } else {
        LastBits(b[0], 0);
        out := out + [Letter(LastOne(b[0]))];
        out := out + [EQUALS];
      }
      out := out + [EQUALS];
    }
  }

  function LastTwo(b: bv8): bv8 { (b << 2) & 0x3F }
  function LastOne(a: bv8): bv8 { (a << 4) & 0x3F }

  lemma LastBits(a: bv8, b: bv8)
    ensures LastTwo(b) == Six2(b, 0) && LastOne(a) == Six1(a, 0)
  {
  }

  // base64_encoded_len and base64_decoded_len.
  function EncodedLen(n: nat): nat { (n + 2) / 3 * 4 }
  function DecodedLen(n: nat): nat { (n + 3) / 4 * 3 }

  lemma {:induction false} EncodedSize(b: Bytes)
    ensures |Encode(b)| == EncodedLen(|b|)
    decreases |b|
  {
    if |b| >= 3 {
      EncodedSize(b[3..]);
    }
  }

  // The examples beside the source: aaa is YWFh, aa is YWE=, a is YQ==.
  lemma KnownEncodings()
    ensures Encode([0x61, 0x61, 0x61]) == [0x59, 0x57, 0x46, 0x68]
    ensures Encode([0x61, 0x61]) == [0x59, 0x57, 0x45, EQUALS]
    ensures Encode([0x61]) == [0x59, 0x51, EQUALS, EQUALS]
  {
    hide Letter, Six0, Six1, Six2, Six3;
    KnownLetters();
    var b: Bytes := [0x61, 0x61, 0x61];
    assert b[3..] == [];
    assert Encode([]) == [];
  }

  lemma KnownLetters()
    ensures Letter(Six0(0x61)) == 0x59 && Letter(Six1(0x61, 0x61)) == 0x57 && Letter(Six2(0x61, 0x61)) == 0x46
    ensures Letter(Six3(0x61)) == 0x68 && Letter(Six2(0x61, 0)) == 0x45 && Letter(Six1(0x61, 0)) == 0x51
  {
  }

  // ---------- Decoding ----------

  function Push(x: bv32, c: bv8): bv32 { (x << 6) | Position(c) }

  function Whole(x: bv32): Bytes {
    [((x >> 16) & 0xFF) as bv8, ((x >> 8) & 0xFF) as bv8, (x & 0xFF) as bv8]
  }

  function Two(x: bv32): Bytes {
    [((x >> 10) & 0xFF) as bv8, ((x >> 2) & 0xFF) as bv8]
  }

  function One(x: bv32): Bytes {
    [((x >> 4) & 0xFF) as bv8]
  }

  // What is left when the input ends after n characters of a group.
  function Left(x: bv32, n: nat): Bytes {
    if n == 3 then Two(x) else if n == 2 then One(x) else []
  }

  // The output for the rest of the input, with n characters gathered in x.
  function DecodeFrom(s: Bytes, x: bv32, n: nat): Bytes
    requires n < 4
    decreases |s|
  {
    if s == [] || s[0] == EQUALS then Left(x, n)
    else if !InTable(s[0]) then DecodeFrom(s[1..], x, n)
    else if n == 3 then Whole(Push(x, s[0])) + DecodeFrom(s[1..], 0, 0)
    else DecodeFrom(s[1..], Push(x, s[0]), n + 1)
  }

  function Decode(s: Bytes): Bytes {
    DecodeFrom(s, 0, 0)
  }

  method DecodeBytes(input: Bytes) returns (out: Bytes)
    ensures out == Decode(input)
  {
    hide InTable, Push, Whole, Left;
    out := [];
    var x: bv32, n, i := 0, 0, 0;
    while i < |input|
      invariant 0 <= i <= |input| && 0 <= n < 4
      invariant out + DecodeFrom(input[i..], x, n) == Decode(input)
    {
      var s := input[i..];
      if input[i] == EQUALS {
        break;
      }
      i := i + 1;
      assert s[1..] == input[i..];
      if !InTable(input[i - 1]) {
        continue;
      }
      x, n := Push(x, input[i - 1]), n + 1;
      if n == 4 {
        assert (out + Whole(x)) + DecodeFrom(s[1..], 0, 0) == out + (Whole(x) + DecodeFrom(s[1..], 0, 0));
        out := out + Whole(x);
        x, n := 0, 0;
      }
    }
    out := out + Left(x, n);
  }

  // The output fits the buffer that base64_decoded_len asks for.
  lemma DecodedFits(s: Bytes)
    ensures |Decode(s)| <= DecodedLen(|s|)
  {
    DecodedSize(s, 0, 0);
  }

  lemma {:induction false} DecodedSize(s: Bytes, x: bv32, n: nat)
    requires n < 4
    ensures 4 * |DecodeFrom(s, x, n)| <= 3 * (|s| + n)
    decreases |s|
  {
    hide Push, InTable;
    if s != [] && s[0] != EQUALS {
      if !InTable(s[0]) {
        DecodedSize(s[1..], x, n);
      } else if n == 3 {
        DecodedSize(s[1..], 0, 0);
      } else {
        DecodedSize(s[1..], Push(x, s[0]), n + 1);
      }
    }
  }

  // ---------- Round trip ----------

  lemma LetterFound(v: bv8)
    requires v < 64
    ensures InTable(Letter(v)) && Letter(v) != EQUALS && Position(Letter(v)) == v as bv32
  {
  }

  lemma SixBits(a: bv8, b: bv8, c: bv8)
    ensures Six0(a) < 64 && Six1(a, b) < 64 && Six2(b, c) < 64 && Six3(c) < 64
  {
  }

  function Add6(x: bv32, v: bv8): bv32 {
    (x << 6) | v as bv32
  }

  lemma LetterTaken(v: bv8, s: Bytes, x: bv32, n: nat)
    requires v < 64 && n < 4
    ensures DecodeFrom([Letter(v)] + s, x, n) ==
      if n == 3 then Whole(Add6(x, v)) + DecodeFrom(s, 0, 0) else DecodeFrom(s, Add6(x, v), n + 1)
  {
    hide Letter, Position, InTable, Whole, Push, Add6;
    LetterFound(v);
    PushIsAdd6(x, v);
    assert ([Letter(v)] + s)[1..] == s;
  }

  lemma PushIsAdd6(x: bv32, v: bv8)
    requires v < 64
    ensures Push(x, Letter(v)) == Add6(x, v)
  {
    hide Letter, Position;
    LetterFound(v);
  }

  lemma EndTaken(s: Bytes, x: bv32, n: nat)
    requires n < 4 && s != [] && s[0] == EQUALS
    ensures DecodeFrom(s, x, n) == Left(x, n)
  {
  }

  lemma WholeUndone(a: bv8, b: bv8, c: bv8)
    ensures Whole(Add6(Add6(Add6(Add6(0, Six0(a)), Six1(a, b)), Six2(b, c)), Six3(c))) == [a, b, c]
  {
  }

  lemma TwoUndone(a: bv8, b: bv8)
    ensures Two(Add6(Add6(Add6(0, Six0(a)), Six1(a, b)), Six2(b, 0))) == [a, b]
  {
  }

  lemma OneUndone(a: bv8)
    ensures One(Add6(Add6(0, Six0(a)), Six1(a, 0))) == [a]
  {
  }

  lemma {:induction false} DecodeUndoesEncode(b: Bytes)
    ensures Decode(Encode(b)) == b
    decreases |b|
  {
    hide Letter, Six0, Six1, Six2, Six3, Add6, Whole, Two, One, DecodeFrom;
    if |b| >= 3 {
      DecodeUndoesEncode(b[3..]);
      FourTaken(b[0], b[1], b[2], Encode(b[3..]));
      assert b == [b[0], b[1], b[2]] + b[3..];
    } else if |b| == 2 {
      TwoTaken(b[0], b[1]);
    } else if |b| == 1 {
      OneTaken(b[0]);
    } else {
      NothingTaken();
    }
  }

  lemma NothingTaken()
    ensures DecodeFrom([], 0, 0) == []
  {
  }

  lemma FourTaken(a: bv8, b: bv8, c: bv8, s: Bytes)
    ensures DecodeFrom([Letter(Six0(a)), Letter(Six1(a, b)), Letter(Six2(b, c)), Letter(Six3(c))] + s, 0, 0)
      == [a, b, c] + DecodeFrom(s, 0, 0)
  {
    hide Letter, Six0, Six1, Six2, Six3, Add6, Whole, DecodeFrom;
    SixBits(a, b, c);
    var v0, v1, v2, v3 := Six0(a), Six1(a, b), Six2(b, c), Six3(c);
    var s3 := [Letter(v3)] + s;
    var s2 := [Letter(v2)] + s3;
    var s1 := [Letter(v1)] + s2;
    assert [Letter(v0), Letter(v1), Letter(v2), Letter(v3)] + s == [Letter(v0)] + s1;
    var x1 := Add6(0, v0);
    var x2 := Add6(x1, v1);
    var x3 := Add6(x2, v2);
    LetterTaken(v0, s1, 0, 0);
    LetterTaken(v1, s2, x1, 1);
    LetterTaken(v2, s3, x2, 2);
    LetterTaken(v3, s, x3, 3);
    WholeUndone(a, b, c);
  }

  lemma TwoTaken(a: bv8, b: bv8)
    ensures DecodeFrom([Letter(Six0(a)), Letter(Six1(a, b)), Letter(Six2(b, 0)), EQUALS], 0, 0) == [a, b]
  {
    hide Letter, Six0, Six1, Six2, Add6, Two, DecodeFrom;
    SixBits(a, b, 0);
    var v0, v1, v2 := Six0(a), Six1(a, b), Six2(b, 0);
    var s2 := [Letter(v2)] + [EQUALS];
    var s1 := [Letter(v1)] + s2;
    assert [Letter(v0), Letter(v1), Letter(v2), EQUALS] == [Letter(v0)] + s1;
    LetterTaken(v0, s1, 0, 0);
    LetterTaken(v1, s2, Add6(0, v0), 1);
    LetterTaken(v2, [EQUALS], Add6(Add6(0, v0), v1), 2);
    EndTaken([EQUALS], Add6(Add6(Add6(0, v0), v1), v2), 3);
    TwoUndone(a, b);
  }

  lemma OneTaken(a: bv8)
    ensures DecodeFrom([Letter(Six0(a)), Letter(Six1(a, 0)), EQUALS, EQUALS], 0, 0) == [a]
  {
    hide Letter, Six0, Six1, Add6, One, DecodeFrom;
    SixBits(a, 0, 0);
    var v0, v1 := Six0(a), Six1(a, 0);
    var s1 := [Letter(v1)] + [EQUALS, EQUALS];
    assert [Letter(v0), Letter(v1), EQUALS, EQUALS] == [Letter(v0)] + s1;
    LetterTaken(v0, s1, 0, 0);
    LetterTaken(v1, [EQUALS, EQUALS], Add6(0, v0), 1);
    EndTaken([EQUALS, EQUALS], Add6(Add6(0, v0), v1), 2);
    OneUndone(a);
  }

  // ---------- Foreign characters ----------

  // The characters that count: those of the table, the terminator, and '='.
  function Strip(s: Bytes): Bytes {
    if s == [] then []
    else (if InTable(s[0]) || s[0] == EQUALS then [s[0]] else []) + Strip(s[1..])
  }

  lemma {:induction false} ForeignIgnored(s: Bytes, x: bv32, n: nat)
    requires n < 4
    ensures DecodeFrom(s, x, n) == DecodeFrom(Strip(s), x, n)
    decreases |s|
  {
    hide InTable, Push, Whole, Left;
    if s != [] && s[0] != EQUALS {
      if !InTable(s[0]) {
        ForeignIgnored(s[1..], x, n);
        assert Strip(s) == Strip(s[1..]);
      } else {
        assert Strip(s)[1..] == Strip(s[1..]);
        if n == 3 {
          ForeignIgnored(s[1..], 0, 0);
        } else {
          ForeignIgnored(s[1..], Push(x, s[0]), n + 1);
        }
      }
    }
  }

  // Inputs that differ only in foreign characters, wherever they are, decode alike; in particular
  // an encoding with such characters sprinkled in decodes to what was encoded.
  lemma SprinkledRoundTrip(b: Bytes, s: Bytes)
    requires Strip(s) == Strip(Encode(b))
    ensures Decode(s) == b
  {
    hide DecodeFrom, Encode, Strip;
    ForeignIgnored(s, 0, 0);
    ForeignIgnored(Encode(b), 0, 0);
    DecodeUndoesEncode(b);
  }

  // A NUL is not ignored: as the 65th position it shifts what follows.
  lemma NulIsNotIgnored()
    ensures |Decode([0x41, 0x41, 0x41])| == 2 && |Decode([0x41, NUL, 0x41, 0x41])| == 3
  {
    var s: Bytes, t: Bytes := [0x41, 0x41, 0x41], [0x41, NUL, 0x41, 0x41];
    hide Push;
    var x: bv32 := Push(0, 0x41);
    assert DecodeFrom(s, 0, 0) == DecodeFrom(s[1..], x, 1);
    assert DecodeFrom(s[1..], x, 1) == DecodeFrom(s[1..][1..], Push(x, 0x41), 2);
    assert DecodeFrom(t, 0, 0) == DecodeFrom(t[1..], x, 1);
    assert DecodeFrom(t[1..], x, 1) == DecodeFrom(t[1..][1..], Push(x, NUL), 2);
    assert DecodeFrom(t[2..], Push(x, NUL), 2) == DecodeFrom(t[2..][1..], Push(Push(x, NUL), 0x41), 3);
    assert t[1..][1..] == t[2..];
  }

  lemma {:induction false} StripJoins(a: Bytes, b: Bytes)
    ensures Strip(a + b) == Strip(a) + Strip(b)
  {
    hide InTable, Strip;
    if a == [] {
      assert a + b == b;
      StripNothing();
    } else {
      StripFirst(a);
      StripFirst(a + b);
      assert (a + b)[1..] == a[1..] + b;
      StripJoins(a[1..], b);
    }
  }

  lemma StripNothing()
    ensures Strip([]) == []
  {
  }

  lemma StripFirst(s: Bytes)
    requires s != []
    ensures Strip(s) == (if InTable(s[0]) || s[0] == EQUALS then [s[0]] else []) + Strip(s[1..])
  {
    hide InTable;
  }

  // A letter of the table moves on by one.
  lemma OneMore(c: bv8, s: Bytes, x: bv32, n: nat)
    requires InTable(c) && c != EQUALS && n < 3
    ensures DecodeFrom([c] + s, x, n) == DecodeFrom(s, Push(x, c), n + 1)
  {
    hide InTable, Push;
    assert ([c] + s)[1..] == s;
  }

  lemma FourthOne(c: bv8, x: bv32)
    requires InTable(c) && c != EQUALS
    ensures |DecodeFrom([c], x, 3)| == 3 && |DecodeFrom([], x, 3)| == 2
  {
    hide InTable, Push;
    assert [c][1..] == [];
    assert DecodeFrom([], 0, 0) == [];
  }

  // A byte of the table after AAA completes a group.
  lemma FourthCounts(c: bv8)
    requires InTable(c) && c != EQUALS
    ensures |Decode([0x41, 0x41, 0x41] + [c])| == 3 && |Decode([0x41, 0x41, 0x41] + [])| == 2
  {
    LetterFound(0);
    ghost var x := Push(Push(Push(0, 0x41), 0x41), 0x41);
    hide Push, InTable, DecodeFrom;
    assert InTable(0x41);
    forall t: Bytes ensures Decode([0x41, 0x41, 0x41] + t) == DecodeFrom(t, x, 3) {
      OneMore(0x41, t, Push(Push(0, 0x41), 0x41), 2);
      OneMore(0x41, [0x41] + t, Push(0, 0x41), 1);
      OneMore(0x41, [0x41] + ([0x41] + t), 0, 0);
      assert [0x41, 0x41, 0x41] + t == [0x41] + ([0x41] + ([0x41] + t));
    }
    FourthOne(c, x);
  }

  lemma EqualsCounts()
    ensures Decode([] + [EQUALS] + [0x41, 0x41]) != Decode([] + [0x41, 0x41])
  {
    hide Push;
    var s, t: Bytes := [] + [EQUALS] + [0x41, 0x41], [] + [0x41, 0x41];
    var x1 := Push(0, 0x41);
    assert s[0] == EQUALS;
    assert t[1..][1..] == [];
    assert DecodeFrom(t, 0, 0) == DecodeFrom(t[1..], x1, 1) == DecodeFrom([], Push(x1, 0x41), 2);
  }

  // A byte can be put anywhere without changing any decoding.
  ghost predicate Harmless(c: bv8) {
    forall a: Bytes, b: Bytes :: Decode(a + [c] + b) == Decode(a + b)
  }

  // Exactly the bytes outside the table, the padding sign and NUL are harmless.
  lemma HarmlessExactly(c: bv8)
    ensures Harmless(c) <==> !InTable(c) && c != EQUALS
  {
    hide Decode, InTable;
    if !InTable(c) && c != EQUALS {
      forall a: Bytes, b: Bytes ensures Decode(a + [c] + b) == Decode(a + b) {
        StripOne(c);
        StripJoins(a + [c], b);
        StripJoins(a, [c]);
        StripJoins(a, b);
        SameStrip(a + [c] + b, a + b);
      }
    } else if c == EQUALS {
      EqualsCounts();
    } else {
      FourthCounts(c);
      assert [0x41, 0x41, 0x41] + [c] + [] == [0x41, 0x41, 0x41] + [c];
    }
  }

  lemma StripOne(c: bv8)
    requires !InTable(c) && c != EQUALS
    ensures Strip([c]) == []
  {
    assert [c][1..] == [];
  }

  lemma SameStrip(s: Bytes, t: Bytes)
    requires Strip(s) == Strip(t)
    ensures Decode(s) == Decode(t)
  {
    hide DecodeFrom, Strip;
    ForeignIgnored(s, 0, 0);
    ForeignIgnored(t, 0, 0);
  }
}
