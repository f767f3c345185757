/** A round, the key schedule and the sizes written out with the numbers of the standard. */
module AesLaws {
  import opened Common
  import opened SBoxes
  import opened Fips197
  import opened Aes

  // ---------- Rows ----------

  // Row r of a state, from left to right.
  function Row(s: State, r: nat): (row: seq<bv8>)
    ensures |row| == |s|
  {
    seq(|s|, c requires 0 <= c < |s| =>
      if r == 0 then s[c].r0 else if r == 1 then s[c].r1 else if r == 2 then s[c].r2 else s[c].r3)
  }

  function TurnedLeft(row: seq<bv8>, n: nat): seq<bv8>
    requires n <= |row|
  {
    row[n..] + row[..n]
  }

  // Figure 8 of FIPS 197, and the offsets that Rijndael gives the wider blocks.
  lemma RowsTurn(s: State)
    requires ValidColumns(|s|)
    ensures var t := ShiftRows(s); var wide := |s| == 8;
      && |t| == |s| && Row(t, 0) == Row(s, 0) && Row(t, 1) == TurnedLeft(Row(s, 1), 1)
      && Row(t, 2) == TurnedLeft(Row(s, 2), if wide then 3 else 2)
      && Row(t, 3) == TurnedLeft(Row(s, 3), if wide then 4 else 3)
  {
    RowTurns(s, 0, 0);
    RowTurns(s, 1, 1);
    RowTurns(s, 2, if |s| == 8 then 3 else 2);
    RowTurns(s, 3, if |s| == 8 then 4 else 3);
    hide Row, TurnedLeft, ShiftRows;
    NotTurned(Row(s, 0));
  }

  lemma NotTurned(row: seq<bv8>)
    ensures TurnedLeft(row, 0) == row
  {
  }

  lemma RowTurns(s: State, r: nat, n: nat)
    requires ValidColumns(|s|) && r < 4
    requires n == if r == 0 then 0 else if r == 1 then 1 else if |s| == 8 then r + 1 else r
    ensures Row(ShiftRows(s), r) == TurnedLeft(Row(s, r), n)
  {
    assert |ShiftRows(s)| == |s|;
    hide Row, ShiftRows;
    var t, row := Row(ShiftRows(s), r), TurnedLeft(Row(s, r), n);
    forall c: nat | c < |s|
      ensures t[c] == row[c]
    {
      ByteTurns(s, r, n, c);
    }
    assert t == row;
  }

  lemma ByteTurns(s: State, r: nat, n: nat, c: nat)
    requires ValidColumns(|s|) && r < 4 && c < |s|
    requires n == if r == 0 then 0 else if r == 1 then 1 else if |s| == 8 then r + 1 else r
    ensures Row(ShiftRows(s), r)[c] == Row(s, r)[if c + n < |s| then c + n else c + n - |s|]
  {
    WrapOnce(c + n, |s|);
    assert LeftSource(|s|, c, r) == if c + n < |s| then c + n else c + n - |s|;
    hide LeftSource;
  }

  // Figure 4 of FIPS 197, and the wider blocks of Rijndael.
  lemma RoundCounts()
    ensures RoundCount(4, 4) == 10 && RoundCount(6, 4) == 12 && RoundCount(8, 4) == 14
    ensures RoundCount(4, 6) == 12 && RoundCount(6, 6) == 12 && RoundCount(8, 6) == 14
    ensures RoundCount(4, 8) == RoundCount(6, 8) == RoundCount(8, 8) == 14
  {
  }

  // ---------- One round on four columns ----------

  function Turned(a: Col, k: Col): Col {
    AddCol(MixCol(SubCol(a)), k)
  }

  function TurnedLast(a: Col, k: Col): Col {
    AddCol(SubCol(a), k)
  }

  // The columns that the diagonals of a state become.
  function Diagonals(a: Col, b: Col, c: Col, d: Col): (s: State)
    ensures |s| == 4
  {
    [Col(a.r0, b.r1, c.r2, d.r3), Col(b.r0, c.r1, d.r2, a.r3), Col(c.r0, d.r1, a.r2, b.r3), Col(d.r0, a.r1, b.r2, c.r3)]
  }

  lemma FourSources(c: nat, r: nat)
    requires c < 4 && r < 4
    ensures LeftSource(4, c, r) == if c + r < 4 then c + r else c + r - 4
  {
    WrapOnce(c + r, 4);
  }

  lemma ShiftedFour(s: State)
    requires |s| == 4
    ensures ShiftRows(s) == Diagonals(s[0], s[1], s[2], s[3])
  {
    hide LeftSource;
    var t, u := ShiftRows(s), Diagonals(s[0], s[1], s[2], s[3]);
    forall c: nat | c < 4
      ensures t[c] == u[c]
    {
      FourSources(c, 1);
      FourSources(c, 2);
      FourSources(c, 3);
    }
  }

  lemma SubstitutedFour(a: Col, b: Col, c: Col, d: Col)
    ensures SubBytes([a, b, c, d]) == [SubCol(a), SubCol(b), SubCol(c), SubCol(d)]
    ensures Diagonals(SubCol(a), SubCol(b), SubCol(c), SubCol(d)) == SubBytes(Diagonals(a, b, c, d))
  {
    hide SBox;
  }

  lemma ColumnsAlone(g: State, k: State)
    requires |g| == |k| == 4
    ensures AddRoundKey(MixColumns(SubBytes(g)), k)
            == [Turned(g[0], k[0]), Turned(g[1], k[1]), Turned(g[2], k[2]), Turned(g[3], k[3])]
    ensures AddRoundKey(SubBytes(g), k)
            == [TurnedLast(g[0], k[0]), TurnedLast(g[1], k[1]), TurnedLast(g[2], k[2]), TurnedLast(g[3], k[3])]
  {
    hide SubCol, MixCol, AddCol;
  }

  lemma RoundOnFour(a: Col, b: Col, c: Col, d: Col, k: State)
    requires |k| == 4
    ensures var g := Diagonals(a, b, c, d);
      && AddRoundKey(MixColumns(ShiftRows(SubBytes([a, b, c, d]))), k)
         == [Turned(g[0], k[0]), Turned(g[1], k[1]), Turned(g[2], k[2]), Turned(g[3], k[3])]
      && AddRoundKey(ShiftRows(SubBytes([a, b, c, d])), k)
         == [TurnedLast(g[0], k[0]), TurnedLast(g[1], k[1]), TurnedLast(g[2], k[2]), TurnedLast(g[3], k[3])]
  {
    SubstitutedFour(a, b, c, d);
    ShiftedFour([SubCol(a), SubCol(b), SubCol(c), SubCol(d)]);
    assert ShiftRows(SubBytes([a, b, c, d])) == SubBytes(Diagonals(a, b, c, d)) by {
      hide ShiftRows, SubCol;
    }
    ColumnsAlone(Diagonals(a, b, c, d), k);
    hide *;
  }

  // ---------- The key schedule ----------

  lemma KeyOfRound(key: State, nr: nat, n: nat)
    requires 0 < |key| && nr == RoundCount(|key|, 4) && n <= nr
    ensures IsSchedule(KeyExpansion(key, 4), 4, nr) && 4 * (n + 1) <= |KeyExpansion(key, 4)|
    ensures RoundKey(KeyExpansion(key, 4), 4, n) ==
      [KeyWord(key, 4 * n), KeyWord(key, 4 * n + 1), KeyWord(key, 4 * n + 2), KeyWord(key, 4 * n + 3)]
  {
    hide KeyWord;
  }

  lemma KeyWordRule(key: State, nk: nat, i: nat)
    requires 0 < nk == |key| <= i
    ensures var temp := KeyWord(key, i - 1); KeyWord(key, i) == AddCol(KeyWord(key, i - nk),
      if i % nk == 0 then AddCol(SubCol(RotCol(temp)), Col(Rcon(i / nk), 0, 0, 0))
      else if nk > 6 && i % nk == 4 then SubCol(temp) else temp)
  {
    hide AddCol, SubCol, RotCol, Rcon;
  }

  lemma Powers()
    ensures Rcon(1) == 0x01 && Rcon(2) == 0x02 && Rcon(3) == 0x04 && Rcon(4) == 0x08 && Rcon(5) == 0x10
    ensures Rcon(6) == 0x20 && Rcon(7) == 0x40 && Rcon(8) == 0x80 && Rcon(9) == 0x1B && Rcon(10) == 0x36
  {
  }

  // ---------- Runs of the cipher ----------

  // The state after n rounds under a key.
  function After(key: State, text: State, n: nat): (s: State)
    requires 0 < |key| && |text| == 4 && n < RoundCount(|key|, 4)
    ensures |s| == 4
  {
    KeyOfRound(key, RoundCount(|key|, 4), n);
    Rounds(text, KeyExpansion(key, 4), RoundCount(|key|, 4), n)
  }

  lemma FourOf(s: State)
    requires |s| == 4
    ensures s == [s[0], s[1], s[2], s[3]]
  {
  }

  lemma AddedFour(s: State, k: State)
    requires |s| == |k| == 4
    ensures AddRoundKey(s, k) == [AddCol(s[0], k[0]), AddCol(s[1], k[1]), AddCol(s[2], k[2]), AddCol(s[3], k[3])]
  {
    hide AddCol;
  }

  lemma FirstRound(key: State, text: State)
    requires 0 < |key| && |text| == 4
    ensures After(key, text, 0) == [AddCol(text[0], KeyWord(key, 0)), AddCol(text[1], KeyWord(key, 1)),
                                    AddCol(text[2], KeyWord(key, 2)), AddCol(text[3], KeyWord(key, 3))]
  {
    hide KeyWord, KeyExpansion, AddCol, RoundKey, AddRoundKey;
    KeyOfRound(key, RoundCount(|key|, 4), 0);
    AddedFour(text, RoundKey(KeyExpansion(key, 4), 4, 0));
  }

  lemma NextRound(key: State, text: State, n: nat)
    requires 0 < |key| && |text| == 4 && 0 < n < RoundCount(|key|, 4)
    ensures var s := After(key, text, n - 1); var g := Diagonals(s[0], s[1], s[2], s[3]);
      After(key, text, n) == [Turned(g[0], KeyWord(key, 4 * n)), Turned(g[1], KeyWord(key, 4 * n + 1)),
                              Turned(g[2], KeyWord(key, 4 * n + 2)), Turned(g[3], KeyWord(key, 4 * n + 3))]
  {
    var nr := RoundCount(|key|, 4);
    KeyOfRound(key, nr, n);
    var s := After(key, text, n - 1);
    FourOf(s);
    RoundOnFour(s[0], s[1], s[2], s[3], RoundKey(KeyExpansion(key, 4), 4, n));
    hide KeyWord, KeyExpansion, Turned, TurnedLast, Diagonals, ShiftRows, SubBytes, MixColumns, AddRoundKey, RoundKey;
  }

  lemma CipherEnds(key: State, text: State)
    requires 0 < |key| && |text| == 4
    ensures var n := RoundCount(|key|, 4); var w := KeyExpansion(key, 4);
      && IsSchedule(w, 4, n) && 4 * (n + 1) <= |w|
      && Cipher(text, w, n) == AddRoundKey(ShiftRows(SubBytes(After(key, text, n - 1))), RoundKey(w, 4, n))
  {
    hide KeyExpansion, ShiftRows, SubBytes, AddRoundKey, RoundKey, RoundCount, Rounds;
    KeyOfRound(key, RoundCount(|key|, 4), RoundCount(|key|, 4));
  }

  lemma LastRound(key: State, text: State, n: nat)
    requires 0 < |key| && |text| == 4 && n == RoundCount(|key|, 4)
    ensures IsSchedule(KeyExpansion(key, 4), 4, n)
    ensures var s := After(key, text, n - 1); var g := Diagonals(s[0], s[1], s[2], s[3]);
      Cipher(text, KeyExpansion(key, 4), n) ==
        [TurnedLast(g[0], KeyWord(key, 4 * n)), TurnedLast(g[1], KeyWord(key, 4 * n + 1)),
         TurnedLast(g[2], KeyWord(key, 4 * n + 2)), TurnedLast(g[3], KeyWord(key, 4 * n + 3))]
  {
    hide KeyWord, KeyExpansion, Turned, TurnedLast, Diagonals, ShiftRows, SubBytes, MixColumns, AddRoundKey, RoundKey,
      Cipher, After, IsSchedule;
    KeyOfRound(key, n, n);
    CipherEnds(key, text);
    var s := After(key, text, n - 1);
    FourOf(s);
    RoundOnFour(s[0], s[1], s[2], s[3], RoundKey(KeyExpansion(key, 4), 4, n));
  }

  lemma StatesJoin(a: Bytes, b: Bytes)
    requires |a| % 4 == 0
    ensures ToState(a + b) == ToState(a) + ToState(b)
  {
    assert |a| == 4 * (|a| / 4) && |a + b| / 4 == |a| / 4 + |b| / 4;
    forall c | 0 <= c < |a + b| / 4
      ensures ToState(a + b)[c] == (ToState(a) + ToState(b))[c]
    {
      if c >= |a| / 4 {
        assert 4 * (c - |a| / 4) == 4 * c - |a|;
      }
    }
  }
}
