/** What the round transformations of FIPS 197 undo, and why the equivalent inverse cipher
    with its reversed and pre-mixed keys decrypts. */
module AesTheory {
  import opened SBoxes
  import opened Fips197

  lemma SubBytesUndone(s: State)
    ensures InvSubBytes(SubBytes(s)) == s
  {
    hide SBox, InvSBox;
    forall c | 0 <= c < |s|
      ensures InvSubCol(SubCol(s[c])) == s[c]
    {
      InvSBoxSBox(s[c].r0);
      InvSBoxSBox(s[c].r1);
      InvSBoxSBox(s[c].r2);
      InvSBoxSBox(s[c].r3);
    }
  }

  lemma MixColumnsUndone(s: State)
    ensures InvMixColumns(MixColumns(s)) == s
  {
    hide MixCol, InvMixCol;
    forall c | 0 <= c < |s|
      ensures InvMixCol(MixCol(s[c])) == s[c]
    {
      InvMixColMixCol(s[c]);
    }
  }

  // Shifting a row right takes back what shifting it left moved.
  lemma SourcesAreInverse(nc: nat, c: nat, r: nat)
    requires ValidColumns(nc) && c < nc && r < 4
    ensures LeftSource(nc, RightSource(nc, c, r), r) == c
  {
    var s := RowShift(nc, r);
    WrapOnce(c + nc - s, nc);
    WrapOnce(if c >= s then c else c + nc, nc);
  }

  lemma ShiftRowsUndone(s: State)
    requires ValidColumns(|s|)
    ensures InvShiftRows(ShiftRows(s)) == s
  {
    var nc := |s|;
    forall c | 0 <= c < nc
      ensures InvShiftRows(ShiftRows(s))[c] == s[c]
    {
      SourcesAreInverse(nc, c, 1);
      SourcesAreInverse(nc, c, 2);
      SourcesAreInverse(nc, c, 3);
    }
  }

  lemma AddColTwice(a: Col, b: Col)
    ensures AddCol(AddCol(a, b), b) == a
  {
  }

  lemma AddRoundKeyUndone(s: State, k: State)
    requires |s| == |k|
    ensures AddRoundKey(AddRoundKey(s, k), k) == s
  {
    hide AddCol;
    forall c | 0 <= c < |s|
      ensures AddCol(AddCol(s[c], k[c]), k[c]) == s[c]
    {
      AddColTwice(s[c], k[c]);
    }
  }

  // InvMixColumns distributes over adding a round key.
  lemma InvMixColumnsAdd(s: State, k: State)
    requires |s| == |k|
    ensures InvMixColumns(AddRoundKey(s, k)) == AddRoundKey(InvMixColumns(s), InvMixColumns(k))
  {
    hide InvMixCol, AddCol;
    forall c | 0 <= c < |s|
      ensures InvMixCol(AddCol(s[c], k[c])) == AddCol(InvMixCol(s[c]), InvMixCol(k[c]))
    {
      InvMixColLinear(s[c], k[c]);
    }
  }

  // The order of the byte substitution and the row shift does not matter.
  lemma InvSubShiftCommute(s: State)
    requires ValidColumns(|s|)
    ensures InvShiftRows(InvSubBytes(s)) == InvSubBytes(InvShiftRows(s))
  {
    hide InvSBox;
  }

  // Peeling n rounds off takes back applying n rounds.
  lemma {:induction false} PeelUndoesRounds(s: State, w: State, nr: nat, n: nat)
    requires IsSchedule(w, |s|, nr) && n < nr
    ensures Peel(Rounds(s, w, nr, n), w, nr, n) == s
    decreases n
  {
    hide SubBytes, InvSubBytes, ShiftRows, InvShiftRows, MixColumns, InvMixColumns, AddRoundKey;
    RoundKeyFits(w, |s|, nr, n);
    var k := RoundKey(w, |s|, n);
    if n == 0 {
      AddRoundKeyUndone(s, k);
    } else {
      var before := Rounds(s, w, nr, n - 1);
      SubBytesSize(before);
      SubBytesUndone(before);
      ShiftRowsUndone(SubBytes(before));
      MixColumnsUndone(ShiftRows(SubBytes(before)));
      AddRoundKeyUndone(MixColumns(ShiftRows(SubBytes(before))), k);
      PeelUndoesRounds(s, w, nr, n - 1);
    }
  }

  lemma SubBytesSize(s: State)
    ensures |SubBytes(s)| == |s| && |ShiftRows(SubBytes(s))| == |s| && |MixColumns(ShiftRows(SubBytes(s)))| == |s|
  {
  }

  // Decryption by the straightforward inverse cipher, for every schedule and round count.
  lemma InvCipherUndoesCipher(s: State, w: State, nr: nat)
    requires IsSchedule(w, |s|, nr)
    ensures InvCipher(Cipher(s, w, nr), w, nr) == s
  {
    hide SubBytes, InvSubBytes, ShiftRows, InvShiftRows, AddRoundKey;
    RoundKeyFits(w, |s|, nr, nr);
    var before := Rounds(s, w, nr, nr - 1);
    SubBytesSize(before);
    AddRoundKeyUndone(ShiftRows(SubBytes(before)), RoundKey(w, |s|, nr));
    ShiftRowsUndone(SubBytes(before));
    SubBytesUndone(before);
    PeelUndoesRounds(s, w, nr, nr - 1);
  }

  // After n rounds of the equivalent inverse cipher, peeling the remaining rounds gives what
  // the straightforward inverse cipher gives.
  lemma {:induction false} EqInvRoundsFollowPeel(t: State, w: State, dw: State, nr: nat, n: nat)
    requires IsSchedule(w, |t|, nr) && IsSchedule(dw, |t|, nr) && n < nr
    requires IsInverseSchedule(dw, w, |t|, nr)
    ensures Peel(InvSubBytes(InvShiftRows(EqInvRounds(t, dw, nr, n))), w, nr, nr - 1 - n) == InvCipher(t, w, nr)
    decreases n
  {
    hide InvSubBytes, InvShiftRows, InvMixColumns, AddRoundKey;
    var nc := |t|;
    RoundKeyFits(w, nc, nr, nr - n);
    RoundKeyFits(dw, nc, nr, n);
    if n == 0 {
      assert RoundKey(dw, nc, 0) == RoundKey(w, nc, nr);
    } else {
      var u := EqInvRounds(t, dw, nr, n - 1);
      var v := InvSubBytes(InvShiftRows(u));
      var k := RoundKey(w, nc, nr - n);
      InvSubShiftCommute(u);
      assert RoundKey(dw, nc, n) == InvMixColumns(k);
      InvSizes(u);
      InvMixColumnsAdd(v, k);
      EqInvRoundsFollowPeel(t, w, dw, nr, n - 1);
    }
  }

  lemma InvSizes(s: State)
    requires ValidColumns(|s|)
    ensures |InvShiftRows(s)| == |s| && |InvSubBytes(s)| == |s| && |InvSubBytes(InvShiftRows(s))| == |s|
    ensures |InvMixColumns(InvSubBytes(InvShiftRows(s)))| == |s|
  {
  }

  lemma EqInvCipherIsInvCipher(t: State, w: State, dw: State, nr: nat)
    requires IsSchedule(w, |t|, nr) && IsSchedule(dw, |t|, nr)
    requires IsInverseSchedule(dw, w, |t|, nr)
    ensures EqInvCipher(t, dw, nr) == InvCipher(t, w, nr)
  {
    hide InvSubBytes, InvShiftRows, AddRoundKey;
    RoundKeyFits(w, |t|, nr, 0);
    RoundKeyFits(dw, |t|, nr, nr);
    var u := EqInvRounds(t, dw, nr, nr - 1);
    InvSubShiftCommute(u);
    EqInvRoundsFollowPeel(t, w, dw, nr, nr - 1);
    assert RoundKey(dw, |t|, nr) == RoundKey(w, |t|, 0);
  }
}
