/** Port ranges as text in if_common.c: the printer of one slot's bitmap and the parser. */
module RangeText {
  import opened Decimal
  import opened Bitmaps
  import opened Common

  const TWO16 := 0x1_0000

  // ---------- Characters ----------

  predicate IsDigit(c: char) {
    '0' <= c <= '9'
  }

  function DigitChar(d: nat): (c: char)
    requires d < 10
    ensures IsDigit(c)
  {
    '0' + d as char
  }

  function DigitOf(c: char): nat
    requires IsDigit(c)
  {
    (c - '0') as nat
  }

  // sprintf's %d.
  function Print(n: nat): (s: string)
    ensures s != "" && forall c | c in s :: IsDigit(c)
  {
    var ds := Numeral(n);
    seq(|ds|, i requires 0 <= i < |ds| => DigitChar(ds[i]))
  }

  // is_digital_str.
  predicate IsDigital(s: string) {
    s != "" && forall i | 0 <= i < |s| :: IsDigit(s[i])
  }

  function Atoi(s: string): nat
    requires IsDigital(s)
  {
    Value(seq(|s|, i requires 0 <= i < |s| => DigitOf(s[i])))
  }

  lemma PrintIsRead(n: nat)
    ensures IsDigital(Print(n)) && Atoi(Print(n)) == n
  {
    var ds := Numeral(n);
    assert seq(|ds|, i requires 0 <= i < |ds| => DigitOf(DigitChar(ds[i]))) == ds by {
      forall d: nat | d < 10 ensures DigitOf(DigitChar(d)) == d {
        DigitRead(d);
      }
    }
    var s := Print(n);
    assert seq(|s|, i requires 0 <= i < |s| => DigitOf(s[i])) == ds;
    ValueOfNumeral(n);
  }

  lemma DigitRead(d: nat)
    requires d < 10
    ensures DigitOf(DigitChar(d)) == d
  {
  }

  // strchr.
  function Find(s: string, c: char): (r: Option<nat>)
    ensures r.Some? ==> r.value < |s| && s[r.value] == c && c !in s[..r.value]
    ensures r.None? ==> c !in s
  {
    if s == "" then None
    else if s[0] == c then Some(0)
    else
      var r := Find(s[1..], c);
      assert r.Some? ==> s[..r.value + 1] == [s[0]] + s[1..][..r.value];
      if r.None? then None else Some(r.value + 1)
  }

  lemma {:induction false} FindFirst(a: string, c: char, b: string)
    requires c !in a
    ensures Find(a + [c] + b, c) == Some(|a|)
  {
    if a != "" {
      assert (a + [c] + b)[1..] == a[1..] + [c] + b;
      FindFirst(a[1..], c, b);
    }
  }

  // ---------- What the parser looks up ----------

  // For one interface type: the base of every slot that has one, and the valid logical ports.
  datatype Map = Map(minSlot: nat, maxSlot: nat, base: map<nat, nat>, valid: Ports)

  // A port number as an int16 argument.
  function Signed16(n: nat): int
    requires n < TWO16
  {
    if n < 0x8000 then n else n - TWO16
  }

  // get_logical_port_number gives a valid port.
  predicate Known(m: Map, slot: nat, port: nat)
    requires port < TWO16
  {
    slot in m.base && m.base[slot] + Signed16(port) >= 0 && (m.base[slot] + Signed16(port)) as nat in m.valid
  }

  // Ports lo to hi of a slot.
  function Logical(base: nat, lo: nat, hi: int): (ps: Ports)
    ensures forall q :: q in ps <==> lo + base <= q <= hi + base
    decreases hi
  {
    if hi < lo then {} else Logical(base, lo, hi - 1) + {hi + base}
  }

  // ---------- Ranges ----------

  // slot/hi, or slot/lo-hi when dashed.
  datatype Range = Range(slot: nat, lo: nat, hi: nat, dashed: bool) {
    predicate Fits() {
      slot < TWO16 && lo < TWO16 && hi < TWO16 && (!dashed ==> lo == hi)
    }
  }

  function PortText(r: Range): (s: string)
    ensures s != "" && ',' !in s
  {
    (if r.dashed then Print(r.lo) + "-" else "") + Print(r.hi)
  }

  function Text(r: Range): (s: string)
    ensures s != ""
  {
    Print(r.slot) + "/" + PortText(r)
  }

  function Join(rs: seq<Range>): string {
    if rs == [] then "" else if |rs| == 1 then Text(rs[0]) else Text(rs[0]) + "," + Join(rs[1..])
  }

  // One range is taken when its slot exists, its ends are ports, and it goes on upwards.
  predicate Takes(m: Map, r: Range, last: nat)
    requires r.Fits()
  {
    && m.minSlot <= r.slot <= m.maxSlot
    && (r.dashed ==> Known(m, r.slot, r.lo) && last <= r.lo)
    && Known(m, r.slot, r.hi) && (r.dashed && r.lo != 0 ==> r.lo <= r.hi) && last <= r.hi
  }

  // A dashed range from port 0 is read as its upper end alone.
  function PortsOf(m: Map, r: Range): Ports
    requires r.slot in m.base
  {
    Logical(m.base[r.slot], if r.dashed && r.lo != 0 then r.lo else r.hi, r.hi)
  }

  // What a call comes to: the positions shifted into the bitmap, an error, or no end at all.
  datatype Outcome = Taken(ports: Ports) | Refused | Endless

  // The loop over the ports of a range has a 16-bit index, which never passes this.
  const LAST16: nat := TWO16 - 1

  // The index after n passes.
  function Index16(lo: nat, n: nat): nat
    requires lo < TWO16
  {
    if n == 0 then lo else (Index16(lo, n - 1) + 1) % TWO16
  }

  // The loop from lo to hi ends exactly when hi is below the greatest index.
  lemma LoopEndsExactly(lo: nat, hi: nat)
    requires lo <= hi < TWO16
    ensures (exists n: nat :: Index16(lo, n) > hi) <==> hi != LAST16
  {
    if hi != LAST16 {
      IndexCounts(lo, hi + 1 - lo);
    }
    forall n: nat ensures Index16(lo, n) < TWO16 {
    }
  }

  lemma {:induction false} IndexCounts(lo: nat, n: nat)
    requires lo + n < TWO16
    ensures Index16(lo, n) == lo + n
  {
    if n != 0 {
      IndexCounts(lo, n - 1);
    }
  }

  // The meaning of a list of ranges.
  function Meaning(m: Map, rs: seq<Range>, last: nat, acc: Ports): Outcome
    requires forall i | 0 <= i < |rs| :: rs[i].Fits()
  {
    if rs == [] then Taken(acc)
    else if !Takes(m, rs[0], last) then Refused
    else if rs[0].hi == LAST16 then Endless
    else Meaning(m, rs[1..], rs[0].hi, acc + PortsOf(m, rs[0]))
  }

  // The upper end of the range before range i.
  function LastEnd(rs: seq<Range>, last: nat, i: nat): nat
    requires i <= |rs|
  {
    if i == 0 then last else rs[i - 1].hi
  }

  ghost predicate GoesOn(m: Map, rs: seq<Range>, last: nat, i: nat)
    requires i < |rs| && rs[i].Fits()
  {
    var r := rs[i];
    && m.minSlot <= r.slot <= m.maxSlot && Known(m, r.slot, r.hi) && LastEnd(rs, last, i) <= r.hi
    && (r.dashed ==> Known(m, r.slot, r.lo) && LastEnd(rs, last, i) <= r.lo && (r.lo == 0 || r.lo <= r.hi))
    && r.hi != LAST16
  }

  // Ports of range i in their logical numbers; a dashed range from port 0 is its upper end alone.
  ghost predicate InRange(m: Map, rs: seq<Range>, i: nat, q: nat) {
    && i < |rs| && rs[i].slot in m.base
    && q <= m.base[rs[i].slot] + rs[i].hi
    && q >= m.base[rs[i].slot] + if rs[i].dashed && rs[i].lo != 0 then rs[i].lo else rs[i].hi
  }

  // A list is taken exactly when every range fits its slot and goes on where the one before ended,
  // and then it means the ports of all its ranges.
  lemma {:induction false} TakenExactly(m: Map, rs: seq<Range>, last: nat, acc: Ports)
    requires forall i | 0 <= i < |rs| :: rs[i].Fits()
    ensures Meaning(m, rs, last, acc).Taken? <==> forall i | 0 <= i < |rs| :: GoesOn(m, rs, last, i)
    ensures Meaning(m, rs, last, acc).Taken? ==>
      forall q :: q in Meaning(m, rs, last, acc).ports <==> q in acc || exists i :: InRange(m, rs, i, q)
    decreases |rs|
  {
    hide Known;
    if rs != [] {
      var rest := rs[1..];
      FirstGoesOn(m, rs, last);
      if Takes(m, rs[0], last) && rs[0].hi != LAST16 {
        KnownSlot(m, rs[0].slot, rs[0].hi);
        TakenExactly(m, rest, rs[0].hi, acc + PortsOf(m, rs[0]));
        RestGoesOn(m, rs, last);
        forall q: nat ensures (exists i :: InRange(m, rs, i, q)) <==>
          q in PortsOf(m, rs[0]) || exists i :: InRange(m, rest, i, q)
        {
          RestInRange(m, rs, q);
        }
      }
    }
  }

  lemma FirstGoesOn(m: Map, rs: seq<Range>, last: nat)
    requires rs != [] && rs[0].Fits()
    ensures GoesOn(m, rs, last, 0) <==> Takes(m, rs[0], last) && rs[0].hi != LAST16
  {
    hide Known;
  }

  lemma RestGoesOn(m: Map, rs: seq<Range>, last: nat)
    requires rs != [] && forall i | 0 <= i < |rs| :: rs[i].Fits()
    ensures (forall i | 0 <= i < |rs| :: GoesOn(m, rs, last, i)) <==>
      GoesOn(m, rs, last, 0) && forall i | 0 <= i < |rs[1..]| :: GoesOn(m, rs[1..], rs[0].hi, i)
  {
    hide Known;
    var rest := rs[1..];
    forall i | 0 <= i < |rest| ensures GoesOn(m, rest, rs[0].hi, i) <==> GoesOn(m, rs, last, i + 1) {
      assert rest[i] == rs[i + 1] && LastEnd(rest, rs[0].hi, i) == LastEnd(rs, last, i + 1);
    }
    if forall i | 0 <= i < |rest| :: GoesOn(m, rest, rs[0].hi, i) {
      forall i | 0 < i < |rs| ensures GoesOn(m, rs, last, i) {
        assert GoesOn(m, rest, rs[0].hi, i - 1);
      }
    }
  }

  lemma RestInRange(m: Map, rs: seq<Range>, q: nat)
    requires rs != [] && rs[0].slot in m.base
    ensures (exists i :: InRange(m, rs, i, q)) <==> q in PortsOf(m, rs[0]) || exists i :: InRange(m, rs[1..], i, q)
  {
    var rest := rs[1..];
    assert InRange(m, rs, 0, q) <==> q in PortsOf(m, rs[0]);
    forall i: nat ensures InRange(m, rest, i, q) <==> InRange(m, rs, i + 1, q) {
    }
    if i: nat :| InRange(m, rs, i, q) {
      assert i > 0 ==> InRange(m, rest, i - 1, q);
    }
  }

  // ---------- The parser ----------

  function Head(s: string, c: char): (h: string)
    ensures c !in h && |h| <= |s|
  {
    match Find(s, c) case None => s case Some(i) => s[..i]
  }

  // slot/ports up to the next comma, as a range.
  function ReadRange(s: string): (r: Option<Range>)
    ensures r.Some? ==> r.value.Fits()
  {
    var i := Find(s, '/');
    if i.None? || !IsDigital(s[..i.value]) then None
    else
      var slot := Atoi(s[..i.value]) % TWO16;
      var item := Head(s[i.value + 1..], ',');
      match Find(item, '-')
      case None =>
        if !IsDigital(item) then None
        else Some(Range(slot, Atoi(item) % TWO16, Atoi(item) % TWO16, false))
      case Some(d) =>
        if !IsDigital(item[..d]) || !IsDigital(item[d + 1..]) then None
        else Some(Range(slot, Atoi(item[..d]) % TWO16, Atoi(item[d + 1..]) % TWO16, true))
  }

  // What follows the next comma after the slot.
  function Rest(s: string): (t: string)
    ensures s != "" ==> |t| < |s|
  {
    match Find(s, '/')
    case None => ""
    case Some(i) =>
      var after := s[i + 1..];
      match Find(after, ',') case None => "" case Some(q) => after[q + 1..]
  }

  function Parse(m: Map, s: string, last: nat, acc: Ports): Outcome
    decreases |s|
  {
    if s == "" then Taken(acc)
    else
      var r := ReadRange(s);
      if r.None? || !Takes(m, r.value, last) then Refused
      else if r.value.hi == LAST16 then Endless
      else Parse(m, Rest(s), r.value.hi, acc + PortsOf(m, r.value))
  }

  predicate Allowed(s: string) {
    forall i | 0 <= i < |s| :: IsDigit(s[i]) || s[i] in "/,-"
  }

  // What the text after the interface type comes to.
  function ParseText(m: Map, s: string): Outcome {
    if Allowed(s) then Parse(m, s, 0, {}) else Refused
  }

  // The ranges that pass all tests, up to the first that does not.
  function Accepted(m: Map, s: string, last: nat): seq<Range>
    decreases |s|
  {
    if s == "" then []
    else
      var r := ReadRange(s);
      if r.None? || !Takes(m, r.value, last) then [] else [r.value] + Accepted(m, Rest(s), r.value.hi)
  }

  ghost predicate ReachesLast(rs: seq<Range>) {
    exists i :: 0 <= i < |rs| && rs[i].hi == LAST16
  }

  lemma {:induction false} EndlessFrom(m: Map, s: string, last: nat, acc: Ports)
    ensures Parse(m, s, last, acc) == Endless <==> ReachesLast(Accepted(m, s, last))
    decreases |s|
  {
    hide ReadRange, Rest, Takes, PortsOf;
    if s != "" {
      var r := ReadRange(s);
      if r.Some? && Takes(m, r.value, last) {
        TakesSlot(m, r.value, last);
        RestIsShorter(s);
        var rest := Accepted(m, Rest(s), r.value.hi);
        assert Accepted(m, s, last) == [r.value] + rest;
        EndlessFrom(m, Rest(s), r.value.hi, acc + PortsOf(m, r.value));
        assert ([r.value] + rest)[0] == r.value;
        if ReachesLast(rest) {
          var i :| 0 <= i < |rest| && rest[i].hi == LAST16;
          assert ([r.value] + rest)[i + 1] == rest[i];
        }
      }
    }
  }

  lemma RestIsShorter(s: string)
    requires s != ""
    ensures |Rest(s)| < |s|
  {
  }

  // The parser returns exactly when no range it accepts ends in 65535.
  lemma ReturnsExactly(m: Map, s: string)
    ensures ParseText(m, s) != Endless <==> !Allowed(s) || !ReachesLast(Accepted(m, s, 0))
  {
    hide Parse, Accepted, ReachesLast;
    EndlessFrom(m, s, 0, {});
  }

  // A text that never returns: slots 1 and 2 on bases 0 and 4, four ports each. As an int16 the
  // upper end is -1, and port 3 is valid.
  lemma EndlessInput()
    ensures var m := Map(1, 2, map[1 := 0, 2 := 4], {1, 2, 3, 4, 5, 6, 7, 8});
      ParseText(m, "2/65535") == Endless
  {
    var m := Map(1, 2, map[1 := 0, 2 := 4], {1, 2, 3, 4, 5, 6, 7, 8});
    var r := Range(2, LAST16, LAST16, false);
    EndlessText();
    JoinIsAllowed([r]);
    JoinIsRead(m, [r], 0, {});
    assert Takes(m, r, 0);
  }

  // All ten digits and the three separators.
  lemma WrittenOut()
    ensures Join([Range(1234567890, 2, 4, true), Range(1, 6, 6, false)]) == "1234567890/2-4,1/6"
  {
    TenDigits();
    hide Numeral;
    OneDigit(1);
    OneDigit(2);
    OneDigit(4);
    OneDigit(6);
    assert Print(1234567890) == "1234567890" && Print(1) == "1" && Print(2) == "2";
    assert Print(4) == "4" && Print(6) == "6";
    var r, s := Range(1234567890, 2, 4, true), Range(1, 6, 6, false);
    hide Print;
    assert Text(r) == "1234567890/2-4" && Text(s) == "1/6";
    assert [r, s][1..] == [s];
  }

  lemma OneDigit(d: nat)
    requires d < 10
    ensures Numeral(d) == [d]
  {
  }

  lemma EndlessText()
    ensures Join([Range(2, LAST16, LAST16, false)]) == "2/65535"
  {
    assert Numeral(6) == [6] && Numeral(65) == [6, 5] && Numeral(655) == [6, 5, 5];
    assert Numeral(6553) == [6, 5, 5, 3] && Numeral(65535) == [6, 5, 5, 3, 5];
    assert Print(65535) == "65535" && Print(2) == "2";
  }

  datatype Status = Ok | Invalid | NeverReturns

  // get_ifrange_portmap_from_str, after the interface type. The bitmap is undefined after a shift
  // beyond the word.
  method ParseRanges(m: Map, str: string) returns (status: Status, pbmp: Option<Ports>)
    ensures status == match ParseText(m, str) case Taken(_) => Ok case Refused => Invalid case Endless => NeverReturns
    ensures status == Ok ==> pbmp == Word(ParseText(m, str).ports)
  {
    hide Parse, ReadRange, Rest, Takes, IsDigital, Atoi, Word;
    ghost var all: Ports := {};
    pbmp := Some({});
    EmptyWord();
    for i := 0 to |str|
      invariant forall j | 0 <= j < i :: IsDigit(str[j]) || str[j] in "/,-"
    {
      if !(IsDigit(str[i]) || str[i] in "/,-") {
        return Invalid, pbmp;
      }
    }
    var s, last: nat := str, 0;
    while s != ""
      invariant Parse(m, str, 0, {}) == Parse(m, s, last, all) && pbmp == Word(all)
      decreases |s|
    {
      ParseUnfold(m, s, last, all);
      var taken, left := NextRange(m, s, last);
      if taken.None? {
        return Invalid, pbmp;
      }
      var base, maxPort := m.base[taken.value.slot], taken.value.hi;
      var minPort := if taken.value.dashed && taken.value.lo != 0 then taken.value.lo else maxPort;
      LoopEndsExactly(minPort, maxPort);
      if maxPort == LAST16 {
        return NeverReturns, pbmp;
      }
      pbmp := ShiftIn(base, minPort, maxPort, all, pbmp);
      all := all + Logical(base, minPort, maxPort);
      s, last := left, maxPort;
    }
    ParseNothing(m, last, all);
    status := Ok;
  }

  // The loop over the ports of one range.
  method ShiftIn(base: nat, minPort: nat, maxPort: nat, ghost ports: Ports, word: Option<Ports>)
    returns (pbmp: Option<Ports>)
    requires minPort <= maxPort < LAST16 && word == Word(ports)
    ensures pbmp == Word(ports + Logical(base, minPort, maxPort))
  {
    hide Word;
    ghost var all := ports;
    pbmp := word;
    var i := minPort;
    while i <= maxPort
      invariant minPort <= i <= maxPort + 1
      invariant all == ports + Logical(base, minPort, i - 1) && pbmp == Word(all)
      decreases maxPort + 1 - i
    {
      WordOne(all, i + base);
      pbmp := if pbmp.None? || i + base >= BITS then None else Some(pbmp.value + {i + base});
      all := all + {i + base};
      i := (i + 1) % TWO16;
    }
  }

  lemma EmptyWord()
    ensures Word({}) == Some({})
  {
  }

  lemma WordOne(ports: Ports, p: nat)
    ensures Word(ports + {p}) == if Word(ports).None? || p >= BITS then None else Some(Word(ports).value + {p})
  {
    assert forall q | q in ports :: q in ports + {p};
    assert p in ports + {p};
  }

  // One pass of the loop: the range before the next comma, checked, and the text after it.
  method NextRange(m: Map, s: string, last: nat) returns (r: Option<Range>, left: string)
    requires s != ""
    ensures var want := ReadRange(s);
      r == if want.None? || !Takes(m, want.value, last) then None else want
    ensures r.Some? ==> left == Rest(s) && r.value.slot in m.base
    ensures r.Some? ==> r.value.Fits() && (r.value.dashed && r.value.lo != 0 ==> r.value.lo <= r.value.hi)
  {
    hide Find, IsDigital, Atoi, Known, Head;
    left := "";
    var i := Find(s, '/');
    if i.None? || !IsDigital(s[..i.value]) {
      return None, left;
    }
    var slot := Atoi(s[..i.value]) % TWO16;
    var t := s[i.value + 1..];
    var p, q := Find(t, '-'), Find(t, ',');
    FindInHead(t, '-', ',');
    var end := if q.Some? then q.value else |t|;
    HeadEnds(t, ',');
    if slot < m.minSlot || slot > m.maxSlot {
      return None, left;
    }
    var dashed := p.Some? && (q.None? || p.value < q.value);
    var minPort, start := 0, 0;
    if dashed {
      SliceOfSlice(t, end, p.value);
      if !IsDigital(t[..p.value]) {
        return None, left;
      }
      minPort := Atoi(t[..p.value]) % TWO16;
      if !Known(m, slot, minPort) || last > minPort {
        return None, left;
      }
      start := p.value + 1;
    }
    if !IsDigital(t[start..end]) {
      return None, left;
    }
    var maxPort := Atoi(t[start..end]) % TWO16;
    if !Known(m, slot, maxPort) || (minPort != 0 && minPort > maxPort) || last > maxPort {
      return None, left;
    }
    KnownSlot(m, slot, maxPort);
    r := Some(Range(slot, if dashed then minPort else maxPort, maxPort, dashed));
    left := if q.Some? then t[q.value + 1..] else "";
  }

  lemma HeadEnds(t: string, c: char)
    ensures Head(t, c) == t[..if Find(t, c).Some? then Find(t, c).value else |t|]
  {
    hide Find;
  }

  lemma SliceOfSlice(t: string, end: nat, i: nat)
    requires i < end <= |t|
    ensures t[..end][..i] == t[..i] && t[..end][i + 1..] == t[i + 1..end]
  {
  }

  lemma KnownSlot(m: Map, slot: nat, port: nat)
    requires port < TWO16 && Known(m, slot, port)
    ensures slot in m.base
  {
  }

  lemma FindInHead(t: string, c: char, stop: char)
    ensures var p, q := Find(t, c), Find(t, stop);
      Find(Head(t, stop), c) == if p.Some? && (q.None? || p.value < q.value) then p else None
  {
    FindInPrefix(t, c, |Head(t, stop)|);
    assert Head(t, stop) == t[..|Head(t, stop)|];
  }

  lemma {:induction false} FindInPrefix(t: string, c: char, n: nat)
    requires n <= |t|
    ensures Find(t[..n], c) == if Find(t, c).Some? && Find(t, c).value < n then Find(t, c) else None
  {
    if n > 0 && t[0] != c {
      assert t[..n][1..] == t[1..][..n - 1];
      FindInPrefix(t[1..], c, n - 1);
    }
  }

  lemma ParseNothing(m: Map, last: nat, acc: Ports)
    ensures Parse(m, "", last, acc) == Taken(acc)
  {
  }

  lemma ParseUnfold(m: Map, s: string, last: nat, acc: Ports)
    requires s != ""
    ensures var r := ReadRange(s);
      Parse(m, s, last, acc) ==
        if r.None? || !Takes(m, r.value, last) then Refused
        else if r.value.hi == LAST16 then Endless
        else Parse(m, Rest(s), r.value.hi, acc + PortsOf(m, r.value))
  {
  }

  // ---------- Printed ranges are read back ----------

  lemma TextIsRead(r: Range, more: string)
    requires r.Fits() && (more == "" || more[0] == ',')
    ensures ReadRange(Text(r) + more) == Some(r)
    ensures Rest(Text(r) + more) == if more == "" then "" else more[1..]
  {
    hide Print, IsDigital, Atoi, Find, PortText;
    var slot, s := Print(r.slot), Text(r) + more;
    PrintIsRead(r.slot);
    NoneOf(slot, '/');
    assert s == slot + ['/'] + (PortText(r) + more);
    FindFirst(slot, '/', PortText(r) + more);
    assert s[..|slot|] == slot && s[|slot| + 1..] == PortText(r) + more;
    HeadOfItem(PortText(r), more);
    assert Find(s, '/') == Some(|slot|);
    ItemIsRead(r);
  }

  // No separator in a numeral.
  lemma NoneOf(s: string, c: char)
    requires (forall d | d in s :: IsDigit(d)) && !IsDigit(c)
    ensures c !in s
  {
  }

  lemma HeadOfItem(item: string, more: string)
    requires ',' !in item && (more == "" || more[0] == ',')
    ensures Head(item + more, ',') == item
    ensures more == "" ==> Find(item + more, ',') == None
    ensures more != "" ==> Find(item + more, ',') == Some(|item|)
  {
    hide Find;
    if more != "" {
      assert item + more == item + [','] + more[1..];
      FindFirst(item, ',', more[1..]);
      assert (item + more)[..|item|] == item;
    } else {
      assert item + more == item;
    }
  }

  lemma ItemIsRead(r: Range)
    requires r.Fits()
    ensures var item := PortText(r);
      if r.dashed then Find(item, '-').Some?
        && var d := Find(item, '-').value;
        && item[..d] == Print(r.lo) && item[d + 1..] == Print(r.hi)
        && IsDigital(item[..d]) && IsDigital(item[d + 1..]) && Atoi(item[..d]) == r.lo && Atoi(item[d + 1..]) == r.hi
      else Find(item, '-') == None && IsDigital(item) && Atoi(item) == r.hi
  {
    hide Print, IsDigital, Atoi, Find;
    var item := PortText(r);
    PrintIsRead(r.lo);
    PrintIsRead(r.hi);
    NoneOf(Print(r.lo), '-');
    NoneOf(Print(r.hi), '-');
    if r.dashed {
      assert item == Print(r.lo) + ['-'] + Print(r.hi);
      FindFirst(Print(r.lo), '-', Print(r.hi));
    } else {
      assert item == Print(r.hi);
    }
  }

  // Whatever list of ranges is printed, the parser gives its meaning, refusals and the endless loop
  // included.
  lemma {:induction false} JoinIsRead(m: Map, rs: seq<Range>, last: nat, acc: Ports)
    requires forall i | 0 <= i < |rs| :: rs[i].Fits()
    ensures Parse(m, Join(rs), last, acc) == Meaning(m, rs, last, acc)
    decreases |rs|
  {
    hide ReadRange, Rest, Takes, Text, PortsOf;
    if rs != [] {
      var more := if |rs| == 1 then "" else "," + Join(rs[1..]);
      assert Join(rs) == Text(rs[0]) + more;
      TextIsRead(rs[0], more);
      ParseUnfold(m, Join(rs), last, acc);
      if Takes(m, rs[0], last) && rs[0].hi != LAST16 {
        TakesSlot(m, rs[0], last);
        JoinIsRead(m, rs[1..], rs[0].hi, acc + PortsOf(m, rs[0]));
        assert |rs| > 1 ==> more[1..] == Join(rs[1..]);
      }
    }
  }

  lemma TakesSlot(m: Map, r: Range, last: nat)
    requires r.Fits() && Takes(m, r, last)
    ensures r.slot in m.base
  {
  }

  // ---------- The printer ----------

  // The maximal runs of the bits below n, in ascending order.
  function Runs(slot: nat, ports: Ports, n: nat): (rs: seq<Range>)
    ensures forall i | 0 <= i < |rs| :: rs[i].slot == slot && rs[i].lo <= rs[i].hi < n
    ensures forall i | 0 <= i < |rs| :: rs[i].dashed == (rs[i].lo != rs[i].hi)
  {
    if n == 0 then []
    else
      var rs := Runs(slot, ports, n - 1);
      if n - 1 !in ports then rs
      else if rs != [] && rs[|rs| - 1].hi == n - 2 then
        rs[..|rs| - 1] + [Range(slot, rs[|rs| - 1].lo, n - 1, true)]
      else rs + [Range(slot, n - 1, n - 1, false)]
  }

  // Every range followed by a comma.
  function Listed(rs: seq<Range>): string {
    if rs == [] then "" else Listed(rs[..|rs| - 1]) + Text(rs[|rs| - 1]) + ","
  }

  lemma {:induction false} ListedFront(r: Range, rs: seq<Range>)
    ensures Listed([r] + rs) == Text(r) + "," + Listed(rs)
    decreases |rs|
  {
    hide Text;
    if rs == [] {
      assert [r] + rs == [r];
      assert Listed([r]) == Listed([]) + Text(r) + ",";
    } else {
      ListedFront(r, rs[..|rs| - 1]);
      assert ([r] + rs)[..|rs|] == [r] + rs[..|rs| - 1];
    }
  }

  // Without the last comma the list is joined.
  lemma {:induction false} ListedIsJoin(rs: seq<Range>)
    requires rs != []
    ensures Listed(rs) == Join(rs) + ","
  {
    hide Text;
    ListedFront(rs[0], rs[1..]);
    assert rs == [rs[0]] + rs[1..];
    if |rs| > 1 {
      ListedIsJoin(rs[1..]);
    }
  }

  // The text of the last run, from start to end, with its comma.
  method PutRun(slot: nat, start: nat, end: nat, out: string, ghost rs: seq<Range>) returns (s: string)
    requires rs != [] && rs[|rs| - 1] == Range(slot, start, end, start != end) && out == Listed(rs[..|rs| - 1])
    ensures s == Listed(rs)
  {
    hide Text, Print, Listed;
    TextOfRun(slot, start, end);
    ListedLast(rs);
    if start == end {
      s := out + (Print(slot) + "/" + Print(start)) + ",";
    } else {
      s := out + (Print(slot) + "/" + (Print(start) + "-" + Print(end))) + ",";
    }
  }

  lemma TextOfRun(slot: nat, start: nat, end: nat)
    ensures Text(Range(slot, start, end, false)) == Print(slot) + "/" + Print(end)
    ensures Text(Range(slot, start, end, true)) == Print(slot) + "/" + (Print(start) + "-" + Print(end))
  {
    hide Print;
    assert "" + Print(end) == Print(end);
  }

  lemma ListedLast(rs: seq<Range>)
    requires rs != []
    ensures Listed(rs) == Listed(rs[..|rs| - 1]) + Text(rs[|rs| - 1]) + ","
  {
  }

  // slot_pbmp_to_str: with no bit set the buffer is not written.
  method SlotPbmpToStr(slot: nat, pbmp: Ports, buffer: string) returns (str: string)
    ensures var rs := Runs(slot, pbmp, BITS);
      str == if rs == [] then buffer else Join(rs)
  {
    hide Text, Print, Runs;
    var out := "";
    var begin, start, end := false, 0, 0;
    NoRuns(slot, pbmp);
    for port := 0 to BITS
      invariant var rs := Runs(slot, pbmp, port);
        && begin == (rs != [])
        && (begin ==> out == Listed(rs[..|rs| - 1]) && rs[|rs| - 1].lo == start && rs[|rs| - 1].hi == end)
        && (!begin ==> out == "")
    {
      RunsStep(slot, pbmp, port);
      if port in pbmp {
        if !begin {
          start, end, begin := port, port, true;
        } else if port == end + 1 {
          end := port;
        } else {
          out := PutRun(slot, start, end, out, Runs(slot, pbmp, port));
          start, end := port, port;
          assert Runs(slot, pbmp, port + 1)[..|Runs(slot, pbmp, port)|] == Runs(slot, pbmp, port);
        }
      }
    }
    if !begin {
      return buffer;
    }
    out := PutRun(slot, start, end, out, Runs(slot, pbmp, BITS));
    ListedIsJoin(Runs(slot, pbmp, BITS));
    str := out[..|out| - 1];
  }

  lemma NoRuns(slot: nat, ports: Ports)
    ensures Runs(slot, ports, 0) == []
  {
  }

  // What one more port does to the runs.
  lemma RunsStep(slot: nat, ports: Ports, n: nat)
    ensures var rs, next, one := Runs(slot, ports, n), Runs(slot, ports, n + 1), Range(slot, n, n, false);
      if n !in ports then next == rs
      else if rs == [] then next == [one]
      else if rs[|rs| - 1].hi + 1 == n then next == rs[..|rs| - 1] + [Range(slot, rs[|rs| - 1].lo, n, true)]
      else next == rs + [one]
  {
  }

  // ---------- Printing and parsing ----------

  ghost predicate Covered(rs: seq<Range>, p: nat) {
    exists i :: 0 <= i < |rs| && rs[i].lo <= p <= rs[i].hi
  }

  lemma CoveredLast(rs: seq<Range>, r: Range, p: nat)
    ensures Covered(rs + [r], p) <==> Covered(rs, p) || r.lo <= p <= r.hi
  {
    var all := rs + [r];
    if Covered(rs, p) {
      var i :| 0 <= i < |rs| && rs[i].lo <= p <= rs[i].hi;
      assert all[i].lo <= p <= all[i].hi;
    }
    assert all[|rs|] == r;
    if Covered(all, p) {
      var i :| 0 <= i < |all| && all[i].lo <= p <= all[i].hi;
      assert i < |rs| ==> rs[i] == all[i];
    }
  }

  // The runs hold exactly the bits.
  lemma {:induction false} RunsCover(slot: nat, ports: Ports, n: nat, p: nat)
    ensures Covered(Runs(slot, ports, n), p) <==> p in ports && p < n
  {
    hide Covered, Runs;
    if n == 0 {
      NoRuns(slot, ports);
      NotCovered(p);
    } else {
      var was := Runs(slot, ports, n - 1);
      RunsCover(slot, ports, n - 1, p);
      RunsStep(slot, ports, n - 1);
      if n - 1 in ports {
        if was != [] && was[|was| - 1].hi + 1 == n - 1 {
          var front, last := was[..|was| - 1], was[|was| - 1];
          assert was == front + [last];
          CoveredLast(front, last, p);
          CoveredLast(front, Range(slot, last.lo, n - 1, true), p);
        } else {
          CoveredLast(was, Range(slot, n - 1, n - 1, false), p);
          assert [] + [Range(slot, n - 1, n - 1, false)] == [Range(slot, n - 1, n - 1, false)];
        }
      }
    }
  }

  lemma NotCovered(p: nat)
    ensures !Covered([], p)
  {
  }

  predicate Ascending(rs: seq<Range>) {
    forall i, j | 0 <= i < j < |rs| :: rs[i].hi + 1 < rs[j].lo
  }

  lemma {:induction false} RunsAscend(slot: nat, ports: Ports, n: nat)
    ensures Ascending(Runs(slot, ports, n))
  {
    hide Runs;
    if n == 0 {
      NoRuns(slot, ports);
    } else {
      RunsAscend(slot, ports, n - 1);
      RunsStep(slot, ports, n - 1);
    }
  }

  ghost predicate EndsKnown(m: Map, rs: seq<Range>) {
    forall i | 0 <= i < |rs| :: rs[i].Fits() && Known(m, rs[i].slot, rs[i].lo) && Known(m, rs[i].slot, rs[i].hi)
  }

  // An ascending list over one slot is taken exactly when all its ends are ports.
  lemma {:induction false} AscendingMeaning(m: Map, slot: nat, rs: seq<Range>, last: nat, acc: Ports)
    requires Ascending(rs) && m.minSlot <= slot <= m.maxSlot
    requires forall i | 0 <= i < |rs| :: rs[i].Fits() && rs[i].slot == slot && last < rs[i].lo <= rs[i].hi < LAST16
    ensures Meaning(m, rs, last, acc) != Endless
    ensures Meaning(m, rs, last, acc).Taken? <==> EndsKnown(m, rs)
    ensures Meaning(m, rs, last, acc).Taken? ==>
      forall q :: q in Meaning(m, rs, last, acc).ports <==>
        q in acc || (rs != [] && slot in m.base && q >= m.base[slot] && Covered(rs, q - m.base[slot]))
    decreases |rs|
  {
    hide Known;
    if rs != [] {
      if Takes(m, rs[0], last) {
        KnownSlot(m, slot, rs[0].hi);
        var rest, acc' := rs[1..], acc + PortsOf(m, rs[0]);
        assert forall i | 0 <= i < |rest| :: rest[i] == rs[i + 1];
        AscendingMeaning(m, slot, rest, rs[0].hi, acc');
        assert EndsKnown(m, rs) <==> EndsKnown(m, rest);
        forall p: nat ensures Covered(rs, p) <==> rs[0].lo <= p <= rs[0].hi || Covered(rest, p) {
          CoveredFirst(rs, p);
        }
      } else {
        assert !EndsKnown(m, rs);
      }
    }
  }

  lemma CoveredFirst(rs: seq<Range>, p: nat)
    requires rs != []
    ensures Covered(rs, p) <==> rs[0].lo <= p <= rs[0].hi || Covered(rs[1..], p)
  {
    if Covered(rs[1..], p) {
      var i :| 0 <= i < |rs[1..]| && rs[1..][i].lo <= p <= rs[1..][i].hi;
      assert rs[i + 1].lo <= p <= rs[i + 1].hi;
    }
    if Covered(rs, p) {
      var i :| 0 <= i < |rs| && rs[i].lo <= p <= rs[i].hi;
      assert i > 0 ==> rs[1..][i - 1] == rs[i];
    }
  }

  lemma {:induction false} JoinIsAllowed(rs: seq<Range>)
    ensures Allowed(Join(rs))
  {
    if rs != [] {
      var t := Text(rs[0]);
      assert Allowed(t);
      if |rs| > 1 {
        JoinIsAllowed(rs[1..]);
      }
    }
  }

  lemma RunsOfSet(slot: nat, ports: Ports)
    requires ports != {} && forall p | p in ports :: 1 <= p < BITS
    ensures var rs := Runs(slot, ports, BITS);
      && rs != [] && Ascending(rs)
      && (forall p: nat :: Covered(rs, p) <==> p in ports)
      && (forall i | 0 <= i < |rs| :: 0 < rs[i].lo)
  {
    hide Runs;
    var rs := Runs(slot, ports, BITS);
    RunsAscend(slot, ports, BITS);
    forall p: nat ensures Covered(rs, p) <==> p in ports {
      RunsCover(slot, ports, BITS, p);
    }
    var some :| some in ports;
    assert Covered(rs, some);
    forall i | 0 <= i < |rs| ensures 0 < rs[i].lo {
      assert Covered(rs, rs[i].lo);
    }
  }

  function Shifted(ports: Ports, base: nat): Ports {
    set p | p in ports :: p + base
  }

  lemma ShiftedMeans(ports: Ports, base: nat, got: Ports)
    requires forall q :: q in got <==> q >= base && q - base in ports
    ensures got == Shifted(ports, base)
  {
    forall q: nat ensures q in got <==> q in Shifted(ports, base) {
      if q >= base {
        assert q - base in ports ==> (q - base) + base in Shifted(ports, base);
      }
    }
  }

  // A printed set of ports from 1 up is read back, shifted by the base of its slot, exactly when
  // the ends of its runs are ports; otherwise it is refused.
  lemma PrintedIsRead(m: Map, slot: nat, ports: Ports)
    requires ports != {} && m.minSlot <= slot <= m.maxSlot < TWO16
    requires forall p | p in ports :: 1 <= p < BITS
    ensures var rs := Runs(slot, ports, BITS);
      && rs != []
      && (EndsKnown(m, rs) ==> slot in m.base)
      && ParseText(m, Join(rs)) == if EndsKnown(m, rs) then Taken(Shifted(ports, m.base[slot])) else Refused
  {
    hide Known, Parse, Join, Runs, Meaning, Covered, Allowed, Shifted;
    var rs := Runs(slot, ports, BITS);
    RunsOfSet(slot, ports);
    JoinIsAllowed(rs);
    JoinIsRead(m, rs, 0, {});
    AscendingMeaning(m, slot, rs, 0, {});
    if EndsKnown(m, rs) {
      KnownSlot(m, slot, rs[0].hi);
      ShiftedMeans(ports, m.base[slot], Meaning(m, rs, 0, {}).ports);
    }
  }
}
