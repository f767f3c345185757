/** The numbering of panel ports in if_common.c: every slot and interface type gets a base, and a
    port's logical number is that base plus its panel number. */
module PortMap {
  import opened Bitmaps
  import opened Common

  datatype Port = Port(kind: nat, slot: nat, port: nat)

  // One line of the slot table.
  datatype SlotInfo = SlotInfo(slot: nat, kind: nat, ports: set<nat>, portMin: nat, portMax: nat, count: nat, base: nat)

  // The slots and interface types that exist on any product.
  datatype Limits = Limits(minSlot: nat, maxSlot: nat, minKind: nat, maxKind: nat) {
    predicate Knows(p: Port) {
      minKind <= p.kind <= maxKind && minSlot <= p.slot <= maxSlot
    }
  }

  predicate At(p: Port, slot: nat, kind: nat) {
    p.slot == slot && p.kind == kind
  }

  // How many ports a slot and type have.
  function Count(ports: seq<Port>, slot: nat, kind: nat): nat {
    if ports == [] then 0
    else Count(ports[..|ports| - 1], slot, kind) + if At(ports[|ports| - 1], slot, kind) then 1 else 0
  }

  // Panel ports are numbered from 1 to their count, each once.
  ghost predicate Numbered(ports: seq<Port>) {
    && (forall i, j | 0 <= i < j < |ports| :: ports[i] != ports[j])
    && (forall i | 0 <= i < |ports| :: 1 <= ports[i].port <= Count(ports, ports[i].slot, ports[i].kind))
    && (forall slot: nat, kind: nat, n: nat | 1 <= n <= Count(ports, slot, kind) :: Port(kind, slot, n) in ports)
  }

  function Slots(ports: seq<Port>): set<nat> {
    set p | p in ports :: p.slot
  }

  function Kinds(ports: seq<Port>): set<nat> {
    set p | p in ports :: p.kind
  }

  // ---------- What the tables mean ----------

  function Total(info: seq<SlotInfo>, n: nat): nat
    requires n <= |info|
  {
    if n == 0 then 0 else Total(info, n - 1) + info[n - 1].count
  }

  // The first n lines are in order and add up.
  ghost predicate Lines(info: seq<SlotInfo>, n: nat, ports: seq<Port>) {
    && n <= |info|
    && (forall i | 0 <= i < n ::
          info[i].base == Total(info, i) && info[i].count == Count(ports, info[i].slot, info[i].kind))
    && (forall i, j | 0 <= i < j < n :: info[i].slot != info[j].slot || info[i].kind != info[j].kind)
    && (forall i | 0 <= i < n :: forall q :: q in info[i].ports <==> info[i].base < q <= info[i].base + info[i].count)
  }

  // The panel ports of a line run from 1 to their count.
  ghost predicate Ranges(info: seq<SlotInfo>, n: nat)
    requires n <= |info|
  {
    forall i | 0 <= i < n ::
      info[i].portMin == (if info[i].count == 0 then 0 else 1) && info[i].portMax == info[i].count
  }

  // Logical port q is the port of one of the first n lines with that number.
  ghost predicate Placed(conf: seq<Option<Port>>, info: seq<SlotInfo>, n: nat)
    requires n <= |info|
  {
    forall i, c: nat | 0 <= i < n && 1 <= c <= info[i].count :: PortAt(conf, info[i], c)
  }

  predicate PortAt(conf: seq<Option<Port>>, line: SlotInfo, c: nat) {
    line.base + c < |conf| && conf[line.base + c] == Some(Port(line.kind, line.slot, c))
  }

  // Nothing else is valid.
  ghost predicate Free(conf: seq<Option<Port>>, from: nat) {
    conf != [] && conf[0] == None && forall q | from < q < |conf| :: conf[q] == None
  }

  // By slot, and by type within a slot.
  ghost predicate InOrder(info: seq<SlotInfo>, n: nat)
    requires n <= |info|
  {
    forall i, j | 0 <= i < j < n ::
      info[i].slot < info[j].slot || (info[i].slot == info[j].slot && info[i].kind < info[j].kind)
  }

  ghost predicate Built(conf: seq<Option<Port>>, info: seq<SlotInfo>, ports: seq<Port>) {
    && Lines(info, |info|, ports) && Ranges(info, |info|)
    && Placed(conf, info, |info|) && Free(conf, Total(info, |info|))
    && (forall p | p in ports :: exists i :: 0 <= i < |info| && At(p, info[i].slot, info[i].kind))
  }

  // ---------- Lookups ----------

  // get_if_idx_by_type_slot.
  function Index(info: seq<SlotInfo>, kind: nat, slot: nat): (r: Option<nat>)
    ensures r.Some? ==> r.value < |info| && info[r.value].kind == kind && info[r.value].slot == slot
    ensures r.None? ==> forall i | 0 <= i < |info| :: info[i].kind != kind || info[i].slot != slot
  {
    IndexFrom(info, kind, slot, 0)
  }

  function IndexFrom(info: seq<SlotInfo>, kind: nat, slot: nat, i: nat): (r: Option<nat>)
    requires i <= |info|
    ensures r.Some? ==> i <= r.value < |info| && info[r.value].kind == kind && info[r.value].slot == slot
    ensures r.None? ==> forall j | i <= j < |info| :: info[j].kind != kind || info[j].slot != slot
    decreases |info| - i
  {
    if i == |info| then None
    else if info[i].kind == kind && info[i].slot == slot then Some(i)
    else IndexFrom(info, kind, slot, i + 1)
  }

  // get_logical_port_number.
  function Logical(conf: seq<Option<Port>>, info: seq<SlotInfo>, kind: nat, slot: nat, port: int): Option<nat> {
    match Index(info, kind, slot)
    case None => None
    case Some(i) =>
      var q := info[i].base + port;
      if 0 <= q < |conf| && conf[q].Some? then Some(q) else None
  }

  // get_panel_port_number.
  function Panel(conf: seq<Option<Port>>, q: int): Option<Port> {
    if 0 <= q < |conf| then conf[q] else None
  }

  // ---------- Properties of built tables ----------

  lemma {:induction false} TotalGrows(info: seq<SlotInfo>, i: nat, j: nat)
    requires i <= j <= |info|
    ensures Total(info, i) <= Total(info, j)
    ensures i < j ==> Total(info, i) + info[i].count <= Total(info, j)
  {
    if i < j {
      TotalGrows(info, i, j - 1);
    }
  }

  lemma LineFacts(info: seq<SlotInfo>, n: nat, ports: seq<Port>, i: nat)
    requires Lines(info, n, ports) && i < n
    ensures n <= |info|
    ensures info[i].base == Total(info, i) && info[i].count == Count(ports, info[i].slot, info[i].kind)
    ensures Total(info, i) + info[i].count <= Total(info, n)
    ensures forall q :: q in info[i].ports <==> info[i].base < q <= info[i].base + info[i].count
  {
    TotalGrows(info, i, n);
  }

  lemma LinesBefore(info: seq<SlotInfo>, n: nat, ports: seq<Port>)
    requires Lines(info, n + 1, ports)
    ensures Lines(info, n, ports)
  {
    hide Count, Total;
  }

  // The line whose ports hold q.
  lemma {:induction false} LineOf(info: seq<SlotInfo>, n: nat, ports: seq<Port>, q: nat) returns (i: nat)
    requires Lines(info, n, ports) && 1 <= q <= Total(info, n)
    ensures i < n && info[i].base < q <= info[i].base + info[i].count
  {
    hide Lines;
    LineFacts(info, n, ports, n - 1);
    LinesBefore(info, n - 1, ports);
    if q > Total(info, n - 1) {
      i := n - 1;
    } else {
      i := LineOf(info, n - 1, ports, q);
    }
  }

  lemma OneLine(info: seq<SlotInfo>, n: nat, ports: seq<Port>, i: nat, j: nat)
    requires Lines(info, n, ports) && i < n && j < n && info[i].slot == info[j].slot && info[i].kind == info[j].kind
    ensures i == j
  {
  }

  // The numbers that are valid, and what each one names.
  lemma NumberNames(conf: seq<Option<Port>>, info: seq<SlotInfo>, ports: seq<Port>, q: nat) returns (i: nat)
    requires Built(conf, info, ports)
    ensures Panel(conf, q).Some? <==> 1 <= q <= Total(info, |info|)
    ensures Panel(conf, q).Some? ==> i < |info| && info[i].base < q <= info[i].base + info[i].count
    ensures Panel(conf, q).Some? ==> Panel(conf, q) == Some(Port(info[i].kind, info[i].slot, q - info[i].base))
  {
    hide Total, Lines;
    i := 0;
    if 1 <= q <= Total(info, |info|) {
      i := LineOf(info, |info|, ports, q);
      assert PortAt(conf, info[i], q - info[i].base);
    }
  }

  lemma NamedPort(conf: seq<Option<Port>>, info: seq<SlotInfo>, ports: seq<Port>, i: nat, c: nat)
    requires Built(conf, info, ports) && i < |info| && 1 <= c <= info[i].count
    ensures Panel(conf, info[i].base + c) == Some(Port(info[i].kind, info[i].slot, c))
  {
    hide Total, Lines, Free;
    assert PortAt(conf, info[i], c);
  }

  lemma BuiltHas(conf: seq<Option<Port>>, info: seq<SlotInfo>, ports: seq<Port>, p: Port)
    requires Built(conf, info, ports) && p in ports
    ensures Lines(info, |info|, ports) && Index(info, p.kind, p.slot).Some?
  {
    hide Lines, Placed, Free;
  }

  lemma NumberedPort(ports: seq<Port>, p: Port)
    requires Numbered(ports)
    ensures p in ports <==> 1 <= p.port <= Count(ports, p.slot, p.kind)
  {
    hide Count;
    assert p == Port(p.kind, p.slot, p.port);
  }

  // A port of the product has a number, and the number names the port.
  lemma PortHasNumber(conf: seq<Option<Port>>, info: seq<SlotInfo>, ports: seq<Port>, p: Port)
    requires Built(conf, info, ports) && Numbered(ports) && p in ports
    ensures Logical(conf, info, p.kind, p.slot, p.port).Some?
    ensures Panel(conf, Logical(conf, info, p.kind, p.slot, p.port).value) == Some(p)
  {
    hide Built, Numbered, Lines, Index, Count;
    BuiltHas(conf, info, ports, p);
    var i := Index(info, p.kind, p.slot).value;
    LineFacts(info, |info|, ports, i);
    NumberedPort(ports, p);
    NamedPort(conf, info, ports, i, p.port);
  }

  // A valid number names a port of the product, and that port has this number.
  lemma NumberHasPort(conf: seq<Option<Port>>, info: seq<SlotInfo>, ports: seq<Port>, q: nat)
    requires Built(conf, info, ports) && Numbered(ports) && Panel(conf, q).Some?
    ensures var p := Panel(conf, q).value;
      p in ports && Logical(conf, info, p.kind, p.slot, p.port) == Some(q)
  {
    hide Built, Numbered, Lines, Index, Count, Total;
    var i := NumberNames(conf, info, ports, q);
    BuiltLines(conf, info, ports);
    LineFacts(info, |info|, ports, i);
    NumberedPort(ports, Panel(conf, q).value);
    OneLine(info, |info|, ports, i, Index(info, info[i].kind, info[i].slot).value);
  }

  // Logical numbers go up with the slot, within a slot with the type, and within both with the panel
  // number.
  lemma NumbersAscend(conf: seq<Option<Port>>, info: seq<SlotInfo>, ports: seq<Port>, a: nat, b: nat)
    requires Built(conf, info, ports) && InOrder(info, |info|)
    requires a < b && Panel(conf, a).Some? && Panel(conf, b).Some?
    ensures var p, r := Panel(conf, a).value, Panel(conf, b).value;
      p.slot < r.slot || (p.slot == r.slot && (p.kind < r.kind || (p.kind == r.kind && p.port < r.port)))
  {
    hide Built, Lines, Total, Panel;
    BuiltLines(conf, info, ports);
    var i := NumberNames(conf, info, ports, a);
    var j := NumberNames(conf, info, ports, b);
    LineFacts(info, |info|, ports, i);
    LineFacts(info, |info|, ports, j);
    if j < i {
      TotalGrows(info, j, i);
    }
  }

  // Every port of the product between the limits has a number that names it, and no other has one.
  lemma ProductHasNumbers(limits: Limits, conf: seq<Option<Port>>, info: seq<SlotInfo>, ports: seq<Port>, p: Port)
    requires Built(conf, info, Kept(limits, ports)) && Numbered(Kept(limits, ports))
    ensures (exists q: nat :: Panel(conf, q) == Some(p)) <==>
      && p in ports
      && limits.minKind <= p.kind <= limits.maxKind && limits.minSlot <= p.slot <= limits.maxSlot
  {
    hide Built, Numbered, Logical, Kept;
    KeptExactly(limits, ports, p);
    if p in Kept(limits, ports) {
      PortHasNumber(conf, info, Kept(limits, ports), p);
    }
    forall q: nat | Panel(conf, q) == Some(p) ensures p in Kept(limits, ports) {
      NumberHasPort(conf, info, Kept(limits, ports), q);
    }
  }

  lemma BuiltLines(conf: seq<Option<Port>>, info: seq<SlotInfo>, ports: seq<Port>)
    requires Built(conf, info, ports)
    ensures Lines(info, |info|, ports)
  {
    hide Lines, Placed, Free;
  }

  // Any panel number is taken whose sum with the base is valid; it names the port asked for exactly
  // when it is one of the numbers of that slot and type.
  lemma LogicalIsRightExactly(conf: seq<Option<Port>>, info: seq<SlotInfo>, ports: seq<Port>,
                              kind: nat, slot: nat, port: int)
    requires Built(conf, info, ports) && Index(info, kind, slot).Some?
    ensures var r := Logical(conf, info, kind, slot, port);
      && (r.Some? <==> 1 <= info[Index(info, kind, slot).value].base + port <= Total(info, |info|))
      && (1 <= port <= Count(ports, slot, kind) <==>
           r.Some? && port >= 0 && Panel(conf, r.value) == Some(Port(kind, slot, port)))
  {
    hide Built, Lines, Index, Count;
    var i := Index(info, kind, slot).value;
    var q := info[i].base + port;
    BuiltLines(conf, info, ports);
    LineFacts(info, |info|, ports, i);
    if q >= 0 {
      var k := NumberNames(conf, info, ports, q);
    }
    if 1 <= port <= info[i].count {
      NamedPort(conf, info, ports, i, port);
    } else if q >= 0 && port >= 0 {
      var k := NumberNames(conf, info, ports, q);
      if Panel(conf, q) == Some(Port(kind, slot, port)) {
        OneLine(info, |info|, ports, i, k);
      }
    }
  }

  // The bitmaps of the lines are disjoint and together hold the valid numbers.
  lemma BitmapsPartition(conf: seq<Option<Port>>, info: seq<SlotInfo>, ports: seq<Port>)
    requires Built(conf, info, ports)
    ensures forall q: nat :: Panel(conf, q).Some? <==> InSomeLine(info, q)
    ensures forall i, j | 0 <= i < j < |info| :: info[i].ports !! info[j].ports
  {
    hide Built, Lines, Panel, Total;
    BuiltLines(conf, info, ports);
    forall q: nat ensures Panel(conf, q).Some? <==> InSomeLine(info, q) {
      var i := NumberNames(conf, info, ports, q);
      if Panel(conf, q).Some? {
        LineFacts(info, |info|, ports, i);
        assert q in info[i].ports;
      }
      if InSomeLine(info, q) {
        var k :| 0 <= k < |info| && q in info[k].ports;
        LineFacts(info, |info|, ports, k);
        NamedPort(conf, info, ports, k, q - info[k].base);
      }
    }
    forall i, j | 0 <= i < j < |info| ensures info[i].ports !! info[j].ports {
      LineFacts(info, |info|, ports, i);
      LineFacts(info, |info|, ports, j);
      TotalGrows(info, i, j);
    }
  }

  ghost predicate InSomeLine(info: seq<SlotInfo>, q: nat) {
    exists i :: 0 <= i < |info| && q in info[i].ports
  }

  // The bitmaps of all lines are 32-bit words exactly when all logical numbers are below 32.
  lemma BitmapsAreWordsExactly(conf: seq<Option<Port>>, info: seq<SlotInfo>, ports: seq<Port>)
    requires Built(conf, info, ports)
    ensures (forall i | 0 <= i < |info| :: Word(info[i].ports).Some?)
      <==> forall q: nat :: Panel(conf, q).Some? ==> q < BITS
  {
    hide Built, Panel;
    BitmapsPartition(conf, info, ports);
    if forall i | 0 <= i < |info| :: Word(info[i].ports).Some? {
      forall q: nat | Panel(conf, q).Some? ensures q < BITS {
        assert InSomeLine(info, q);
      }
    }
    if forall q: nat :: Panel(conf, q).Some? ==> q < BITS {
      forall i | 0 <= i < |info| ensures Word(info[i].ports).Some? {
        forall q | q in info[i].ports ensures q < BITS {
          assert InSomeLine(info, q);
        }
      }
    }
  }

  // Two slots with one port each.
  const TWO_PORTS: seq<Port> := [Port(1, 1, 1), Port(1, 2, 1)]
  const TWO_CONF: seq<Option<Port>> := [None, Some(Port(1, 1, 1)), Some(Port(1, 2, 1))]
  const TWO_INFO: seq<SlotInfo> := [SlotInfo(1, 1, {1}, 1, 1, 1, 0), SlotInfo(2, 1, {2}, 1, 1, 1, 1)]

  // Panel port 2 of slot 1 is not refused, it is port 1 of slot 2.
  lemma OtherSlotsPort()
    ensures Built(TWO_CONF, TWO_INFO, TWO_PORTS) && Numbered(TWO_PORTS)
    ensures Logical(TWO_CONF, TWO_INFO, 1, 1, 2) == Some(2) && Panel(TWO_CONF, 2) == Some(Port(1, 2, 1))
  {
    hide Lines, Count;
    TwoLines();
    TwoNumbered();
    assert Total(TWO_INFO, 1) == 1 && Total(TWO_INFO, 2) == 2;
    assert At(TWO_PORTS[0], TWO_INFO[0].slot, TWO_INFO[0].kind) && At(TWO_PORTS[1], TWO_INFO[1].slot, TWO_INFO[1].kind);
  }

  lemma TwoLines()
    ensures Lines(TWO_INFO, 2, TWO_PORTS)
  {
    hide Count;
    TwoCounted(TWO_PORTS[0], TWO_PORTS[1]);
    assert TWO_PORTS == [TWO_PORTS[0], TWO_PORTS[1]];
    assert Total(TWO_INFO, 0) == 0 && Total(TWO_INFO, 1) == 1;
  }

  lemma TwoNumbered()
    ensures Numbered(TWO_PORTS)
  {
    hide Count;
    TwoCounted(TWO_PORTS[0], TWO_PORTS[1]);
    assert TWO_PORTS == [TWO_PORTS[0], TWO_PORTS[1]];
    assert TWO_PORTS[0] in TWO_PORTS && TWO_PORTS[1] in TWO_PORTS;
  }

  lemma TwoCounted(p: Port, q: Port)
    ensures forall slot: nat, kind: nat ::
      Count([p, q], slot, kind) == (if At(p, slot, kind) then 1 else 0) + (if At(q, slot, kind) then 1 else 0)
  {
    hide Count;
    forall slot: nat, kind: nat
      ensures Count([p, q], slot, kind) == (if At(p, slot, kind) then 1 else 0) + if At(q, slot, kind) then 1 else 0
    {
      assert [] + [p] == [p] && [p] + [q] == [p, q];
      NoneCounted(slot, kind);
      CountOne([], slot, kind, p);
      CountOne([p], slot, kind, q);
    }
  }

  // ---------- Building the tables ----------

  // The ports with a known slot and type, in order; the others are passed over.
  function Kept(limits: Limits, ports: seq<Port>): seq<Port> {
    if ports == [] then []
    else Kept(limits, ports[..|ports| - 1]) + if limits.Knows(ports[|ports| - 1]) then [ports[|ports| - 1]] else []
  }

  // The ports whose slot and type lie between the limits, which are included.
  lemma {:induction false} KeptExactly(limits: Limits, ports: seq<Port>, p: Port)
    ensures p in Kept(limits, ports) <==>
      && p in ports
      && limits.minKind <= p.kind <= limits.maxKind && limits.minSlot <= p.slot <= limits.maxSlot
  {
    if ports != [] {
      var front := ports[..|ports| - 1];
      assert ports == front + [ports[|ports| - 1]];
      KeptExactly(limits, front, p);
    }
  }

  lemma {:induction false} KeptAll(limits: Limits, ports: seq<Port>)
    requires forall p | p in ports ::
      limits.minKind <= p.kind <= limits.maxKind && limits.minSlot <= p.slot <= limits.maxSlot
    ensures Kept(limits, ports) == ports
  {
    if ports != [] {
      var front := ports[..|ports| - 1];
      assert ports == front + [ports[|ports| - 1]];
      KeptAll(limits, front);
    }
  }

  lemma KeptStep(limits: Limits, ports: seq<Port>, j: nat)
    requires j < |ports|
    ensures Kept(limits, ports[..j + 1]) ==
      if limits.Knows(ports[j]) then Kept(limits, ports[..j]) + [ports[j]] else Kept(limits, ports[..j])
  {
    assert ports[..j + 1][..j] == ports[..j];
  }

  lemma {:induction false} KeptPrefix(limits: Limits, ports: seq<Port>, j: nat)
    requires j <= |ports|
    ensures Kept(limits, ports[..j]) <= Kept(limits, ports)
    decreases |ports| - j
  {
    if j == |ports| {
      assert ports[..j] == ports;
    } else {
      KeptStep(limits, ports, j);
      KeptPrefix(limits, ports, j + 1);
    }
  }

  lemma KeptIsNew(limits: Limits, ports: seq<Port>, j: nat)
    requires j < |ports| && limits.Knows(ports[j]) && Numbered(Kept(limits, ports))
    ensures ports[j] !in Kept(limits, ports[..j]) && ports[j] in Kept(limits, ports)
  {
    var ks, done := Kept(limits, ports), Kept(limits, ports[..j]);
    KeptStep(limits, ports, j);
    KeptPrefix(limits, ports, j + 1);
    assert ks[|done|] == ports[j] && ks[..|done|] == done;
    assert forall i | 0 <= i < |done| :: ks[i] != ks[|done|];
  }

  predicate HoldsPort(conf: seq<Option<Port>>, base: nat, p: Port) {
    base + p.port < |conf| && conf[base + p.port] == Some(p)
  }

  // The ports of a slot and type are in place.
  ghost predicate InPlace(conf: seq<Option<Port>>, ports: seq<Port>, slot: nat, kind: nat, base: nat) {
    forall p | p in ports && At(p, slot, kind) :: HoldsPort(conf, base, p)
  }

  predicate FromList(conf: seq<Option<Port>>, ports: seq<Port>, slot: nat, kind: nat, base: nat, q: nat)
    requires q < |conf|
  {
    conf[q].Some? ==> conf[q].value in ports && At(conf[q].value, slot, kind) && base + conf[q].value.port == q
  }

  // Above the base there is nothing else.
  ghost predicate NothingElse(conf: seq<Option<Port>>, ports: seq<Port>, slot: nat, kind: nat, base: nat) {
    forall q: nat | base < q < |conf| :: FromList(conf, ports, slot, kind, base, q)
  }

  ghost predicate SameUpTo(conf: seq<Option<Port>>, was: seq<Option<Port>>, base: nat) {
    |conf| == |was| && forall q | 0 <= q <= base && q < |conf| :: conf[q] == was[q]
  }

  ghost predicate MarksValid(marks: set<nat>, conf: seq<Option<Port>>, base: nat) {
    forall q :: q in marks <==> base < q < |conf| && conf[q].Some?
  }

  // The least and the greatest panel port of a slot and type, or zeros.
  ghost predicate Extremes(ports: seq<Port>, slot: nat, kind: nat, lo: nat, hi: nat, count: nat) {
    && (forall p | p in ports && At(p, slot, kind) :: 1 <= lo <= p.port <= hi && count > 0)
    && (if count == 0 then lo == hi == 0 else Port(kind, slot, lo) in ports && Port(kind, slot, hi) in ports)
  }

  lemma InPlaceOne(conf: seq<Option<Port>>, done: seq<Port>, slot: nat, kind: nat, base: nat, p: Port)
    requires InPlace(conf, done, slot, kind, base) && NothingElse(conf, done, slot, kind, base)
    requires At(p, slot, kind) && p !in done && base + p.port < |conf| && 1 <= p.port
    ensures conf[base + p.port] == None
    ensures InPlace(conf[base + p.port := Some(p)], done + [p], slot, kind, base)
  {
    var now := conf[base + p.port := Some(p)];
    assert FromList(conf, done, slot, kind, base, base + p.port);
    forall r | r in done + [p] && At(r, slot, kind) ensures HoldsPort(now, base, r) {
      if r != p {
        assert HoldsPort(conf, base, r);
      }
    }
  }

  lemma NothingElseOne(conf: seq<Option<Port>>, done: seq<Port>, slot: nat, kind: nat, base: nat, p: Port)
    requires NothingElse(conf, done, slot, kind, base) && At(p, slot, kind)
    requires base + p.port < |conf| && 1 <= p.port
    ensures NothingElse(conf[base + p.port := Some(p)], done + [p], slot, kind, base)
  {
    var now := conf[base + p.port := Some(p)];
    forall q: nat | base < q < |now| ensures FromList(now, done + [p], slot, kind, base, q) {
      assert FromList(conf, done, slot, kind, base, q);
    }
  }

  lemma ExtremesOne(done: seq<Port>, slot: nat, kind: nat, lo: nat, hi: nat, count: nat, p: Port)
    requires Extremes(done, slot, kind, lo, hi, count) && At(p, slot, kind) && 1 <= p.port
    ensures var first := lo == 0 && hi == 0;
      Extremes(done + [p], slot, kind, if first || p.port < lo then p.port else lo,
               if first || p.port > hi then p.port else hi, count + 1)
  {
    if count > 0 {
      assert At(Port(kind, slot, lo), slot, kind);
    }
    assert p == Port(kind, slot, p.port);
  }

  lemma CountOne(done: seq<Port>, slot: nat, kind: nat, p: Port)
    ensures Count(done + [p], slot, kind) == Count(done, slot, kind) + if At(p, slot, kind) then 1 else 0
  {
    assert (done + [p])[..|done|] == done;
  }

  lemma AllInPlace(conf: seq<Option<Port>>, kept: seq<Port>, slot: nat, kind: nat, base: nat)
    requires Numbered(kept) && InPlace(conf, kept, slot, kind, base) && NothingElse(conf, kept, slot, kind, base)
    ensures forall c: nat | 1 <= c <= Count(kept, slot, kind) :: HoldsPort(conf, base, Port(kind, slot, c))
    ensures forall q: nat | base < q < |conf| :: conf[q].Some? <==> q <= base + Count(kept, slot, kind)
  {
    hide Count, Numbered;
    forall c: nat | 1 <= c <= Count(kept, slot, kind) ensures HoldsPort(conf, base, Port(kind, slot, c)) {
      NumberedPort(kept, Port(kind, slot, c));
    }
    forall q: nat | base < q < |conf| ensures conf[q].Some? <==> q <= base + Count(kept, slot, kind) {
      assert FromList(conf, kept, slot, kind, base, q);
      if conf[q].Some? {
        NumberedPort(kept, conf[q].value);
      }
      NumberedPort(kept, Port(kind, slot, q - base));
    }
  }

  lemma AllExtremes(kept: seq<Port>, slot: nat, kind: nat, lo: nat, hi: nat)
    requires Numbered(kept) && Extremes(kept, slot, kind, lo, hi, Count(kept, slot, kind))
    ensures lo == (if Count(kept, slot, kind) == 0 then 0 else 1) && hi == Count(kept, slot, kind)
  {
    hide Count, Numbered;
    if Count(kept, slot, kind) > 0 {
      NumberedPort(kept, Port(kind, slot, lo));
      NumberedPort(kept, Port(kind, slot, hi));
      NumberedPort(kept, Port(kind, slot, 1));
      NumberedPort(kept, Port(kind, slot, Count(kept, slot, kind)));
    }
  }

  // Ports of the slots and types that come before.
  function Before(ports: seq<Port>, slot: nat, kind: nat): (n: nat)
    ensures n <= |ports|
  {
    if ports == [] then 0
    else
      var p := ports[|ports| - 1];
      Before(ports[..|ports| - 1], slot, kind) + if p.slot < slot || (p.slot == slot && p.kind < kind) then 1 else 0
  }

  lemma {:induction false} BeforeNext(ports: seq<Port>, slot: nat, kind: nat)
    ensures Before(ports, slot, kind) + Count(ports, slot, kind) == Before(ports, slot, kind + 1)
  {
    if ports != [] {
      BeforeNext(ports[..|ports| - 1], slot, kind);
    }
  }

  lemma {:induction false} BeforeRow(ports: seq<Port>, slot: nat, lo: nat, hi: nat)
    requires forall p | p in ports :: lo <= p.kind <= hi
    ensures Before(ports, slot, hi + 1) == Before(ports, slot + 1, lo)
  {
    if ports != [] {
      assert ports[|ports| - 1] in ports;
      BeforeRow(ports[..|ports| - 1], slot, lo, hi);
    }
  }

  lemma {:induction false} BeforeFirst(ports: seq<Port>, slot: nat, kind: nat)
    requires forall p | p in ports :: slot <= p.slot && kind <= p.kind
    ensures Before(ports, slot, kind) == 0
  {
    if ports != [] {
      assert ports[|ports| - 1] in ports;
      BeforeFirst(ports[..|ports| - 1], slot, kind);
    }
  }

  lemma {:induction false} BeforeAll(ports: seq<Port>, slot: nat, kind: nat)
    requires forall p | p in ports :: p.slot < slot
    ensures Before(ports, slot, kind) == |ports|
  {
    if ports != [] {
      assert ports[|ports| - 1] in ports;
      BeforeAll(ports[..|ports| - 1], slot, kind);
    }
  }

  // The lines of all slots and types before (slot, kind) are done, as the first n.
  ghost predicate Ordered(info: seq<SlotInfo>, n: nat, slot: nat, kind: nat)
    requires n <= |info|
  {
    forall i | 0 <= i < n :: info[i].slot < slot || (info[i].slot == slot && info[i].kind < kind)
  }

  ghost predicate HasLine(info: seq<SlotInfo>, n: nat, slot: nat, kind: nat)
    requires n <= |info|
  {
    exists i :: 0 <= i < n && info[i].slot == slot && info[i].kind == kind
  }

  ghost predicate AllLines(info: seq<SlotInfo>, n: nat, minSlot: nat, minKind: nat, maxKind: nat, slot: nat, kind: nat)
    requires n <= |info|
  {
    forall s: nat, k: nat | minSlot <= s <= slot && minKind <= k <= maxKind && (s < slot || k < kind) ::
      HasLine(info, n, s, k)
  }

  ghost predicate Progress(conf: seq<Option<Port>>, info: seq<SlotInfo>, n: nat, kept: seq<Port>, base: nat,
                           slot: nat, kind: nat, minSlot: nat, minKind: nat, maxKind: nat) {
    && n <= |info| && Lines(info, n, kept) && Ranges(info, n) && Placed(conf, info, n) && Free(conf, base)
    && base == Total(info, n) == Before(kept, slot, kind)
    && Ordered(info, n, slot, kind) && AllLines(info, n, minSlot, minKind, maxKind, slot, kind) && InOrder(info, n)
  }

  lemma {:induction false} TotalSame(info: seq<SlotInfo>, other: seq<SlotInfo>, n: nat)
    requires n <= |info| && n <= |other| && info[..n] == other[..n]
    ensures Total(info, n) == Total(other, n)
  {
    if n > 0 {
      assert info[..n - 1] == info[..n][..n - 1] == other[..n][..n - 1] == other[..n - 1];
      assert info[n - 1] == info[..n][n - 1] == other[n - 1];
      TotalSame(info, other, n - 1);
    }
  }

  lemma LinesOne(info: seq<SlotInfo>, n: nat, kept: seq<Port>, line: SlotInfo)
    requires n < |info| && Lines(info, n, kept) && Ordered(info, n, line.slot, line.kind)
    requires line.base == Total(info, n) && line.count == Count(kept, line.slot, line.kind)
    requires forall q :: q in line.ports <==> line.base < q <= line.base + line.count
    ensures Lines(info[n := line], n + 1, kept) && Total(info[n := line], n + 1) == Total(info, n) + line.count
  {
    var now := info[n := line];
    forall i | 0 <= i <= n ensures Total(now, i) == Total(info, i) {
      assert now[..i] == info[..i];
      TotalSame(info, now, i);
    }
  }

  lemma PlacedOne(conf: seq<Option<Port>>, was: seq<Option<Port>>, info: seq<SlotInfo>, n: nat, kept: seq<Port>,
                  line: SlotInfo)
    requires n < |info| && Lines(info, n, kept) && Placed(was, info, n) && SameUpTo(conf, was, line.base)
    requires line.base == Total(info, n)
    requires forall c: nat | 1 <= c <= line.count :: HoldsPort(conf, line.base, Port(line.kind, line.slot, c))
    ensures Placed(conf, info[n := line], n + 1)
  {
    hide Lines, Total, SameUpTo, HoldsPort;
    var now, next := info[n := line], n + 1;
    forall i, c: nat | 0 <= i < next && 1 <= c <= now[i].count ensures PortAt(conf, now[i], c) {
      if i < n {
        LineFacts(info, n, kept, i);
        KeptBelow(conf, was, line.base, info[i], c);
      } else {
        NewPort(conf, line, c);
      }
    }
  }

  lemma KeptBelow(conf: seq<Option<Port>>, was: seq<Option<Port>>, base: nat, line: SlotInfo, c: nat)
    requires SameUpTo(conf, was, base) && PortAt(was, line, c) && line.base + c <= base
    ensures PortAt(conf, line, c)
  {
  }

  lemma NewPort(conf: seq<Option<Port>>, line: SlotInfo, c: nat)
    requires HoldsPort(conf, line.base, Port(line.kind, line.slot, c))
    ensures PortAt(conf, line, c)
  {
  }

  lemma AllLinesOne(info: seq<SlotInfo>, n: nat, minSlot: nat, minKind: nat, maxKind: nat, line: SlotInfo)
    requires n < |info| && AllLines(info, n, minSlot, minKind, maxKind, line.slot, line.kind)
    ensures AllLines(info[n := line], n + 1, minSlot, minKind, maxKind, line.slot, line.kind + 1)
  {
    var now, next, kind := info[n := line], n + 1, line.kind + 1;
    forall s: nat, k: nat | minSlot <= s <= line.slot && minKind <= k <= maxKind && (s < line.slot || k < kind)
      ensures HasLine(now, next, s, k)
    {
      if s < line.slot || k < line.kind {
        assert HasLine(info, n, s, k);
        var i :| 0 <= i < n && info[i].slot == s && info[i].kind == k;
        assert now[i] == info[i];
      } else {
        assert now[n] == line;
      }
    }
  }

  lemma InOrderOne(info: seq<SlotInfo>, n: nat, line: SlotInfo)
    requires n < |info| && InOrder(info, n) && Ordered(info, n, line.slot, line.kind)
    ensures InOrder(info[n := line], n + 1)
  {
  }

  lemma ProgressLine(conf: seq<Option<Port>>, was: seq<Option<Port>>, info: seq<SlotInfo>, n: nat, kept: seq<Port>,
                     base: nat, minSlot: nat, minKind: nat, maxKind: nat, line: SlotInfo)
    requires Numbered(kept) && n < |info| && line.base == base
    requires Progress(was, info, n, kept, base, line.slot, line.kind, minSlot, minKind, maxKind)
    requires SameUpTo(conf, was, base) && MarksValid(line.ports, conf, base) && base + line.count < |conf|
    requires InPlace(conf, kept, line.slot, line.kind, base) && NothingElse(conf, kept, line.slot, line.kind, base)
    requires line.count == Count(kept, line.slot, line.kind)
    requires Extremes(kept, line.slot, line.kind, line.portMin, line.portMax, line.count)
    ensures Progress(conf, info[n := line], n + 1, kept, base + line.count, line.slot, line.kind + 1,
                     minSlot, minKind, maxKind)
  {
    hide Lines, Placed, InPlace, NothingElse, Extremes, AllLines, Total, Before, Count, Numbered, InOrder;
    InOrderOne(info, n, line);
    AllInPlace(conf, kept, line.slot, line.kind, base);
    AllExtremes(kept, line.slot, line.kind, line.portMin, line.portMax);
    LinesOne(info, n, kept, line);
    PlacedOne(conf, was, info, n, kept, line);
    AllLinesOne(info, n, minSlot, minKind, maxKind, line);
    BeforeNext(kept, line.slot, line.kind);
  }

  lemma ProgressRow(conf: seq<Option<Port>>, info: seq<SlotInfo>, n: nat, kept: seq<Port>, base: nat, slot: nat,
                    minSlot: nat, minKind: nat, maxKind: nat)
    requires Progress(conf, info, n, kept, base, slot, maxKind + 1, minSlot, minKind, maxKind)
    requires forall p | p in kept :: minKind <= p.kind <= maxKind
    ensures Progress(conf, info, n, kept, base, slot + 1, minKind, minSlot, minKind, maxKind)
  {
    hide Lines, Placed, Total, Before, Ranges, HasLine, InOrder;
    BeforeRow(kept, slot, minKind, maxKind);
  }

  lemma ProgressEnd(conf: seq<Option<Port>>, info: seq<SlotInfo>, kept: seq<Port>, base: nat, slot: nat,
                    minSlot: nat, minKind: nat, maxKind: nat)
    requires Progress(conf, info, |info|, kept, base, slot, minKind, minSlot, minKind, maxKind)
    requires forall p | p in kept :: minSlot <= p.slot < slot && minKind <= p.kind <= maxKind
    ensures Built(conf, info, kept) && InOrder(info, |info|) && Total(info, |info|) == |kept|
  {
    hide Lines, Placed, Total, Before, Ranges, InOrder;
    BeforeAll(kept, slot, minKind);
    forall p | p in kept ensures exists i :: 0 <= i < |info| && At(p, info[i].slot, info[i].kind) {
      assert HasLine(info, |info|, p.slot, p.kind);
      var i :| 0 <= i < |info| && info[i].slot == p.slot && info[i].kind == p.kind;
      assert At(p, info[i].slot, info[i].kind);
    }
  }

  // ---------- The shape of the tables ----------

  ghost predicate Spans(s: set<nat>, lo: nat, hi: nat) {
    lo in s && hi in s && forall x | x in s :: lo <= x <= hi
  }

  // Used without gaps.
  ghost predicate Contiguous(s: set<nat>) {
    forall a, x: nat, b | a in s && b in s && a <= x <= b :: x in s
  }

  function Interval(lo: nat, n: nat): (s: set<nat>)
    ensures |s| == n && forall x :: x in s <==> lo <= x < lo + n
  {
    if n == 0 then {} else Interval(lo, n - 1) + {lo + n - 1}
  }

  lemma {:induction false} SubsetSize(a: set<nat>, b: set<nat>)
    requires a <= b
    ensures |a| <= |b| && (|a| == |b| ==> a == b)
    decreases |a|
  {
    if a != {} {
      var x :| x in a;
      SubsetSize(a - {x}, b - {x});
      assert a == (a - {x}) + {x} && b == (b - {x}) + {x};
    }
  }

  ghost predicate Within(s: set<nat>, lo: nat, hi: nat) {
    lo <= hi && forall x | x in s :: lo <= x <= hi
  }

  lemma WithinSize(s: set<nat>, lo: nat, hi: nat)
    requires Within(s, lo, hi)
    ensures |s| <= hi - lo + 1 && (|s| == hi - lo + 1 <==> s == Interval(lo, hi - lo + 1))
  {
    SubsetSize(s, Interval(lo, hi - lo + 1));
  }

  // Without a known first port the extremes start from zero.
  function Seen(first: bool, s: set<nat>): set<nat> {
    if first then s else s + {0}
  }

  // No gaps, counted from zero when the first port is not known.
  ghost predicate GapFree(first: bool, s: set<nat>) {
    s != {} && Contiguous(s) && (first || 0 in s)
  }

  // A set fills the span that the survey finds exactly when it is free of gaps.
  lemma SpanSize(first: bool, s: set<nat>, lo: nat, hi: nat)
    requires Spans(Seen(first, s), lo, hi)
    ensures Within(s, lo, hi)
    ensures |s| == hi - lo + 1 <==> GapFree(first, s)
    ensures s == Interval(lo, hi - lo + 1) <==> GapFree(first, s)
  {
    var all := Interval(lo, hi - lo + 1);
    assert forall x | x in s :: x in Seen(first, s);
    WithinSize(s, lo, hi);
    if GapFree(first, s) {
      assert Seen(first, s) == s;
      assert s == all;
    }
    if s == all {
      assert lo in s;
      assert !first ==> 0 in Seen(first, s);
    }
  }

  function Row(r: nat, width: nat): nat {
    r * width
  }

  lemma RowNext(r: nat, width: nat)
    ensures Row(r + 1, width) == Row(r, width) + width && Row(0, width) == 0
  {
  }

  lemma {:induction false} RowsGrow(r: nat, rows: nat, width: nat)
    requires r <= rows
    ensures Row(r, width) <= Row(rows, width)
    decreases rows - r
  {
    if r < rows {
      RowNext(r, width);
      RowsGrow(r + 1, rows, width);
    }
  }

  // The last line of a table over a span of slots and types lies inside what was allocated for the
  // slots and types in use exactly when every slot and every type of the span is in use.
  lemma TableFitsExactly(slots: set<nat>, kinds: set<nat>, minSlot: nat, maxSlot: nat, minKind: nat, maxKind: nat)
    requires Within(slots, minSlot, maxSlot) && Within(kinds, minKind, maxKind)
    ensures Row(maxSlot - minSlot, |kinds|) + (maxKind - minKind) < Row(|slots|, |kinds|)
      <==> slots == Interval(minSlot, maxSlot - minSlot + 1) && kinds == Interval(minKind, maxKind - minKind + 1)
  {
    hide Row, Interval;
    WithinSize(slots, minSlot, maxSlot);
    WithinSize(kinds, minKind, maxKind);
    var rows, r := |slots|, maxSlot - minSlot;
    if rows == r + 1 {
      RowNext(r, |kinds|);
    } else {
      RowsGrow(rows, r, |kinds|);
    }
  }

  // For the span that the survey finds: exactly when neither slots nor types have gaps, counted from
  // zero when the first port is not known.
  lemma SurveyFitsExactly(first: bool, slots: set<nat>, kinds: set<nat>,
                          minSlot: nat, maxSlot: nat, minKind: nat, maxKind: nat)
    requires Spans(Seen(first, slots), minSlot, maxSlot) && Spans(Seen(first, kinds), minKind, maxKind)
    ensures Row(maxSlot - minSlot, |kinds|) + (maxKind - minKind) < Row(|slots|, |kinds|)
      <==> GapFree(first, slots) && GapFree(first, kinds)
  {
    hide Row, GapFree, Interval, Seen;
    SpanSize(first, slots, minSlot, maxSlot);
    SpanSize(first, kinds, minKind, maxKind);
    TableFitsExactly(slots, kinds, minSlot, maxSlot, minKind, maxKind);
  }

  // The smallest regular product.
  lemma OnePortIsRegular(limits: Limits, p: Port, size: nat)
    requires limits.Knows(p) && p.port == 1 && 1 < size
    ensures Regular(limits, [p], true, size)
  {
    hide Numbered, Kept, Slots, Kinds;
    OneKept(limits, p);
    OneIsNumbered(p);
    OneUsed(p);
  }

  lemma OneUsed(p: Port)
    ensures Slots([p]) == {p.slot} && Kinds([p]) == {p.kind}
  {
    assert p in [p];
  }

  // A product without gaps that overruns the slot table: its first port is of no known type, so the
  // extremes start from zero, and four lines are written where one was allocated.
  lemma UnknownFirstOverruns()
    ensures var limits, ports := Limits(1, 8, 1, 2), [Port(0, 1, 1), Port(1, 1, 1)];
      var kept := Kept(limits, ports);
      && kept == [Port(1, 1, 1)] && Numbered(kept) && Contiguous(Slots(kept)) && Contiguous(Kinds(kept))
      && !FirstKnown(limits, ports, true)
      && Spans(Seen(false, Slots(kept)), 0, 1) && Spans(Seen(false, Kinds(kept)), 0, 1)
      && Row(1, |Kinds(kept)|) + 1 >= Row(|Slots(kept)|, |Kinds(kept)|)
      && !Shape(limits, ports, true)
  {
    hide Numbered, Kept, Slots, Kinds;
    var limits, ports, p := Limits(1, 8, 1, 2), [Port(0, 1, 1), Port(1, 1, 1)], Port(1, 1, 1);
    NothingKept(limits, ports);
    KeptStep(limits, ports, 0);
    KeptStep(limits, ports, 1);
    assert ports[..2] == ports && [] + [p] == [p];
    OneIsNumbered(p);
    OneUsed(p);
  }

  lemma OneKept(limits: Limits, p: Port)
    requires limits.Knows(p)
    ensures Kept(limits, [p]) == [p]
  {
    assert [p][..0] == [];
  }

  lemma OneIsNumbered(p: Port)
    requires p.port == 1
    ensures Numbered([p])
  {
    hide Count;
    assert [] + [p] == [p];
    forall slot: nat, kind: nat ensures Count([p], slot, kind) == if At(p, slot, kind) then 1 else 0 {
      CountOne([], slot, kind, p);
      NoneCounted(slot, kind);
    }
  }

  lemma NoneCounted(slot: nat, kind: nat)
    ensures Count([], slot, kind) == 0
  {
  }

  // What a regular product says about the spans that the survey found.
  lemma RegularShape(limits: Limits, ports: seq<Port>, head: bool, size: nat,
                     minSlot: nat, maxSlot: nat, minKind: nat, maxKind: nat)
    requires Regular(limits, ports, head, size)
    requires var first, kept := FirstKnown(limits, ports, head), Kept(limits, ports);
      Spans(Seen(first, Slots(kept)), minSlot, maxSlot) && Spans(Seen(first, Kinds(kept)), minKind, maxKind)
    ensures var kept := Kept(limits, ports);
      && minSlot <= maxSlot && minKind <= maxKind && Numbered(kept) && |kept| < size
      && |Slots(kept)| == maxSlot - minSlot + 1 && |Kinds(kept)| == maxKind - minKind + 1
      && forall p | p in kept :: minSlot <= p.slot <= maxSlot && minKind <= p.kind <= maxKind
  {
    hide GapFree, Numbered, Kept, Seen, FirstKnown;
    var first, kept := FirstKnown(limits, ports, head), Kept(limits, ports);
    SpanSize(first, Slots(kept), minSlot, maxSlot);
    SpanSize(first, Kinds(kept), minKind, maxKind);
    forall p | p in kept ensures minSlot <= p.slot <= maxSlot && minKind <= p.kind <= maxKind {
      assert p.slot in Slots(kept) && p.kind in Kinds(kept);
    }
  }

  lemma NothingKept(limits: Limits, ports: seq<Port>)
    ensures Kept(limits, ports[..0]) == [] && Slots([]) == {} && Kinds([]) == {}
  {
  }

  lemma SurveyOne(kept: seq<Port>, p: Port)
    ensures Slots(kept + [p]) == Slots(kept) + {p.slot} && Kinds(kept + [p]) == Kinds(kept) + {p.kind}
  {
    assert p in kept + [p];
    assert forall r | r in kept :: r in kept + [p];
  }

  lemma ProgressStart(conf: seq<Option<Port>>, info: seq<SlotInfo>, kept: seq<Port>,
                      minSlot: nat, minKind: nat, maxKind: nat)
    requires conf != [] && forall q | 0 <= q < |conf| :: conf[q] == None
    requires forall p | p in kept :: minSlot <= p.slot && minKind <= p.kind
    ensures Progress(conf, info, 0, kept, 0, minSlot, minKind, minSlot, minKind, maxKind)
  {
    BeforeFirst(kept, minSlot, minKind);
  }

  // The next line fits, in the port table and in the slot table.
  lemma LineFits(conf: seq<Option<Port>>, info: seq<SlotInfo>, r: nat, t: nat, rows: nat, width: nat, kept: seq<Port>,
                 base: nat, slot: nat, kind: nat, minSlot: nat, minKind: nat, maxKind: nat)
    requires Progress(conf, info, Row(r, width) + t, kept, base, slot, kind, minSlot, minKind, maxKind)
    requires r < rows && t < width && |kept| < |conf|
    ensures base + Count(kept, slot, kind) < |conf| && Free(conf, base)
    ensures Row(r, width) + t < Row(rows, width)
  {
    hide Lines, Placed, Ranges, Ordered, AllLines, Total, Before, Count, Row;
    BeforeNext(kept, slot, kind);
    RowNext(r, width);
    RowsGrow(r + 1, rows, width);
  }

  // The first port of the first module is known; head tells whether the first module has a port.
  predicate FirstKnown(limits: Limits, ports: seq<Port>, head: bool) {
    head && ports != [] && limits.Knows(ports[0])
  }

  // The slots and the types in use have no gaps, counted from zero when the first port is not known.
  ghost predicate Shape(limits: Limits, ports: seq<Port>, head: bool) {
    var first, kept := FirstKnown(limits, ports, head), Kept(limits, ports);
    GapFree(first, Slots(kept)) && GapFree(first, Kinds(kept))
  }

  // A product that the tables can hold, with panel ports numbered from 1.
  ghost predicate Regular(limits: Limits, ports: seq<Port>, head: bool, size: nat) {
    Shape(limits, ports, head) && Numbered(Kept(limits, ports)) && |Kept(limits, ports)| < size
  }

  class PortTables {
    const limits: Limits
    // g_port_conf, by logical port.
    const conf: array<Option<Port>>
    // g_if_slot_info.
    var info: seq<SlotInfo>

    constructor (limits: Limits, size: nat)
      ensures this.limits == limits && conf.Length == size && fresh(conf)
    {
      this.limits := limits;
      conf := new Option<Port>[size](_ => None);
      info := [];
    }

    // Greatest and least slot and type, and which are in use.
    method Survey(ports: seq<Port>, head: bool)
        returns (minSlot: nat, maxSlot: nat, minKind: nat, maxKind: nat, slots: set<nat>, kinds: set<nat>)
      ensures slots == Slots(Kept(limits, ports)) && kinds == Kinds(Kept(limits, ports))
      ensures Spans(Seen(FirstKnown(limits, ports, head), slots), minSlot, maxSlot)
      ensures Spans(Seen(FirstKnown(limits, ports, head), kinds), minKind, maxKind)
    {
      hide Kept, Slots, Kinds;
      minSlot, maxSlot, minKind, maxKind := 0, 0, 0, 0;
      slots, kinds := {}, {};
      NothingKept(limits, ports);
      ghost var first := FirstKnown(limits, ports, head);
      for j := 0 to |ports|
        invariant slots == Slots(Kept(limits, ports[..j])) && kinds == Kinds(Kept(limits, ports[..j]))
        invariant j > 0 || !first ==>
          Spans(Seen(first, slots), minSlot, maxSlot) && Spans(Seen(first, kinds), minKind, maxKind)
      {
        var p := ports[j];
        KeptStep(limits, ports, j);
        if !limits.Knows(p) {
          continue;
        }
        if j == 0 && head {
          minSlot, maxSlot, minKind, maxKind := p.slot, p.slot, p.kind, p.kind;
        } else {
          if p.slot > maxSlot {
            maxSlot := p.slot;
          }
          if p.slot < minSlot {
            minSlot := p.slot;
          }
          if p.kind > maxKind {
            maxKind := p.kind;
          }
          if p.kind < minKind {
            minKind := p.kind;
          }
        }
        SurveyOne(Kept(limits, ports[..j]), p);
        slots, kinds := slots + {p.slot}, kinds + {p.kind};
      }
      assert ports[..|ports|] == ports;
    }

    // if_slot_portmap_init; ok is false when nothing is in use or an access would lie outside a table.
    method Init(ports: seq<Port>, head: bool) returns (ok: bool)
      modifies this, conf
      ensures ok ==> Shape(limits, ports, head)
      ensures Regular(limits, ports, head, conf.Length) ==>
        ok && Built(conf[..], info, Kept(limits, ports)) && InOrder(info, |info|)
      ensures Regular(limits, ports, head, conf.Length) ==>
        forall q: nat :: Panel(conf[..], q).Some? <==> 1 <= q <= |Kept(limits, ports)|
    {
      hide Progress, Total, InOrder, Panel, Numbered, Count, Before, Row, Kept, Slots, Kinds, Seen, FirstKnown, GapFree,
        Free, SameUpTo, InPlace, NothingElse, MarksValid, Extremes, Built;
      ghost var kept, regular := Kept(limits, ports), Regular(limits, ports, head, conf.Length);
      var minSlot, maxSlot, minKind, maxKind, slots, kinds := Survey(ports, head);
      if regular {
        RegularShape(limits, ports, head, conf.Length, minSlot, maxSlot, minKind, maxKind);
        RowNext(0, |kinds|);
        RowsGrow(1, |slots|, |kinds|);
      }
      var numKind, numEntry := |kinds|, Row(|slots|, |kinds|);
      if numEntry == 0 {
        return false;
      }
      info := seq(numEntry, _ => SlotInfo(0, 0, {}, 0, 0, 0, 0));
      Clear();
      var base: nat, slotIdx: nat, s: nat := 0, 0, minSlot;
      if regular {
        ProgressStart(conf[..], info, kept, minSlot, minKind, maxKind);
      }
      while s <= maxSlot
        invariant |info| == numEntry && s <= maxSlot + 1 && slotIdx + minSlot == s
        invariant s > minSlot ==> Row(slotIdx - 1, numKind) + (maxKind - minKind) < numEntry
        invariant regular ==>
          Progress(conf[..], info, Row(slotIdx, numKind), kept, base, s, minKind, minSlot, minKind, maxKind)
        decreases maxSlot + 1 - s
      {
        var typeIdx: nat, k: nat := 0, minKind;
        while k <= maxKind
          invariant |info| == numEntry && k <= maxKind + 1 && typeIdx + minKind == k
          invariant k > minKind ==> Row(slotIdx, numKind) + (k - 1 - minKind) < numEntry
          invariant regular ==>
            Progress(conf[..], info, Row(slotIdx, numKind) + typeIdx, kept, base, s, k, minSlot, minKind, maxKind)
          decreases maxKind + 1 - k
        {
          ghost var was := conf[..];
          if regular {
            LineFits(was, info, slotIdx, typeIdx, |slots|, numKind, kept, base, s, k, minSlot, minKind, maxKind);
          }
          var fits, line := FillLine(ports, s, k, base);
          if !fits {
            return false;
          }
          var idx := Row(slotIdx, numKind) + typeIdx;
          if idx >= |info| {
            return false;
          }
          if regular {
            ProgressLine(conf[..], was, info, idx, kept, base, minSlot, minKind, maxKind, line);
          }
          info := info[idx := line];
          base, typeIdx, k := base + line.count, typeIdx + 1, k + 1;
        }
        if regular {
          ProgressRow(conf[..], info, Row(slotIdx, numKind) + typeIdx, kept, base, s, minSlot, minKind, maxKind);
          RowNext(slotIdx, numKind);
        }
        slotIdx, s := slotIdx + 1, s + 1;
      }
      if regular {
        ProgressEnd(conf[..], info, kept, base, s, minSlot, minKind, maxKind);
        forall q: nat ensures Panel(conf[..], q).Some? <==> 1 <= q <= |kept| {
          var i := NumberNames(conf[..], info, kept, q);
        }
      }
      SurveyFitsExactly(FirstKnown(limits, ports, head), slots, kinds, minSlot, maxSlot, minKind, maxKind);
      ok := true;
    }

    // bzero of g_port_conf.
    method Clear()
      modifies conf
      ensures forall q | 0 <= q < conf.Length :: conf[q] == None
    {
      for q := 0 to conf.Length
        invariant forall r | 0 <= r < q :: conf[r] == None
      {
        conf[q] := None;
      }
    }

    // The inner loops for one slot and type; ok is false when a number lies outside the table.
    method FillLine(ports: seq<Port>, slot: nat, kind: nat, base: nat) returns (ok: bool, line: SlotInfo)
      modifies conf
      ensures line.slot == slot && line.kind == kind && line.base == base
      ensures var kept := Kept(limits, ports);
        Numbered(kept) && Free(old(conf[..]), base) && base + Count(kept, slot, kind) < conf.Length ==>
        && ok && SameUpTo(conf[..], old(conf[..]), base)
        && InPlace(conf[..], kept, slot, kind, base) && NothingElse(conf[..], kept, slot, kind, base)
        && MarksValid(line.ports, conf[..], base)
        && line.count == Count(kept, slot, kind) && Extremes(kept, slot, kind, line.portMin, line.portMax, line.count)
    {
      hide InPlace, NothingElse, Extremes, MarksValid, SameUpTo, Numbered, Kept, Count, Free;
      ghost var kept := Kept(limits, ports);
      ghost var regular := Numbered(kept) && Free(conf[..], base) && base + Count(kept, slot, kind) < conf.Length;
      var marks: set<nat>, portMin, portMax, count := {}, 0, 0, 0;
      ok := true;
      line := SlotInfo(slot, kind, marks, portMin, portMax, count, base);
      StartLine(conf[..], slot, kind, base);
      NothingKept(limits, ports);
      for j := 0 to |ports|
        invariant regular ==> SameUpTo(conf[..], old(conf[..]), base)
        invariant regular ==> InPlace(conf[..], Kept(limits, ports[..j]), slot, kind, base)
        invariant regular ==> NothingElse(conf[..], Kept(limits, ports[..j]), slot, kind, base)
        invariant regular ==> MarksValid(marks, conf[..], base)
        invariant regular ==> count == Count(Kept(limits, ports[..j]), slot, kind)
        invariant regular ==> Extremes(Kept(limits, ports[..j]), slot, kind, portMin, portMax, count)
      {
        var p := ports[j];
        ghost var done := Kept(limits, ports[..j]);
        KeptStep(limits, ports, j);
        if !limits.Knows(p) {
          continue;
        }
        CountOne(done, slot, kind, p);
        if !At(p, slot, kind) {
          OtherPort(conf[..], done, slot, kind, base, portMin, portMax, count, p);
          continue;
        }
        if regular {
          KeptIsNew(limits, ports, j);
          NumberedPort(kept, p);
          InPlaceOne(conf[..], done, slot, kind, base, p);
          NothingElseOne(conf[..], done, slot, kind, base, p);
          ExtremesOne(done, slot, kind, portMin, portMax, count, p);
          MarkOne(conf[..], old(conf[..]), marks, base, p);
        }
        if portMin == 0 && portMax == 0 {
          portMin, portMax := p.port, p.port;
        } else {
          if p.port < portMin {
            portMin := p.port;
          }
          if p.port > portMax {
            portMax := p.port;
          }
        }
        var q := p.port + base;
        if q >= conf.Length {
          ok := false;
          return;
        }
        if conf[q] == None {
          ghost var before := conf[..];
          conf[q] := Some(p);
          assert conf[..] == before[q := Some(p)];
          marks := marks + {q};
          count := count + 1;
        }
      }
      assert ports[..|ports|] == ports;
      line := SlotInfo(slot, kind, marks, portMin, portMax, count, base);
    }
  }

  lemma StartLine(conf: seq<Option<Port>>, slot: nat, kind: nat, base: nat)
    ensures InPlace(conf, [], slot, kind, base) && Extremes([], slot, kind, 0, 0, 0) && Count([], slot, kind) == 0
    ensures Free(conf, base) ==> NothingElse(conf, [], slot, kind, base) && MarksValid({}, conf, base)
    ensures SameUpTo(conf, conf, base)
  {
  }

  lemma MarkOne(conf: seq<Option<Port>>, was: seq<Option<Port>>, marks: set<nat>, base: nat, p: Port)
    requires MarksValid(marks, conf, base) && SameUpTo(conf, was, base)
    requires 1 <= p.port && base + p.port < |conf|
    ensures var q := base + p.port;
      MarksValid(marks + {q}, conf[q := Some(p)], base) && SameUpTo(conf[q := Some(p)], was, base)
  {
  }

  lemma OtherPort(conf: seq<Option<Port>>, done: seq<Port>, slot: nat, kind: nat, base: nat, lo: nat, hi: nat,
                  count: nat, p: Port)
    requires !At(p, slot, kind)
    ensures InPlace(conf, done, slot, kind, base) ==> InPlace(conf, done + [p], slot, kind, base)
    ensures NothingElse(conf, done, slot, kind, base) ==> NothingElse(conf, done + [p], slot, kind, base)
    ensures Extremes(done, slot, kind, lo, hi, count) ==> Extremes(done + [p], slot, kind, lo, hi, count)
  {
    if NothingElse(conf, done, slot, kind, base) {
      forall q: nat | base < q < |conf| ensures FromList(conf, done + [p], slot, kind, base, q) {
        assert FromList(conf, done, slot, kind, base, q);
      }
    }
  }
}
