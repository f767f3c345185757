/** Port numbering and port text together: printed panel ports are read as their logical ports. */
module PanelText {
  import opened Bitmaps
  import opened Common
  import PortMap
  import opened RangeText

  type Conf = seq<Option<PortMap.Port>>
  type Info = seq<PortMap.SlotInfo>

  function SlotsWith(info: Info, kind: nat): set<nat> {
    set i | 0 <= i < |info| && info[i].kind == kind :: info[i].slot
  }

  // What the parser looks up for one interface type in the tables.
  function MapOf(limits: PortMap.Limits, conf: Conf, info: Info, kind: nat): Map {
    Map(limits.minSlot, limits.maxSlot,
        map slot | slot in SlotsWith(info, kind) :: BaseOf(info, kind, slot),
        set q | 0 <= q < |conf| && conf[q].Some?)
  }

  function BaseOf(info: Info, kind: nat, slot: nat): nat {
    match PortMap.Index(info, kind, slot) case Some(i) => info[i].base case None => 0
  }

  // The parser's test of a port is the lookup of the tables.
  lemma KnownIsLogical(limits: PortMap.Limits, conf: Conf, info: Info, kind: nat, slot: nat, port: nat)
    requires port < TWO16
    ensures Known(MapOf(limits, conf, info, kind), slot, port)
      <==> PortMap.Logical(conf, info, kind, slot, Signed16(port)).Some?
  {
    hide PortMap.IndexFrom;
    var i := PortMap.Index(info, kind, slot);
    if i.Some? {
      assert info[i.value].slot in SlotsWith(info, kind);
    }
  }

  // Logical port q is a chosen panel port of the slot and type.
  predicate Names(conf: Conf, q: nat, kind: nat, slot: nat, chosen: Ports) {
    && q < |conf| && conf[q].Some?
    && conf[q].value.kind == kind && conf[q].value.slot == slot && conf[q].value.port in chosen
  }

  lemma ChosenPort(limits: PortMap.Limits, conf: Conf, info: Info, ports: seq<PortMap.Port>,
                   kind: nat, slot: nat, c: nat)
    requires PortMap.Built(conf, info, ports) && PortMap.Numbered(ports) && PortMap.Port(kind, slot, c) in ports
    requires c < BITS
    ensures var m := MapOf(limits, conf, info, kind);
      slot in m.base && Known(m, slot, c) && m.base[slot] == BaseOf(info, kind, slot)
    ensures PortMap.Logical(conf, info, kind, slot, c) == Some(BaseOf(info, kind, slot) + c)
    ensures PortMap.Panel(conf, BaseOf(info, kind, slot) + c) == Some(PortMap.Port(kind, slot, c))
  {
    hide PortMap.Built, PortMap.Numbered, PortMap.Index;
    PortMap.PortHasNumber(conf, info, ports, PortMap.Port(kind, slot, c));
    var i := PortMap.Index(info, kind, slot).value;
    assert info[i].slot in SlotsWith(info, kind);
  }

  // Printing chosen panel ports of a slot and parsing the text gives exactly their logical ports.
  lemma PanelPortsAreRead(limits: PortMap.Limits, conf: Conf, info: Info, ports: seq<PortMap.Port>,
                          kind: nat, slot: nat, chosen: Ports)
    requires PortMap.Built(conf, info, ports) && PortMap.Numbered(ports)
    requires chosen != {} && forall c | c in chosen :: 1 <= c < BITS && PortMap.Port(kind, slot, c) in ports
    requires limits.minSlot <= slot <= limits.maxSlot < TWO16
    ensures var r := ParseText(MapOf(limits, conf, info, kind), Join(Runs(slot, chosen, BITS)));
      && r.Taken? && (forall q: nat :: q in r.ports <==> Names(conf, q, kind, slot, chosen))
      && (|conf| <= BITS ==> Word(r.ports) == Some(r.ports))
  {
    hide PortMap.Built, PortMap.Numbered, PortMap.Logical, Known, MapOf, ParseText, Runs, Join, BaseOf, Covered;
    var m, rs := MapOf(limits, conf, info, kind), Runs(slot, chosen, BITS);
    MapLimits(limits, conf, info, kind);
    forall c | c in chosen
      ensures slot in m.base && Known(m, slot, c) && m.base[slot] == BaseOf(info, kind, slot)
      ensures PortMap.Panel(conf, BaseOf(info, kind, slot) + c) == Some(PortMap.Port(kind, slot, c))
    {
      ChosenPort(limits, conf, info, ports, kind, slot, c);
    }
    RunsOfSet(slot, chosen);
    EndsInSet(m, slot, rs, chosen);
    PrintedIsRead(m, slot, chosen);
    var base := BaseOf(info, kind, slot);
    forall q: nat ensures q in Shifted(chosen, base) <==> Names(conf, q, kind, slot, chosen) {
      ShiftedNames(limits, conf, info, ports, kind, slot, chosen, q);
    }
  }

  lemma MapLimits(limits: PortMap.Limits, conf: Conf, info: Info, kind: nat)
    ensures var m := MapOf(limits, conf, info, kind); m.minSlot == limits.minSlot && m.maxSlot == limits.maxSlot
  {
  }

  lemma EndsInSet(m: Map, slot: nat, rs: seq<Range>, chosen: Ports)
    requires forall p: nat :: Covered(rs, p) <==> p in chosen
    requires forall c | c in chosen :: c < BITS && Known(m, slot, c)
    requires forall i | 0 <= i < |rs| :: rs[i].slot == slot && rs[i].lo <= rs[i].hi && slot < TWO16
    requires forall i | 0 <= i < |rs| :: rs[i].dashed == (rs[i].lo != rs[i].hi)
    ensures EndsKnown(m, rs)
  {
    hide Known;
    forall i | 0 <= i < |rs| ensures rs[i].lo in chosen && rs[i].hi in chosen {
      assert Covered(rs, rs[i].lo) && Covered(rs, rs[i].hi);
    }
  }

  lemma ShiftedNames(limits: PortMap.Limits, conf: Conf, info: Info, ports: seq<PortMap.Port>, kind: nat, slot: nat,
                     chosen: Ports, q: nat)
    requires PortMap.Built(conf, info, ports) && PortMap.Numbered(ports)
    requires forall c | c in chosen :: 1 <= c < BITS && PortMap.Port(kind, slot, c) in ports
    ensures q in Shifted(chosen, BaseOf(info, kind, slot)) <==> Names(conf, q, kind, slot, chosen)
  {
    hide PortMap.Built, PortMap.Numbered, PortMap.Logical, Known, MapOf, BaseOf;
    var base := BaseOf(info, kind, slot);
    if q in Shifted(chosen, base) {
      var c :| c in chosen && q == c + base;
      ChosenPort(limits, conf, info, ports, kind, slot, c);
    }
    if Names(conf, q, kind, slot, chosen) {
      var p := conf[q].value;
      PortMap.NumberHasPort(conf, info, ports, q);
      ChosenPort(limits, conf, info, ports, kind, slot, p.port);
      assert q == p.port + base;
    }
  }
}
