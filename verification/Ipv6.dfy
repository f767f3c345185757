/** IPv6 in ipv6_common.c: prefixes of addresses, and the address table of an interface. */
module Ipv6 {
  import opened Common

  type Addr = a: seq<bv8> | |a| == 16 witness Zero16()

  function Zero16(): (a: seq<bv8>)
    ensures |a| == 16
  {
    [0, 0, 0, 0, 0, 0, 0, 0, 0, 0, 0, 0, 0, 0, 0, 0]
  }

  // ---------- Prefixes ----------

  // 0xff00 >> b.
  function Mask(b: nat): bv16 {
    match b
    case 0 => 0xFF00 case 1 => 0x7F80 case 2 => 0x3FC0 case 3 => 0x1FE0
    case 4 => 0x0FF0 case 5 => 0x07F8 case 6 => 0x03FC case _ => 0x01FE
  }

  // The byte stored for x & (0xff00 >> b).
  function Masked(x: bv8, b: nat): bv8 {
    ((x as bv16 & Mask(b)) & 0xFF) as bv8
  }

  // Bit k of a byte, the highest first.
  function Bit(x: bv8, k: nat): bool {
    match k
    case 0 => x & 0x80 != 0 case 1 => x & 0x40 != 0 case 2 => x & 0x20 != 0 case 3 => x & 0x10 != 0
    case 4 => x & 0x08 != 0 case 5 => x & 0x04 != 0 case 6 => x & 0x02 != 0 case _ => x & 0x01 != 0
  }

  // The first b bits agree.
  predicate SameBits(x: bv8, y: bv8, b: nat) {
    b == 0 || (SameBits(x, y, b - 1) && Bit(x, b - 1) == Bit(y, b - 1))
  }

  lemma {:induction false} SameBitsMeans(x: bv8, y: bv8, b: nat)
    ensures SameBits(x, y, b) <==> forall k: nat | k < b :: Bit(x, k) == Bit(y, k)
  {
    hide Bit;
    if b != 0 {
      SameBitsMeans(x, y, b - 1);
    }
  }

  lemma Masked0(x: bv8, y: bv8)
    ensures Masked(x, 0) == Masked(y, 0)
  {
  }

  lemma Masked1(x: bv8, y: bv8)
    ensures Masked(x, 1) == Masked(y, 1) <==> (x & 0x80 != 0) == (y & 0x80 != 0)
  {
  }

  lemma Masked2(x: bv8, y: bv8)
    ensures Masked(x, 2) == Masked(y, 2) <==> (x & 0x80 != 0) == (y & 0x80 != 0) && (x & 0x40 != 0) == (y & 0x40 != 0)
  {
  }

  lemma Masked3(x: bv8, y: bv8)
    ensures Masked(x, 3) == Masked(y, 3) <==>
      (x & 0x80 != 0) == (y & 0x80 != 0) && (x & 0x40 != 0) == (y & 0x40 != 0)
      && (x & 0x20 != 0) == (y & 0x20 != 0)
  {
  }

  lemma Masked4(x: bv8, y: bv8)
    ensures Masked(x, 4) == Masked(y, 4) <==>
      (x & 0x80 != 0) == (y & 0x80 != 0) && (x & 0x40 != 0) == (y & 0x40 != 0)
      && (x & 0x20 != 0) == (y & 0x20 != 0) && (x & 0x10 != 0) == (y & 0x10 != 0)
  {
  }

  lemma Masked5(x: bv8, y: bv8)
    ensures Masked(x, 5) == Masked(y, 5) <==>
      (x & 0x80 != 0) == (y & 0x80 != 0) && (x & 0x40 != 0) == (y & 0x40 != 0)
      && (x & 0x20 != 0) == (y & 0x20 != 0) && (x & 0x10 != 0) == (y & 0x10 != 0)
      && (x & 0x08 != 0) == (y & 0x08 != 0)
  {
  }

  lemma Masked6(x: bv8, y: bv8)
    ensures Masked(x, 6) == Masked(y, 6) <==>
      (x & 0x80 != 0) == (y & 0x80 != 0) && (x & 0x40 != 0) == (y & 0x40 != 0)
      && (x & 0x20 != 0) == (y & 0x20 != 0) && (x & 0x10 != 0) == (y & 0x10 != 0)
      && (x & 0x08 != 0) == (y & 0x08 != 0) && (x & 0x04 != 0) == (y & 0x04 != 0)
  {
  }

  lemma Masked7(x: bv8, y: bv8)
    ensures Masked(x, 7) == Masked(y, 7) <==>
      (x & 0x80 != 0) == (y & 0x80 != 0) && (x & 0x40 != 0) == (y & 0x40 != 0)
      && (x & 0x20 != 0) == (y & 0x20 != 0) && (x & 0x10 != 0) == (y & 0x10 != 0)
      && (x & 0x08 != 0) == (y & 0x08 != 0) && (x & 0x04 != 0) == (y & 0x04 != 0)
      && (x & 0x02 != 0) == (y & 0x02 != 0)
  {
  }

  // Masked bytes agree exactly when the first b bits do.
  lemma MaskedAgrees(x: bv8, y: bv8, b: nat)
    requires b < 8
    ensures Masked(x, b) == Masked(y, b) <==> SameBits(x, y, b)
  {
    hide Masked;
    Masked0(x, y);
    Masked1(x, y);
    Masked2(x, y);
    Masked3(x, y);
    Masked4(x, y);
    Masked5(x, y);
    Masked6(x, y);
    Masked7(x, y);
    assert SameBits(x, y, 1) <==> Bit(x, 0) == Bit(y, 0);
    assert SameBits(x, y, 2) <==> SameBits(x, y, 1) && Bit(x, 1) == Bit(y, 1);
    assert SameBits(x, y, 3) <==> SameBits(x, y, 2) && Bit(x, 2) == Bit(y, 2);
    assert SameBits(x, y, 4) <==> SameBits(x, y, 3) && Bit(x, 3) == Bit(y, 3);
    assert SameBits(x, y, 5) <==> SameBits(x, y, 4) && Bit(x, 4) == Bit(y, 4);
    assert SameBits(x, y, 6) <==> SameBits(x, y, 5) && Bit(x, 5) == Bit(y, 5);
    assert SameBits(x, y, 7) <==> SameBits(x, y, 6) && Bit(x, 6) == Bit(y, 6);
  }

  lemma AllBits(x: bv8, y: bv8)
    ensures x == y <==>
      (x & 0x80 != 0) == (y & 0x80 != 0) && (x & 0x40 != 0) == (y & 0x40 != 0)
      && (x & 0x20 != 0) == (y & 0x20 != 0) && (x & 0x10 != 0) == (y & 0x10 != 0)
      && (x & 0x08 != 0) == (y & 0x08 != 0) && (x & 0x04 != 0) == (y & 0x04 != 0)
      && (x & 0x02 != 0) == (y & 0x02 != 0) && (x & 0x01 != 0) == (y & 0x01 != 0)
  {
  }

  lemma SameByte(x: bv8, y: bv8)
    ensures x == y <==> forall k: nat | k < 8 :: Bit(x, k) == Bit(y, k)
  {
    AllBits(x, y);
    if forall k: nat | k < 8 :: Bit(x, k) == Bit(y, k) {
      assert Bit(x, 0) == Bit(y, 0) && Bit(x, 1) == Bit(y, 1) && Bit(x, 2) == Bit(y, 2) && Bit(x, 3) == Bit(y, 3);
      assert Bit(x, 4) == Bit(y, 4) && Bit(x, 5) == Bit(y, 5) && Bit(x, 6) == Bit(y, 6) && Bit(x, 7) == Bit(y, 7);
    }
  }

  // in6_addr_2prefix; None is the failure for a length that is no prefix length.
  function Prefix(ip: Addr, len: int): (p: Option<Addr>)
    ensures p.Some? <==> 0 <= len <= 128
  {
    if len < 0 || len > 128 then None
    else if len == 128 then Some(ip)
    else
      Some(seq(16, i requires 0 <= i < 16 =>
        if i < len / 8 then ip[i] else if i == len / 8 then Masked(ip[i], len % 8) else 0))
  }

  // Bit i of an address, the highest of the first byte first.
  predicate AddrBit(ip: Addr, i: nat)
    requires i < 128
  {
    Bit(ip[i / 8], i % 8)
  }

  lemma MaskedBits(x: bv8, b: nat, k: nat)
    requires b < 8 && k < 8
    ensures Bit(Masked(x, b), k) == (k < b && Bit(x, k))
  {
  }

  // A prefix keeps the first len bits and clears the others.
  lemma PrefixBits(ip: Addr, len: nat, i: nat)
    requires len <= 128 && i < 128
    ensures AddrBit(Prefix(ip, len).value, i) == (i < len && AddrBit(ip, i))
  {
    hide Masked, Bit;
    MaskedBits(ip[i / 8], len % 8, i % 8);
    ZeroBit(i % 8);
  }

  lemma ZeroBit(k: nat)
    ensures !Bit(0, k)
  {
  }

  // in6_prefix_equal, for a prefix length.
  predicate PrefixEqual(x: Addr, y: Addr, len: nat)
    requires len <= 128
  {
    Prefix(x, len) == Prefix(y, len)
  }

  // Prefixes are equal exactly when the first len bits agree.
  lemma PrefixEqualExactly(x: Addr, y: Addr, len: nat)
    requires len <= 128
    ensures PrefixEqual(x, y, len) <==> forall i | 0 <= i < len :: AddrBit(x, i) == AddrBit(y, i)
  {
    hide Masked, Bit;
    var a, b := len / 8, len % 8;
    if len < 128 {
      PrefixBytes(x, y, len);
      MaskedAgrees(x[a], y[a], b);
      SameBitsMeans(x[a], y[a], b);
    }
    forall i | 0 <= i < 16 ensures x[i] == y[i] <==> forall k: nat | k < 8 :: Bit(x[i], k) == Bit(y[i], k) {
      SameByte(x[i], y[i]);
    }
    if PrefixEqual(x, y, len) {
      forall i | 0 <= i < len ensures AddrBit(x, i) == AddrBit(y, i) {
        assert i / 8 < a || (i / 8 == a && i % 8 < b);
      }
    }
    if forall i | 0 <= i < len :: AddrBit(x, i) == AddrBit(y, i) {
      forall i: nat, k: nat | i < 16 && k < 8 && (i < a || (i == a && k < b)) ensures Bit(x[i], k) == Bit(y[i], k) {
        assert AddrBit(x, 8 * i + k) == AddrBit(y, 8 * i + k);
        assert (8 * i + k) / 8 == i && (8 * i + k) % 8 == k;
      }
      if len == 128 {
        assert x == y;
      }
    }
  }

  lemma PrefixBytes(x: Addr, y: Addr, len: nat)
    requires len < 128
    ensures PrefixEqual(x, y, len) <==>
      (forall i | 0 <= i < len / 8 :: x[i] == y[i]) && Masked(x[len / 8], len % 8) == Masked(y[len / 8], len % 8)
  {
    hide Masked;
    var p, q := Prefix(x, len).value, Prefix(y, len).value;
    assert forall i | 0 <= i < len / 8 :: p[i] == x[i] && q[i] == y[i];
    assert p[len / 8] == Masked(x[len / 8], len % 8) && q[len / 8] == Masked(y[len / 8], len % 8);
    if (forall i | 0 <= i < len / 8 :: x[i] == y[i]) && Masked(x[len / 8], len % 8) == Masked(y[len / 8], len % 8) {
      assert p == q;
    }
  }

  // in6_addr_2prefix writing its output buffer.
  method In6Addr2Prefix(ip: Addr, len: int, out: array<bv8>) returns (ok: bool)
    requires out.Length == 16
    modifies out
    ensures ok == Prefix(ip, len).Some?
    ensures out[..] == if ok then Prefix(ip, len).value else old(out[..])
  {
    hide Masked;
    if len < 0 || len > 128 {
      return false;
    }
    if len == 128 {
      for i := 0 to 16
        invariant out[..i] == ip[..i]
      {
        out[i] := ip[i];
      }
      return true;
    }
    var a, b := len / 8, len % 8;
    for i := 0 to 16
      invariant forall k | 0 <= k < i :: out[k] == 0
    {
      out[i] := 0;
    }
    for i := 0 to a
      invariant forall k | 0 <= k < 16 :: out[k] == if k < i then ip[k] else 0
    {
      out[i] := ip[i];
    }
    out[a] := Masked(ip[a], b);
    ok := true;
  }

  // ---------- The address table ----------

  datatype Entry = Entry(ip: Addr, len: int, gateway: Addr, mtu: nat, hopLimit: nat)

  function NoEntry(): Entry {
    Entry(Zero16(), 0, Zero16(), 0, 0)
  }

  // What is set; the fields that are optional have a flag in the source.
  datatype Parameters = Parameters(ip: Addr, len: int, gateway: Option<Addr>, mtu: Option<nat>, hopLimit: Option<nat>)

  datatype Status = Ok | Full | NotFound | Failed

  predicate Matches(e: Entry, ip: Addr, len: int) {
    e.ip == ip && e.len == len
  }

  predicate Unspecified(e: Entry) {
    e.ip == Zero16()
  }

  // The interface identifier made from a MAC address.
  function Eui64(mac: seq<bv8>): (x: seq<bv8>)
    requires |mac| == 6
    ensures |x| == 8 && x[3] == 0xFF
  {
    [mac[0] ^ 2, mac[1], mac[2], 0xFF, 0xFE, mac[3], mac[4], mac[5]]
  }

  predicate IdIsZero(ip: Addr) {
    forall i | 8 <= i < 16 :: ip[i] == 0
  }

  // An address without interface identifier takes the one of the interface, if it has one.
  function Completed(ip: Addr, eui64: bool, mac: seq<bv8>): (r: Addr)
    requires |mac| == 6
  {
    if IdIsZero(ip) && eui64 then ip[..8] + Eui64(mac) else ip
  }

  // The example of appendix A of RFC 4291.
  lemma Eui64Example()
    ensures Eui64([0x34, 0x56, 0x78, 0x9A, 0xBC, 0xDE]) == [0x36, 0x56, 0x78, 0xFF, 0xFE, 0x9A, 0xBC, 0xDE]
  {
  }

  // An address is completed exactly when its second half is zero and the interface forms identifiers
  // from its MAC address, which can be read back from it.
  lemma CompletedExactly(ip: Addr, eui64: bool, mac: seq<bv8>)
    requires |mac| == 6
    ensures var r := Completed(ip, eui64, mac);
      && (r != ip <==> ip[8..] == [0, 0, 0, 0, 0, 0, 0, 0] && eui64)
      && r[..8] == ip[..8]
      && (r != ip ==> [r[8] ^ 2, r[9], r[10], r[13], r[14], r[15]] == mac && r[11] == 0xFF && r[12] == 0xFE)
  {
    var r := Completed(ip, eui64, mac);
    assert IdIsZero(ip) <==> ip[8..] == [0, 0, 0, 0, 0, 0, 0, 0] by {
      assert forall i | 8 <= i < 16 :: ip[i] == ip[8..][i - 8];
    }
    if IdIsZero(ip) && eui64 {
      assert r[11] == 0xFF && ip[11] == 0;
      TwiceTwo(mac[0]);
    }
  }

  lemma TwiceTwo(x: bv8)
    ensures (x ^ 2) ^ 2 == x
  {
  }

  // The first match, else the first unspecified entry.
  function Place(t: seq<Entry>, ip: Addr, len: int): (r: Option<nat>)
    ensures r.Some? ==> r.value < |t| && (Matches(t[r.value], ip, len) || Unspecified(t[r.value]))
    ensures r.Some? && !Matches(t[r.value], ip, len) ==> forall i | 0 <= i < |t| :: !Matches(t[i], ip, len)
    ensures r.Some? && !Matches(t[r.value], ip, len) ==> forall i | 0 <= i < r.value :: !Unspecified(t[i])
    ensures r.None? ==> forall i | 0 <= i < |t| :: !Matches(t[i], ip, len) && !Unspecified(t[i])
  {
    var m := First(t, 0, e => Matches(e, ip, len));
    if m.Some? then m else First(t, 0, Unspecified)
  }

  function First(t: seq<Entry>, i: nat, p: Entry -> bool): (r: Option<nat>)
    requires i <= |t|
    ensures r.Some? ==> i <= r.value < |t| && p(t[r.value]) && forall j | i <= j < r.value :: !p(t[j])
    ensures r.None? ==> forall j | i <= j < |t| :: !p(t[j])
    decreases |t| - i
  {
    if i == |t| then None else if p(t[i]) then Some(i) else First(t, i + 1, p)
  }

  function Or<T>(o: Option<T>, t: T): T {
    if o.Some? then o.value else t
  }

  // The entry that is stored: a new address and length, unless it is there already, and what is set.
  function Merged(e: Entry, p: Parameters): Entry {
    Entry(p.ip, p.len, Or(p.gateway, e.gateway), Or(p.mtu, e.mtu), Or(p.hopLimit, e.hopLimit))
  }

  function SetTable(t: seq<Entry>, p: Parameters): (r: (seq<Entry>, Status))
    ensures |r.0| == |t|
  {
    match Place(t, p.ip, p.len)
    case None => (t, Full)
    case Some(i) => (t[i := Merged(t[i], p)], Ok)
  }

  function ClearTable(t: seq<Entry>, ip: Addr, len: int): (r: seq<Entry>)
    ensures |r| == |t|
  {
    seq(|t|, i requires 0 <= i < |t| => if Matches(t[i], ip, len) then NoEntry() else t[i])
  }

  function FindCount(t: seq<Entry>, ip: Addr, len: int): nat {
    if t == [] then 0
    else FindCount(t[..|t| - 1], ip, len) + if Matches(t[|t| - 1], ip, len) then 1 else 0
  }

  class Interface {
    const statics: array<Entry>
    const mac: seq<bv8>
    var eui64: bool
    var dhcp: bool
    var prefixUser: bool

    ghost predicate Valid()
      reads this
    {
      |mac| == 6
    }

    constructor (size: nat, mac: seq<bv8>)
      requires |mac| == 6
      ensures Valid() && statics[..] == seq(size, _ => NoEntry()) && fresh(statics)
    {
      statics := new Entry[size](_ => NoEntry());
      this.mac := mac;
      eui64, dhcp, prefixUser := false, false, false;
    }

    // The entry for an address with its length: the one that holds it, else the first free one.
    method FindPlace(ip: Addr, len: int) returns (dest: int, exists': bool)
      ensures Place(statics[..], ip, len) == if dest < 0 then None else Some(dest)
      ensures -1 <= dest < statics.Length && exists' == (dest >= 0 && Matches(statics[dest], ip, len))
    {
      dest, exists' := -1, false;
      var i := 0;
      while i < statics.Length
        invariant 0 <= i <= statics.Length && -1 <= dest < i && !exists'
        invariant forall j | 0 <= j < i :: !Matches(statics[j], ip, len)
        invariant if dest < 0 then forall j | 0 <= j < i :: !Unspecified(statics[j])
                  else Unspecified(statics[dest]) && forall j | 0 <= j < dest :: !Unspecified(statics[j])
      {
        if Matches(statics[i], ip, len) {
          exists', dest := true, i;
          break;
        }
        if dest < 0 && Unspecified(statics[i]) {
          dest := i;
        }
        i := i + 1;
      }
    }

    // iface_set_all_ip6_parameters, for a static address.
    method SetAll(p: Parameters) returns (ret: Status)
      requires Valid()
      modifies statics
      ensures (statics[..], ret) == SetTable(old(statics[..]), p.(ip := Completed(p.ip, eui64, mac)))
    {
      var q := p;
      if IdIsZero(q.ip) && eui64 {
        q := q.(ip := q.ip[..8] + Eui64(mac));
      }
      var dest, exists' := FindPlace(q.ip, q.len);
      if dest < 0 {
        return Full;
      }
      var e := statics[dest];
      if !exists' {
        e := e.(ip := q.ip, len := q.len);
      }
      if q.gateway.Some? {
        e := e.(gateway := q.gateway.value);
      }
      if q.mtu.Some? {
        e := e.(mtu := q.mtu.value);
      }
      if q.hopLimit.Some? {
        e := e.(hopLimit := q.hopLimit.value);
      }
      statics[dest] := e;
      ret := Ok;
    }

    // iface_clear_static_ip6_addr.
    method ClearStatic(ip: Addr, len: int) returns (ret: Status)
      modifies statics
      ensures dhcp || prefixUser ==> ret == Failed && statics[..] == old(statics[..])
      ensures !dhcp && !prefixUser ==> statics[..] == ClearTable(old(statics[..]), ip, len)
      ensures !dhcp && !prefixUser ==> ret == if FindCount(old(statics[..]), ip, len) > 0 then Ok else NotFound
    {
      if dhcp || prefixUser {
        return Failed;
      }
      ghost var t := statics[..];
      var count := 0;
      for i := 0 to statics.Length
        invariant count == FindCount(t[..i], ip, len)
        invariant forall j | 0 <= j < statics.Length :: statics[j] == if j < i then ClearTable(t, ip, len)[j] else t[j]
      {
        assert t[..i + 1][..i] == t[..i];
        if Matches(statics[i], ip, len) {
          statics[i] := NoEntry();
          count := count + 1;
        }
      }
      assert t[..|t|] == t;
      ret := if count > 0 then Ok else NotFound;
    }

    // iface_find_static_ip6_addr.
    method FindStatic(ip: Addr, len: int) returns (count: nat)
      ensures count == FindCount(statics[..], ip, len)
    {
      count := 0;
      for i := 0 to statics.Length
        invariant count == FindCount(statics[..i], ip, len)
      {
        assert statics[..i + 1][..i] == statics[..i];
        if Matches(statics[i], ip, len) {
          count := count + 1;
        }
      }
      assert statics[..statics.Length] == statics[..];
    }
  }

  // ---------- The table as a bounded set ----------

  type Key = (Addr, int)

  // The addresses with their prefix lengths.
  function Held(t: seq<Entry>): set<Key> {
    set e | e in t && !Unspecified(e) :: (e.ip, e.len)
  }

  // No address occurs twice with one prefix length.
  ghost predicate Unique(t: seq<Entry>) {
    forall i, j | 0 <= i < j < |t| && !Unspecified(t[i]) :: t[i].ip != t[j].ip || t[i].len != t[j].len
  }

  lemma HeldMeans(t: seq<Entry>, k: Key)
    ensures k in Held(t) <==> k.0 != Zero16() && exists i :: 0 <= i < |t| && Matches(t[i], k.0, k.1)
  {
    if k in Held(t) {
      var e :| e in t && !Unspecified(e) && (e.ip, e.len) == k;
      var i :| 0 <= i < |t| && t[i] == e;
      assert Matches(t[i], k.0, k.1);
    }
    if k.0 != Zero16() && exists i :: 0 <= i < |t| && Matches(t[i], k.0, k.1) {
      var i :| 0 <= i < |t| && Matches(t[i], k.0, k.1);
      assert t[i] in t && !Unspecified(t[i]) && (t[i].ip, t[i].len) == k;
    }
  }

  lemma HeldLast(front: seq<Entry>, e: Entry)
    ensures Held(front + [e]) == if Unspecified(e) then Held(front) else Held(front) + {(e.ip, e.len)}
  {
    forall k: Key ensures k in Held(front + [e]) <==> k in Held(front) || (!Unspecified(e) && k == (e.ip, e.len)) {
      assert forall x | x in front + [e] :: x in front || x == e;
      assert e in front + [e];
    }
  }

  // Without repetitions the set is as large as the table exactly when no entry is free.
  lemma {:induction false} HeldSize(t: seq<Entry>)
    requires Unique(t)
    ensures |Held(t)| <= |t|
    ensures |Held(t)| == |t| <==> forall i | 0 <= i < |t| :: !Unspecified(t[i])
  {
    hide Held;
    if t == [] {
      HeldNothing();
    } else {
      var front, e := t[..|t| - 1], t[|t| - 1];
      HeldSize(front);
      HeldLast(front, e);
      assert t == front + [e];
      HeldMeans(front, (e.ip, e.len));
      assert forall i | 0 <= i < |front| :: front[i] == t[i];
    }
  }

  lemma HeldNothing()
    ensures Held([]) == {}
  {
  }

  // An entry put where nothing else was held.
  lemma HeldUpdate(t: seq<Entry>, i: nat, e: Entry)
    requires i < |t| && (Matches(t[i], e.ip, e.len) || Unspecified(t[i]))
    ensures Held(t[i := e]) == if Unspecified(e) then Held(t) else Held(t) + {(e.ip, e.len)}
  {
    hide Held;
    var t' := t[i := e];
    forall k: Key ensures k in Held(t') <==> k in Held(t) || (!Unspecified(e) && k == (e.ip, e.len)) {
      HeldMeans(t, k);
      HeldMeans(t', k);
      if j :| 0 <= j < |t| && Matches(t[j], k.0, k.1) && k.0 != Zero16() {
        assert Matches(t'[j], k.0, k.1);
      }
      if j :| 0 <= j < |t| && Matches(t'[j], k.0, k.1) && j != i {
        assert Matches(t[j], k.0, k.1);
      }
      assert t'[i] == e;
    }
  }

  // A set adds the key, and fails only when it is missing and the table is full.
  lemma SetIsInsert(t: seq<Entry>, p: Parameters)
    requires Unique(t)
    ensures var (t', r) := SetTable(t, p);
      && Unique(t')
      && r == (if (p.ip, p.len) !in Held(t) && |Held(t)| == |t| then Full else Ok)
      && Held(t') == if r == Ok && p.ip != Zero16() then Held(t) + {(p.ip, p.len)} else Held(t)
  {
    hide Held, Place;
    HeldSize(t);
    HeldMeans(t, (p.ip, p.len));
    var place := Place(t, p.ip, p.len);
    if place.Some? {
      HeldUpdate(t, place.value, Merged(t[place.value], p));
    }
  }

  // The entry that then holds the key has every field that was set, and keeps each field that was not;
  // before it held the key or was free, and no other entry changes.
  lemma SetFields(t: seq<Entry>, p: Parameters, i: nat)
    requires Unique(t) && p.ip != Zero16() && SetTable(t, p).1 == Ok
    requires i < |t| && SetTable(t, p).0[i].ip == p.ip && SetTable(t, p).0[i].len == p.len
    ensures var t' := SetTable(t, p).0;
      && t'[i].gateway == (if p.gateway.Some? then p.gateway.value else t[i].gateway)
      && t'[i].mtu == (if p.mtu.Some? then p.mtu.value else t[i].mtu)
      && t'[i].hopLimit == (if p.hopLimit.Some? then p.hopLimit.value else t[i].hopLimit)
      && ((t[i].ip == p.ip && t[i].len == p.len)
          || (t[i].ip == Zero16() && forall j | 0 <= j < i :: t[j].ip != Zero16()))
      && forall j | 0 <= j < |t| && j != i :: t'[j] == t[j]
  {
    hide Place;
    var place := Place(t, p.ip, p.len).value;
    var t' := SetTable(t, p).0;
    SetIsInsert(t, p);
    assert Matches(t'[place], p.ip, p.len);
    assert i == place;
  }

  // A cleared entry has nothing left.
  lemma ClearFields(t: seq<Entry>, ip: Addr, len: int, i: nat)
    requires i < |t|
    ensures var e, now := t[i], ClearTable(t, ip, len)[i];
      if e.ip == ip && e.len == len then
        now.ip == now.gateway == Zero16() && now.len == 0 && now.mtu == 0 && now.hopLimit == 0
      else now == e
  {
  }

  // A clear removes the key.
  lemma ClearIsRemove(t: seq<Entry>, ip: Addr, len: int)
    requires Unique(t)
    ensures Unique(ClearTable(t, ip, len)) && Held(ClearTable(t, ip, len)) == Held(t) - {(ip, len)}
  {
    var t' := ClearTable(t, ip, len);
    forall k: Key ensures k in Held(t') <==> k in Held(t) && k != (ip, len) {
      HeldMeans(t, k);
      HeldMeans(t', k);
      if j :| 0 <= j < |t| && Matches(t[j], k.0, k.1) && k != (ip, len) {
        assert Matches(t'[j], k.0, k.1);
      }
      if j :| 0 <= j < |t| && Matches(t'[j], k.0, k.1) && k.0 != Zero16() {
        assert Matches(t[j], k.0, k.1);
      }
    }
  }

  // The count tells membership.
  lemma {:induction false} FindIsMember(t: seq<Entry>, ip: Addr, len: int)
    requires Unique(t) && ip != Zero16()
    ensures FindCount(t, ip, len) == if (ip, len) in Held(t) then 1 else 0
  {
    HeldMeans(t, (ip, len));
    if t != [] {
      var front, e := t[..|t| - 1], t[|t| - 1];
      FindIsMember(front, ip, len);
      HeldMeans(front, (ip, len));
      if j :| 0 <= j < |front| && Matches(front[j], ip, len) {
        assert Matches(t[j], ip, len);
      }
      if Matches(e, ip, len) {
        assert Matches(t[|t| - 1], ip, len);
      }
    }
  }

  // ---------- Runs ----------

  datatype Op = Set(p: Parameters) | Clear(ip: Addr, len: int)

  function Exec(t: seq<Entry>, ops: seq<Op>): seq<Entry>
    decreases |ops|
  {
    if ops == [] then t
    else
      match ops[0]
      case Set(p) => Exec(SetTable(t, p).0, ops[1..])
      case Clear(ip, len) => Exec(ClearTable(t, ip, len), ops[1..])
  }

  // The same on a set of at most max keys.
  function ExecSet(s: set<Key>, max: nat, ops: seq<Op>): set<Key>
    decreases |ops|
  {
    if ops == [] then s
    else
      match ops[0]
      case Set(p) =>
        var full := (p.ip, p.len) !in s && |s| == max;
        ExecSet(if full || p.ip == Zero16() then s else s + {(p.ip, p.len)}, max, ops[1..])
      case Clear(ip, len) => ExecSet(s - {(ip, len)}, max, ops[1..])
  }

  lemma {:induction false} RunIsBoundedSet(t: seq<Entry>, ops: seq<Op>)
    requires Unique(t)
    ensures Unique(Exec(t, ops)) && Held(Exec(t, ops)) == ExecSet(Held(t), |t|, ops) && |Held(Exec(t, ops))| <= |t|
    decreases |ops|
  {
    hide Unique, Held, SetTable, ClearTable;
    HeldSize(t);
    if ops != [] {
      match ops[0] {
        case Set(p) =>
          SetIsInsert(t, p);
          RunIsBoundedSet(SetTable(t, p).0, ops[1..]);
        case Clear(ip, len) =>
          ClearIsRemove(t, ip, len);
          RunIsBoundedSet(ClearTable(t, ip, len), ops[1..]);
      }
    }
  }

  // From the empty table.
  lemma RunFromEmpty(size: nat, ops: seq<Op>)
    ensures var t := Exec(seq(size, _ => NoEntry()), ops);
      Unique(t) && Held(t) == ExecSet({}, size, ops) && |Held(t)| <= size
  {
    var t := seq(size, _ => NoEntry());
    assert Held(t) == {};
    RunIsBoundedSet(t, ops);
  }
}
