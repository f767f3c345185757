/** VLAN and trunk membership in if_common.c: sync messages change the stored tables, and hooks
    receive join and leave events. */
module Membership {
  import opened Bitmaps

  // ---------- Bitmaps ----------

  function Xor(a: Ports, b: Ports): Ports {
    (a - b) + (b - a)
  }

  // pbmp_sub: (a ^ b) & a.
  function Sub(a: Ports, b: Ports): (r: Ports)
    ensures r == a - b
  {
    Xor(a, b) * a
  }

  // ---------- Tables, messages and events ----------

  datatype VlanInfo = VlanInfo(valid: bool, tagged: Ports, untagged: Ports)

  datatype TrunkInfo = TrunkInfo(member: Ports, lacp: bool)

  datatype Tables = Tables(vlans: seq<VlanInfo>, trunks: seq<TrunkInfo>)

  datatype Message =
    | VlanSync(vid: nat, info: VlanInfo)
    | TrunkSync(tid: nat, ports: Ports, fromLacp: bool)

  datatype Event =
    | Created(vid: nat)
    | Destroyed(vid: nat)
    | Tagged(vid: nat, ports: Ports, join: bool)
    | Untagged(vid: nat, ports: Ports, join: bool)
    | Trunked(tid: nat, ports: Ports, join: bool)

  // Which hooks are registered.
  datatype Hooks = Hooks(create: bool, vlan: bool, trunk: bool)

  predicate ValidVid(t: Tables, vid: nat) {
    1 <= vid <= |t.vlans|
  }

  predicate ValidTid(t: Tables, tid: nat) {
    1 <= tid <= |t.trunks|
  }

  function If(c: bool, e: Event): seq<Event> {
    if c then [e] else []
  }

  function TaggedEvents(vid: nat, was: Ports, now: Ports): seq<Event> {
    If(now - was != {}, Tagged(vid, now - was, true)) + If(was - now != {}, Tagged(vid, was - now, false))
  }

  function UntaggedEvents(vid: nat, was: Ports, now: Ports): seq<Event> {
    If(now - was != {}, Untagged(vid, now - was, true)) + If(was - now != {}, Untagged(vid, was - now, false))
  }

  function MemberEvents(vid: nat, was: VlanInfo, now: VlanInfo): seq<Event> {
    TaggedEvents(vid, was.tagged, now.tagged) + UntaggedEvents(vid, was.untagged, now.untagged)
  }

  // The calls of vlan_change_process, in order.
  function VlanEvents(h: Hooks, vid: nat, was: VlanInfo, now: VlanInfo): seq<Event> {
    If(h.create && now.valid && !was.valid, Created(vid))
    + (if h.vlan then MemberEvents(vid, was, now) else [])
    + If(h.create && was.valid && !now.valid, Destroyed(vid))
  }

  // The calls of trunk_change_process, in order.
  function TrunkEvents(h: Hooks, tid: nat, was: Ports, now: Ports): seq<Event> {
    If(h.trunk && now - was != {}, Trunked(tid, now - was, true))
    + If(h.trunk && was - now != {}, Trunked(tid, was - now, false))
  }

  // The tables after a message; one with an unknown number is refused.
  function Stored(t: Tables, m: Message): Tables {
    match m
    case VlanSync(vid, info) => if ValidVid(t, vid) then t.(vlans := t.vlans[vid - 1 := info]) else t
    case TrunkSync(tid, ports, lacp) =>
      if ValidTid(t, tid) then
        var was := t.trunks[tid - 1];
        t.(trunks := t.trunks[tid - 1 := TrunkInfo(ports, if lacp then ports != {} else was.lacp)])
      else t
  }

  // The hook calls of a message.
  function Emitted(h: Hooks, t: Tables, m: Message): seq<Event> {
    match m
    case VlanSync(vid, info) => if ValidVid(t, vid) then VlanEvents(h, vid, t.vlans[vid - 1], info) else []
    case TrunkSync(tid, ports, _) =>
      if ValidTid(t, tid) then TrunkEvents(h, tid, t.trunks[tid - 1].member, ports) else []
  }

  class Switch {
    const vlans: array<VlanInfo>
    const trunks: array<TrunkInfo>
    const hooks: Hooks
    // Every hook call so far.
    var calls: seq<Event>

    constructor (vlanCount: nat, trunkCount: nat, hooks: Hooks)
      ensures Contents() ==
        Tables(seq(vlanCount, _ => VlanInfo(false, {}, {})), seq(trunkCount, _ => TrunkInfo({}, false)))
      ensures this.hooks == hooks && calls == [] && fresh(vlans) && fresh(trunks)
    {
      vlans := new VlanInfo[vlanCount](_ => VlanInfo(false, {}, {}));
      trunks := new TrunkInfo[trunkCount](_ => TrunkInfo({}, false));
      this.hooks := hooks;
      calls := [];
    }

    ghost function Contents(): Tables
      reads vlans, trunks
    {
      Tables(vlans[..], trunks[..])
    }

    // One hook call, when there is something to tell.
    method Call(due: bool, e: Event)
      modifies this
      ensures calls == old(calls) + If(due, e)
    {
      if due {
        calls := calls + [e];
      }
    }

    method VlanChangeProcess(vid: nat, was: VlanInfo, now: VlanInfo)
      modifies this
      ensures calls == old(calls) + VlanEvents(hooks, vid, was, now)
    {
      hide If;
      var create, destroy := false, false;
      if now.valid != was.valid {
        create := now.valid;
        destroy := !create;
      }
      Call(hooks.create && create, Created(vid));
      if hooks.vlan {
        MembersChange(vid, was, now);
      }
      Call(hooks.create && destroy, Destroyed(vid));
    }

    method MembersChange(vid: nat, was: VlanInfo, now: VlanInfo)
      modifies this
      ensures calls == old(calls) + MemberEvents(vid, was, now)
    {
      hide If;
      var joinT, leaveT := Sub(now.tagged, was.tagged), Sub(was.tagged, now.tagged);
      var joinU, leaveU := Sub(now.untagged, was.untagged), Sub(was.untagged, now.untagged);
      Call(joinT != {}, Tagged(vid, joinT, true));
      Call(leaveT != {}, Tagged(vid, leaveT, false));
      Call(joinU != {}, Untagged(vid, joinU, true));
      Call(leaveU != {}, Untagged(vid, leaveU, false));
    }

    method TrunkChangeProcess(tid: nat, was: Ports, now: Ports)
      modifies this
      ensures calls == old(calls) + TrunkEvents(hooks, tid, was, now)
    {
      if hooks.trunk {
        var join, leave := Sub(now, was), Sub(was, now);
        Call(join != {}, Trunked(tid, join, true));
        Call(leave != {}, Trunked(tid, leave, false));
      }
    }

    // sync_vlan_msg_handle and sync_trunk_msg_handle.
    method Handle(m: Message) returns (ok: bool)
      modifies this, vlans, trunks
      ensures Contents() == Stored(old(Contents()), m)
      ensures calls == old(calls) + Emitted(hooks, old(Contents()), m)
      ensures ok == (if m.VlanSync? then ValidVid(old(Contents()), m.vid) else ValidTid(old(Contents()), m.tid))
    {
      match m {
        case VlanSync(vid, info) =>
          if vid < 1 || vid > vlans.Length {
            return false;
          }
          var was := vlans[vid - 1];
          vlans[vid - 1] := info;
          VlanChangeProcess(vid, was, info);
        case TrunkSync(tid, ports, fromLacp) =>
          if tid < 1 || tid > trunks.Length {
            return false;
          }
          var was := trunks[tid - 1].member;
          trunks[tid - 1] := trunks[tid - 1].(member := ports);
          if fromLacp {
            trunks[tid - 1] := trunks[tid - 1].(lacp := ports != {});
          }
          if was != trunks[tid - 1].member {
            TrunkChangeProcess(tid, was, ports);
          }
      }
      ok := true;
    }
  }

  // ---------- A listener ----------

  // What a listener knows: the VLANs and the members of every trunk.
  datatype View = View(vlans: seq<VlanInfo>, trunks: seq<Ports>)

  function Change(s: Ports, ports: Ports, join: bool): Ports {
    if join then s + ports else s - ports
  }

  function Hear(v: View, e: Event): View {
    match e
    case Created(vid) =>
      if 1 <= vid <= |v.vlans| then v.(vlans := v.vlans[vid - 1 := v.vlans[vid - 1].(valid := true)]) else v
    case Destroyed(vid) =>
      if 1 <= vid <= |v.vlans| then v.(vlans := v.vlans[vid - 1 := v.vlans[vid - 1].(valid := false)]) else v
    case Tagged(vid, ports, join) =>
      if 1 <= vid <= |v.vlans| then
        var i := v.vlans[vid - 1];
        v.(vlans := v.vlans[vid - 1 := i.(tagged := Change(i.tagged, ports, join))])
      else v
    case Untagged(vid, ports, join) =>
      if 1 <= vid <= |v.vlans| then
        var i := v.vlans[vid - 1];
        v.(vlans := v.vlans[vid - 1 := i.(untagged := Change(i.untagged, ports, join))])
      else v
    case Trunked(tid, ports, join) =>
      if 1 <= tid <= |v.trunks| then v.(trunks := v.trunks[tid - 1 := Change(v.trunks[tid - 1], ports, join)]) else v
  }

  function HearAll(v: View, es: seq<Event>): View
    decreases |es|
  {
    if es == [] then v else HearAll(Hear(v, es[0]), es[1..])
  }

  lemma {:induction false} HearAppend(v: View, a: seq<Event>, b: seq<Event>)
    ensures HearAll(v, a + b) == HearAll(HearAll(v, a), b)
    decreases |a|
  {
    if a == [] {
      assert a + b == b;
    } else {
      assert (a + b)[1..] == a[1..] + b;
      HearAppend(Hear(v, a[0]), a[1..], b);
    }
  }

  ghost predicate Agrees(v: View, t: Tables) {
    && v.vlans == t.vlans && |v.trunks| == |t.trunks|
    && forall i | 0 <= i < |t.trunks| :: v.trunks[i] == t.trunks[i].member
  }

  lemma HearIf(v: View, c: bool, e: Event)
    ensures HearAll(v, If(c, e)) == if c then Hear(v, e) else v
  {
    if c {
      assert HearAll(v, [e]) == HearAll(Hear(v, e), []);
    }
  }

  lemma HearTwo(v: View, c: bool, e: Event, d: bool, f: Event)
    ensures HearAll(v, If(c, e) + If(d, f)) ==
      var w := if c then Hear(v, e) else v;
      if d then Hear(w, f) else w
  {
    hide HearAll, If;
    HearAppend(v, If(c, e), If(d, f));
    HearIf(v, c, e);
    HearIf(HearAll(v, If(c, e)), d, f);
  }

  lemma HearTagged(v: View, vid: nat, now: Ports)
    requires 1 <= vid <= |v.vlans|
    ensures var i := v.vlans[vid - 1];
      HearAll(v, TaggedEvents(vid, i.tagged, now)) == v.(vlans := v.vlans[vid - 1 := i.(tagged := now)])
  {
    hide HearAll, If;
    var was := v.vlans[vid - 1].tagged;
    HearTwo(v, now - was != {}, Tagged(vid, now - was, true), was - now != {}, Tagged(vid, was - now, false));
    SetMoves(was, now);
  }

  lemma HearUntagged(v: View, vid: nat, now: Ports)
    requires 1 <= vid <= |v.vlans|
    ensures var i := v.vlans[vid - 1];
      HearAll(v, UntaggedEvents(vid, i.untagged, now)) == v.(vlans := v.vlans[vid - 1 := i.(untagged := now)])
  {
    hide HearAll, If;
    var was := v.vlans[vid - 1].untagged;
    HearTwo(v, now - was != {}, Untagged(vid, now - was, true), was - now != {}, Untagged(vid, was - now, false));
    SetMoves(was, now);
  }

  lemma HearPorts(v: View, tid: nat, ports: Ports, join: bool)
    requires 1 <= tid <= |v.trunks|
    ensures (if ports != {} then Hear(v, Trunked(tid, ports, join)) else v)
      == v.(trunks := v.trunks[tid - 1 := Change(v.trunks[tid - 1], ports, join)])
  {
    if ports == {} {
      assert Change(v.trunks[tid - 1], ports, join) == v.trunks[tid - 1];
      assert v.trunks[tid - 1 := v.trunks[tid - 1]] == v.trunks;
    }
  }

  lemma HearTrunk(v: View, h: Hooks, tid: nat, now: Ports)
    requires 1 <= tid <= |v.trunks| && h.trunk
    ensures HearAll(v, TrunkEvents(h, tid, v.trunks[tid - 1], now)) == v.(trunks := v.trunks[tid - 1 := now])
  {
    hide HearAll, If;
    var was := v.trunks[tid - 1];
    HearTwo(v, now - was != {}, Trunked(tid, now - was, true), was - now != {}, Trunked(tid, was - now, false));
    HearPorts(v, tid, now - was, true);
    var joined := v.(trunks := v.trunks[tid - 1 := was + (now - was)]);
    HearPorts(joined, tid, was - now, false);
    SetMoves(was, now);
    hide Hear;
    assert v.trunks[tid - 1 := was + (now - was)][tid - 1 := now] == v.trunks[tid - 1 := now];
  }

  lemma HearMembers(v: View, vid: nat, was: VlanInfo, now: VlanInfo)
    requires 1 <= vid <= |v.vlans| && v.vlans[vid - 1] == was
    ensures HearAll(v, MemberEvents(vid, was, now))
      == v.(vlans := v.vlans[vid - 1 := now.(valid := was.valid)])
  {
    hide HearAll, If, TaggedEvents, UntaggedEvents;
    var tagged, untagged := TaggedEvents(vid, was.tagged, now.tagged), UntaggedEvents(vid, was.untagged, now.untagged);
    HearAppend(v, tagged, untagged);
    HearTagged(v, vid, now.tagged);
    HearUntagged(HearAll(v, tagged), vid, now.untagged);
  }

  // The events of one VLAN change turn the old entry into the new one.
  lemma HearVlan(v: View, h: Hooks, vid: nat, now: VlanInfo)
    requires 1 <= vid <= |v.vlans| && h.create && h.vlan
    ensures HearAll(v, VlanEvents(h, vid, v.vlans[vid - 1], now)) == v.(vlans := v.vlans[vid - 1 := now])
  {
    hide HearAll, If, TaggedEvents, UntaggedEvents;
    var was := v.vlans[vid - 1];
    var created, gone := If(now.valid && !was.valid, Created(vid)), If(was.valid && !now.valid, Destroyed(vid));
    var members := MemberEvents(vid, was, now);
    HearAppend(v, created + members, gone);
    HearAppend(v, created, members);
    HearIf(v, now.valid && !was.valid, Created(vid));
    var v0 := HearAll(v, created);
    HearMembers(v0, vid, was.(valid := was.valid || now.valid), now);
    HearIf(HearAll(v0, members), was.valid && !now.valid, Destroyed(vid));
  }

  lemma SetMoves(was: Ports, now: Ports)
    ensures was + (now - was) - (was - now) == now
    ensures now - was == {} ==> was + (now - was) == was
    ensures was - now == {} ==> was + (now - was) == now
  {
  }

  // ---------- Runs ----------

  function StoredAll(t: Tables, ms: seq<Message>): Tables
    decreases |ms|
  {
    if ms == [] then t else StoredAll(Stored(t, ms[0]), ms[1..])
  }

  function EmittedAll(h: Hooks, t: Tables, ms: seq<Message>): seq<Event>
    decreases |ms|
  {
    if ms == [] then [] else Emitted(h, t, ms[0]) + EmittedAll(h, Stored(t, ms[0]), ms[1..])
  }

  // A listener that starts in agreement agrees after any messages.
  lemma {:induction false} ListenerAgrees(v: View, h: Hooks, t: Tables, ms: seq<Message>)
    requires Agrees(v, t) && h == Hooks(true, true, true)
    ensures Agrees(HearAll(v, EmittedAll(h, t, ms)), StoredAll(t, ms))
    decreases |ms|
  {
    hide HearAll, Emitted, Stored;
    if ms == [] {
      HearNothing(v);
    } else {
      MessageAgrees(v, h, t, ms[0]);
      HearAppend(v, Emitted(h, t, ms[0]), EmittedAll(h, Stored(t, ms[0]), ms[1..]));
      ListenerAgrees(HearAll(v, Emitted(h, t, ms[0])), h, Stored(t, ms[0]), ms[1..]);
    }
  }

  lemma HearNothing(v: View)
    ensures HearAll(v, []) == v
  {
  }

  lemma MessageAgrees(v: View, h: Hooks, t: Tables, m: Message)
    requires Agrees(v, t) && h == Hooks(true, true, true)
    ensures Agrees(HearAll(v, Emitted(h, t, m)), Stored(t, m))
  {
    hide HearAll, VlanEvents, TrunkEvents;
    HearNothing(v);
    match m {
      case VlanSync(vid, info) =>
        if ValidVid(t, vid) {
          HearVlan(v, h, vid, info);
        }
      case TrunkSync(tid, ports, _) =>
        if ValidTid(t, tid) {
          HearTrunk(v, h, tid, ports);
        }
    }
  }

  // ---------- What is stored after a run ----------

  // What a message decides: the entry of a VLAN, the members of a trunk, or its lacp flag.
  datatype Subject = Vlan(vid: nat) | Members(tid: nat) | Lacp(tid: nat)

  predicate Decides(m: Message, s: Subject) {
    match s
    case Vlan(vid) => m.VlanSync? && m.vid == vid
    case Members(tid) => m.TrunkSync? && m.tid == tid
    case Lacp(tid) => m.TrunkSync? && m.tid == tid && m.fromLacp
  }

  // Message i is the last one that decides; i is |ms| when none does.
  ghost predicate IsLast(ms: seq<Message>, s: Subject, i: nat) {
    && i <= |ms| && (i < |ms| ==> Decides(ms[i], s))
    && forall j | 0 <= j < |ms| && (i == |ms| || j > i) :: !Decides(ms[j], s)
  }

  lemma LastOfRest(ms: seq<Message>, s: Subject, i: nat)
    requires IsLast(ms, s, i) && ms != []
    ensures i == |ms| ==> !Decides(ms[0], s) && IsLast(ms[1..], s, |ms[1..]|)
    ensures 0 < i < |ms| ==> IsLast(ms[1..], s, i - 1) && ms[1..][i - 1] == ms[i]
    ensures i == 0 ==> Decides(ms[0], s) && IsLast(ms[1..], s, |ms[1..]|)
  {
    assert forall j | 0 <= j < |ms[1..]| :: ms[1..][j] == ms[j + 1];
  }

  // Where i is the last message that decides, the tables hold what it says, or with none what they
  // held before; the lacp flag tells whether the ports that LACP sent last are any.
  ghost predicate VlanCounts(was: Tables, ms: seq<Message>, now: Tables, vid: nat, i: nat) {
    1 <= vid <= |was.vlans| == |now.vlans| && IsLast(ms, Vlan(vid), i) ==>
      now.vlans[vid - 1] == if i < |ms| then ms[i].info else was.vlans[vid - 1]
  }

  ghost predicate MembersCount(was: Tables, ms: seq<Message>, now: Tables, tid: nat, i: nat) {
    1 <= tid <= |was.trunks| == |now.trunks| && IsLast(ms, Members(tid), i) ==>
      now.trunks[tid - 1].member == if i < |ms| then ms[i].ports else was.trunks[tid - 1].member
  }

  ghost predicate LacpCounts(was: Tables, ms: seq<Message>, now: Tables, tid: nat, i: nat) {
    1 <= tid <= |was.trunks| == |now.trunks| && IsLast(ms, Lacp(tid), i) ==>
      now.trunks[tid - 1].lacp == if i < |ms| then ms[i].ports != {} else was.trunks[tid - 1].lacp
  }

  ghost predicate LastCounts(was: Tables, ms: seq<Message>, now: Tables) {
    && |now.vlans| == |was.vlans| && |now.trunks| == |was.trunks|
    && (forall vid: nat, i: nat :: VlanCounts(was, ms, now, vid, i))
    && (forall tid: nat, i: nat :: MembersCount(was, ms, now, tid, i) && LacpCounts(was, ms, now, tid, i))
  }

  lemma {:induction false} LastVlanStays(t: Tables, ms: seq<Message>, vid: nat, i: nat)
    requires 1 <= vid <= |t.vlans| && IsLast(ms, Vlan(vid), i)
    ensures |StoredAll(t, ms).vlans| == |t.vlans|
    ensures StoredAll(t, ms).vlans[vid - 1] == if i < |ms| then ms[i].info else t.vlans[vid - 1]
    decreases |ms|
  {
    if ms != [] {
      LastOfRest(ms, Vlan(vid), i);
      LastVlanStays(Stored(t, ms[0]), ms[1..], vid, if 0 < i < |ms| then i - 1 else |ms| - 1);
    }
  }

  lemma {:induction false} LastMembersStay(t: Tables, ms: seq<Message>, tid: nat, i: nat)
    requires 1 <= tid <= |t.trunks| && IsLast(ms, Members(tid), i)
    ensures |StoredAll(t, ms).trunks| == |t.trunks|
    ensures StoredAll(t, ms).trunks[tid - 1].member == if i < |ms| then ms[i].ports else t.trunks[tid - 1].member
    decreases |ms|
  {
    if ms != [] {
      LastOfRest(ms, Members(tid), i);
      LastMembersStay(Stored(t, ms[0]), ms[1..], tid, if 0 < i < |ms| then i - 1 else |ms| - 1);
    }
  }

  lemma {:induction false} LastLacpStays(t: Tables, ms: seq<Message>, tid: nat, i: nat)
    requires 1 <= tid <= |t.trunks| && IsLast(ms, Lacp(tid), i)
    ensures |StoredAll(t, ms).trunks| == |t.trunks|
    ensures StoredAll(t, ms).trunks[tid - 1].lacp == if i < |ms| then ms[i].ports != {} else t.trunks[tid - 1].lacp
    decreases |ms|
  {
    if ms != [] {
      LastOfRest(ms, Lacp(tid), i);
      LastLacpStays(Stored(t, ms[0]), ms[1..], tid, if 0 < i < |ms| then i - 1 else |ms| - 1);
    }
  }

  lemma {:induction false} SizesStay(t: Tables, ms: seq<Message>)
    ensures |StoredAll(t, ms).vlans| == |t.vlans| && |StoredAll(t, ms).trunks| == |t.trunks|
    decreases |ms|
  {
    if ms != [] {
      SizesStay(Stored(t, ms[0]), ms[1..]);
    }
  }

  lemma RunIsStored(t: Tables, ms: seq<Message>)
    ensures LastCounts(t, ms, StoredAll(t, ms))
  {
    hide StoredAll, IsLast;
    SizesStay(t, ms);
    var now := StoredAll(t, ms);
    forall vid: nat, i: nat ensures VlanCounts(t, ms, now, vid, i) {
      if 1 <= vid <= |t.vlans| && IsLast(ms, Vlan(vid), i) {
        LastVlanStays(t, ms, vid, i);
      }
    }
    forall tid: nat, i: nat ensures MembersCount(t, ms, now, tid, i) && LacpCounts(t, ms, now, tid, i) {
      if 1 <= tid <= |t.trunks| && IsLast(ms, Members(tid), i) {
        LastMembersStay(t, ms, tid, i);
      }
      if 1 <= tid <= |t.trunks| && IsLast(ms, Lacp(tid), i) {
        LastLacpStays(t, ms, tid, i);
      }
    }
  }

  // All messages handled in turn by the switch: the tables hold what the last messages said, and a
  // listener that agreed and hears the calls made agrees again.
  method HandleAll(s: Switch, ms: seq<Message>)
    modifies s, s.vlans, s.trunks
    ensures LastCounts(old(s.Contents()), ms, s.Contents())
    ensures old(s.calls) <= s.calls
    ensures s.hooks == Hooks(true, true, true) ==>
      forall v | Agrees(v, old(s.Contents())) :: Agrees(HearAll(v, s.calls[|old(s.calls)|..]), s.Contents())
    ensures s.Contents() == StoredAll(old(s.Contents()), ms)
    ensures s.calls == old(s.calls) + EmittedAll(s.hooks, old(s.Contents()), ms)
  {
    hide Stored, Emitted, HearAll, Agrees, LastCounts;
    ghost var t0, before := s.Contents(), s.calls;
    for i := 0 to |ms|
      invariant StoredAll(s.Contents(), ms[i..]) == StoredAll(t0, ms)
      invariant s.calls + EmittedAll(s.hooks, s.Contents(), ms[i..]) == before + EmittedAll(s.hooks, t0, ms)
    {
      assert ms[i..][1..] == ms[i + 1..];
      var ok := s.Handle(ms[i]);
    }
    assert ms[|ms|..] == [];
    assert s.Contents() == StoredAll(t0, ms);
    RunIsStored(t0, ms);
    ghost var es := EmittedAll(s.hooks, t0, ms);
    assert s.calls == before + es && (before + es)[|before|..] == es;
    forall v | s.hooks == Hooks(true, true, true) && Agrees(v, t0)
      ensures Agrees(HearAll(v, es), s.Contents())
    {
      ListenerAgrees(v, s.hooks, t0, ms);
    }
  }

  // ---------- What the events of one change look like ----------

  predicate TellsMembers(e: Event, vid: nat, was: VlanInfo, now: VlanInfo) {
    match e
    case Tagged(n, ports, join) =>
      n == vid && ports != {} && ports == if join then now.tagged - was.tagged else was.tagged - now.tagged
    case Untagged(n, ports, join) =>
      n == vid && ports != {} && ports == if join then now.untagged - was.untagged else was.untagged - now.untagged
    case _ => false
  }

  lemma MembersTold(vid: nat, was: VlanInfo, now: VlanInfo)
    ensures forall e | e in MemberEvents(vid, was, now) :: TellsMembers(e, vid, was, now)
  {
  }

  // Create comes first and destroy last; joins name only new members, leaves only old ones.
  lemma EventsInOrder(h: Hooks, vid: nat, was: VlanInfo, now: VlanInfo, i: nat)
    requires i < |VlanEvents(h, vid, was, now)|
    ensures var es := VlanEvents(h, vid, was, now);
      || (es[i] == Created(vid) && i == 0 && now.valid && !was.valid)
      || (es[i] == Destroyed(vid) && i == |es| - 1 && was.valid && !now.valid)
      || TellsMembers(es[i], vid, was, now)
  {
    hide TaggedEvents, UntaggedEvents, TellsMembers;
    MembersTold(vid, was, now);
    var members := if h.vlan then MemberEvents(vid, was, now) else [];
    var created := If(h.create && now.valid && !was.valid, Created(vid));
    if |created| <= i < |created| + |members| {
      assert VlanEvents(h, vid, was, now)[i] == members[i - |created|];
    }
  }

  // Nothing is told exactly when nothing changed.
  lemma SilentExactly(h: Hooks, vid: nat, was: VlanInfo, now: VlanInfo)
    requires h.create && h.vlan
    ensures VlanEvents(h, vid, was, now) == [] <==> was == now
  {
  }

  // The same for a trunk: joins before leaves, each with what changed, and nothing for no change.
  lemma TrunkEventsInOrder(h: Hooks, tid: nat, was: Ports, now: Ports)
    ensures var es := TrunkEvents(h, tid, was, now);
      && (forall e | e in es :: e.Trunked? && e.tid == tid && e.ports != {}
           && e.ports == if e.join then now - was else was - now)
      && (forall i, j | 0 <= i < j < |es| :: es[i].join && !es[j].join)
      && (h.trunk ==> (es == [] <==> was == now))
  {
  }

  predicate Heeded(h: Hooks, e: Event) {
    match e
    case Created(_) => h.create
    case Destroyed(_) => h.create
    case Tagged(_, _, _) => h.vlan
    case Untagged(_, _, _) => h.vlan
    case Trunked(_, _, _) => h.trunk
  }

  function Heard(h: Hooks, es: seq<Event>): seq<Event> {
    if es == [] then [] else Heard(h, es[..|es| - 1]) + if Heeded(h, es[|es| - 1]) then [es[|es| - 1]] else []
  }

  lemma {:induction false} HeardAppend(h: Hooks, a: seq<Event>, b: seq<Event>)
    ensures Heard(h, a + b) == Heard(h, a) + Heard(h, b)
    decreases |b|
  {
    hide Heeded;
    if b == [] {
      assert a + b == a;
    } else {
      assert (a + b)[..|a + b| - 1] == a + b[..|b| - 1];
      HeardAppend(h, a, b[..|b| - 1]);
    }
  }

  lemma HeardIf(h: Hooks, c: bool, e: Event)
    ensures Heard(h, If(c, e)) == If(c && Heeded(h, e), e)
  {
    if c {
      assert [e][..0] == [];
    }
  }

  // A switch without some hooks makes the calls to the others, unchanged and in the same order.
  lemma HooksFilter(h: Hooks, vid: nat, was: VlanInfo, now: VlanInfo)
    ensures VlanEvents(h, vid, was, now) == Heard(h, VlanEvents(Hooks(true, true, true), vid, was, now))
  {
    hide Heard, If;
    var created, gone := If(now.valid && !was.valid, Created(vid)), If(was.valid && !now.valid, Destroyed(vid));
    var members := MemberEvents(vid, was, now);
    HeardAppend(h, created + members, gone);
    HeardAppend(h, created, members);
    HeardIf(h, now.valid && !was.valid, Created(vid));
    HeardIf(h, was.valid && !now.valid, Destroyed(vid));
    HeardMembers(h, vid, was, now);
    assert If(false, Created(vid)) == [] && If(false, Destroyed(vid)) == [] by {
      NoEvent(Created(vid));
      NoEvent(Destroyed(vid));
    }
  }

  lemma NoEvent(e: Event)
    ensures If(false, e) == []
  {
  }

  lemma HeardMembers(h: Hooks, vid: nat, was: VlanInfo, now: VlanInfo)
    ensures Heard(h, MemberEvents(vid, was, now)) == if h.vlan then MemberEvents(vid, was, now) else []
  {
    MembersTold(vid, was, now);
    var es := MemberEvents(vid, was, now);
    HeardSame(h, es);
  }

  lemma {:induction false} HeardSame(h: Hooks, es: seq<Event>)
    requires forall e | e in es :: e.Tagged? || e.Untagged?
    ensures Heard(h, es) == if h.vlan then es else []
  {
    if es != [] {
      hide Heard;
      var front, last := es[..|es| - 1], es[|es| - 1];
      assert last in es && forall e | e in front :: e in es;
      HeardSame(h, front);
      HeardLast(h, front, last);
      assert es == front + [last];
    }
  }

  lemma HeardLast(h: Hooks, front: seq<Event>, last: Event)
    ensures Heard(h, front + [last]) == Heard(h, front) + if Heeded(h, last) then [last] else []
  {
    assert (front + [last])[..|front|] == front;
  }

  predicate Separate(v: View, vid: nat) {
    1 <= vid <= |v.vlans| && v.vlans[vid - 1].tagged !! v.vlans[vid - 1].untagged
  }

  // Before, between and after the events no port is seen both tagged and untagged.
  predicate NeverBoth(v: View, es: seq<Event>, vid: nat)
    decreases |es|
  {
    Separate(v, vid) && (es != [] ==> NeverBoth(Hear(v, es[0]), es[1..], vid))
  }

  lemma {:induction false} NeverBothAppend(v: View, a: seq<Event>, b: seq<Event>, vid: nat)
    ensures NeverBoth(v, a + b, vid) <==> NeverBoth(v, a, vid) && NeverBoth(HearAll(v, a), b, vid)
    decreases |a|
  {
    hide Separate;
    if a == [] {
      assert a + b == b;
    } else {
      assert (a + b)[1..] == a[1..] + b;
      NeverBothAppend(Hear(v, a[0]), a[1..], b, vid);
    }
  }

  lemma NeverBothIf(v: View, c: bool, e: Event, vid: nat)
    ensures NeverBoth(v, If(c, e), vid) <==> Separate(v, vid) && (c ==> Separate(Hear(v, e), vid))
  {
    hide Separate;
    if c {
      assert NeverBoth(v, [e], vid) <==> Separate(v, vid) && NeverBoth(Hear(v, e), [], vid);
    }
  }

  lemma NeverBothTwo(v: View, c: bool, e: Event, d: bool, f: Event, vid: nat)
    ensures var w := if c then Hear(v, e) else v;
      NeverBoth(v, If(c, e) + If(d, f), vid) <==>
        Separate(v, vid) && Separate(w, vid) && (d ==> Separate(Hear(w, f), vid))
  {
    hide Separate, HearAll, If;
    NeverBothAppend(v, If(c, e), If(d, f), vid);
    NeverBothIf(v, c, e, vid);
    HearIf(v, c, e);
    NeverBothIf(HearAll(v, If(c, e)), d, f, vid);
  }

  lemma NeverBothTagged(v: View, vid: nat, now: Ports)
    requires Separate(v, vid)
    ensures var i := v.vlans[vid - 1];
      NeverBoth(v, TaggedEvents(vid, i.tagged, now), vid) <==> now !! i.untagged
  {
    hide HearAll, If;
    var was := v.vlans[vid - 1].tagged;
    NeverBothTwo(v, now - was != {}, Tagged(vid, now - was, true), was - now != {}, Tagged(vid, was - now, false), vid);
    SetMoves(was, now);
    SetMeets(was, now, v.vlans[vid - 1].untagged);
  }

  lemma NeverBothUntagged(v: View, vid: nat, now: Ports)
    requires Separate(v, vid) && v.vlans[vid - 1].tagged !! now
    ensures NeverBoth(v, UntaggedEvents(vid, v.vlans[vid - 1].untagged, now), vid)
  {
    hide HearAll, If;
    var was := v.vlans[vid - 1].untagged;
    NeverBothTwo(v, now - was != {}, Untagged(vid, now - was, true),
                 was - now != {}, Untagged(vid, was - now, false), vid);
    SetMoves(was, now);
  }

  lemma SetMeets(was: Ports, now: Ports, others: Ports)
    requires was !! others
    ensures was + (now - was) !! others <==> now !! others
    ensures now - was == {} ==> now !! others
  {
    if !(now !! others) {
      var p :| p in now && p in others;
      assert p in was + (now - was);
    }
  }

  // While the events arrive a port can be seen both tagged and untagged; never, exactly when no
  // port moves from untagged to tagged.
  lemma NeverBothExactly(v: View, h: Hooks, vid: nat, now: VlanInfo)
    requires Separate(v, vid) && h.create && h.vlan && now.tagged !! now.untagged
    ensures NeverBoth(v, VlanEvents(h, vid, v.vlans[vid - 1], now), vid) <==> now.tagged !! v.vlans[vid - 1].untagged
  {
    hide NeverBoth, HearAll, If, TaggedEvents, UntaggedEvents;
    var was := v.vlans[vid - 1];
    var created, gone := If(now.valid && !was.valid, Created(vid)), If(was.valid && !now.valid, Destroyed(vid));
    var tagged, untagged := TaggedEvents(vid, was.tagged, now.tagged), UntaggedEvents(vid, was.untagged, now.untagged);
    NeverBothAppend(v, created + (tagged + untagged), gone, vid);
    NeverBothAppend(v, created, tagged + untagged, vid);
    NeverBothIf(v, now.valid && !was.valid, Created(vid), vid);
    HearIf(v, now.valid && !was.valid, Created(vid));
    var v0 := HearAll(v, created);
    NeverBothAppend(v0, tagged, untagged, vid);
    NeverBothTagged(v0, vid, now.tagged);
    HearTagged(v0, vid, now.tagged);
    if now.tagged !! was.untagged {
      var v1 := HearAll(v0, tagged);
      NeverBothUntagged(v1, vid, now.untagged);
      HearAppend(v, created, tagged + untagged);
      HearMembers(v0, vid, was.(valid := was.valid || now.valid), now);
      NeverBothIf(HearAll(v0, tagged + untagged), was.valid && !now.valid, Destroyed(vid), vid);
    }
  }

  // Port 1 moves from untagged to tagged: after the join it is seen as both.
  lemma SeenBoth()
    ensures var v := View([VlanInfo(true, {}, {1})], []);
      var es := VlanEvents(Hooks(true, true, true), 1, v.vlans[0], VlanInfo(true, {1}, {}));
      && es == [Tagged(1, {1}, true), Untagged(1, {1}, false)]
      && Separate(v, 1) && !Separate(Hear(v, es[0]), 1) && !NeverBoth(v, es, 1)
  {
    var v, now := View([VlanInfo(true, {}, {1})], []), VlanInfo(true, {1}, {});
    assert now.tagged - {} == {1} && {} - now.tagged == {} && {1} - now.untagged == {1} && now.untagged - {1} == {};
    assert 1 in Hear(v, Tagged(1, {1}, true)).vlans[0].tagged * v.vlans[0].untagged;
  }
}
