/** The table that maps each of the 16384 hash slots to its hosts, master first. */
module SlotTables {
  import opened Types
  import opened Replies
  import EndpointNames

  /** A change of the whole table or of a part of it. */
  datatype Edit =
    | Clear
    | Rebuild(reply: seq<Option<Reply>>, rctx: Option<Peer>)
    | Moved(slot: nat, key: Key)
    | Remove(name: string)

  /** Drops the leading host by moving the last one into its place. */
  function DropLeader(hosts: seq<Key>): seq<Key>
    requires hosts != []
  {
    if |hosts| == 1 then [] else [hosts[|hosts| - 1]] + hosts[1..|hosts| - 1]
  }

  function WithoutLeader(hosts: seq<Key>, name: string): seq<Key> {
    if hosts != [] && hosts[0].name == name then DropLeader(hosts) else hosts
  }

  /** The hosts of the last range that covers `slot`, none if no range does. */
  function LastCovering(ranges: seq<Option<Reply>>, rctx: Option<Peer>, slot: int): seq<Key> {
    if ranges == [] then []
    else if Covers(ranges[|ranges| - 1], slot) then HostsOf(ranges[|ranges| - 1].value, rctx)
    else LastCovering(ranges[..|ranges| - 1], rctx, slot)
  }

  /** What one slot holds after an edit. */
  function Apply(e: Edit, slot: int, hosts: seq<Key>): seq<Key> {
    match e
    case Clear => []
    case Rebuild(ranges, rctx) => LastCovering(ranges, rctx, slot)
    case Moved(s, key) => if s == slot then [key] else hosts
    case Remove(name) => WithoutLeader(hosts, name)
  }

  /** What one slot holds after a history of edits. */
  function Replay(history: seq<Edit>, slot: int): seq<Key> {
    if history == [] then []
    else Apply(history[|history| - 1], slot, Replay(history[..|history| - 1], slot))
  }

  // ---- What the edits come to.

  /** The last range of a reply that covers a slot decides its hosts. */
  lemma {:induction false} LastCoveringDecides(ranges: seq<Option<Reply>>, rctx: Option<Peer>, slot: int, i: nat)
    requires i < |ranges| && Covers(ranges[i], slot)
    requires forall j :: i < j < |ranges| ==> !Covers(ranges[j], slot)
    ensures LastCovering(ranges, rctx, slot) == HostsOf(ranges[i].value, rctx)
  {
    if i < |ranges| - 1 {
      LastCoveringDecides(ranges[..|ranges| - 1], rctx, slot, i);
    }
  }

  /** A slot that no range covers has no host. */
  lemma {:induction false} UncoveredIsEmpty(ranges: seq<Option<Reply>>, rctx: Option<Peer>, slot: int)
    requires forall j :: 0 <= j < |ranges| ==> !Covers(ranges[j], slot)
    ensures LastCovering(ranges, rctx, slot) == []
  {
    if ranges != [] {
      UncoveredIsEmpty(ranges[..|ranges| - 1], rctx, slot);
    }
  }

  /** A slot that a range of proper entries covers, and no range after it, has just the endpoints of that range. */
  lemma RangeRead(before: seq<Option<Reply>>, first: int, last: int, hosts: seq<(string, nat)>,
      rests: seq<seq<Option<Reply>>>, after: seq<Option<Reply>>, rctx: Option<Peer>, slot: int)
    requires 0 < |hosts| == |rests| && first <= slot <= last
    requires forall i :: 0 <= i < |hosts| ==> Hostname(hosts[i].0) && hosts[i].1 <= 0xFFFF
    requires forall range <- after :: !Covers(range, slot)
    ensures LastCovering(before + [RangeOf(first, last, EntriesOf(hosts, rests))] + after, rctx, slot) == KeysOf(hosts)
  {
    hide LastCovering, Covers, Hostname, HostsOf, RangeOf, EntriesOf, KeysOf;
    var range := RangeOf(first, last, EntriesOf(hosts, rests));
    var all, i := before + [range] + after, |before|;
    RangeCovers(first, last, EntriesOf(hosts, rests), slot);
    RangeHosts(first, last, hosts, rests, rctx);
    assert all[i] == range;
    forall j | i < j < |all| ensures !Covers(all[j], slot) {
      assert all[j] == after[j - i - 1] && after[j - i - 1] in after;
    }
    LastCoveringDecides(all, rctx, slot, i);
  }

  predicate Leads(hosts: seq<Key>, name: string) {
    hosts != [] && hosts[0].name == name
  }

  /** A removal takes one occurrence of the host from a slot it leads, and nothing else from any slot. */
  lemma RemovalTakesOne(hosts: seq<Key>, name: string)
    ensures multiset(WithoutLeader(hosts, name)) ==
      if Leads(hosts, name) then multiset(hosts) - multiset{hosts[0]} else multiset(hosts)
  {
    if Leads(hosts, name) {
      var n := |hosts| - 1;
      if n > 0 {
        assert hosts == [hosts[0]] + hosts[1..n] + [hosts[n]];
        assert multiset(hosts) == multiset{hosts[0]} + multiset(hosts[1..n]) + multiset{hosts[n]};
      } else {
        assert hosts == [hosts[0]];
      }
    }
  }

  /** The host leads a slot after its removal just when it stood at the end of the list as well. */
  lemma StillLeads(hosts: seq<Key>, name: string)
    ensures Leads(WithoutLeader(hosts, name), name) <==>
      |hosts| > 1 && Leads(hosts, name) && hosts[|hosts| - 1].name == name
  {
  }

  /** The edit leaves a slot alone that MOVED has assigned to `key`. */
  predicate Spares(e: Edit, slot: nat, key: Key) {
    match e
    case Clear => false
    case Rebuild(_, _) => false
    case Moved(s, _) => s != slot
    case Remove(name) => name != key.name
  }

  /** What MOVED says of a slot holds until the table is rebuilt or cleared, the slot is moved again or the
      host is removed. */
  lemma {:induction false} MovedSticks(h: seq<Edit>, slot: nat, key: Key, later: seq<Edit>)
    requires forall e <- later :: Spares(e, slot, key)
    ensures Replay(h + [Moved(slot, key)] + later, slot) == [key]
  {
    var all := h + [Moved(slot, key)] + later;
    if later == [] {
      assert all[..|all| - 1] == h;
    } else {
      var n := |later| - 1;
      assert all[..|all| - 1] == h + [Moved(slot, key)] + later[..n];
      MovedSticks(h, slot, key, later[..n]);
      assert later[n] in later;
    }
  }

  /** Every host that was moved to a slot is named after its endpoint. */
  predicate KeysNamed(h: seq<Edit>) {
    forall i :: 0 <= i < |h| && h[i].Moved? ==> EndpointNames.Named(h[i].key)
  }

  /** Then so is every host of the table. */
  lemma {:induction false} HostsNamed(h: seq<Edit>, slot: int, k: Key)
    requires KeysNamed(h) && k in Replay(h, slot)
    ensures EndpointNames.Named(k)
  {
    hide EndpointNames.Named;
    var shorter := h[..|h| - 1];
    match h[|h| - 1]
    case Clear =>
    case Rebuild(ranges, rctx) => RangesNamed(ranges, rctx, slot, k);
    case Moved(s, key) =>
      if s != slot {
        HostsNamed(shorter, slot, k);
      }
    case Remove(name) =>
      FewerHosts(Replay(shorter, slot), name, k);
      HostsNamed(shorter, slot, k);
  }

  lemma FewerHosts(hosts: seq<Key>, name: string, k: Key)
    requires k in WithoutLeader(hosts, name)
    ensures k in hosts
  {
  }

  lemma {:induction false} RangesNamed(ranges: seq<Option<Reply>>, rctx: Option<Peer>, slot: int, k: Key)
    requires k in LastCovering(ranges, rctx, slot)
    ensures EndpointNames.Named(k)
  {
    hide EndpointNames.Named;
    var n := |ranges| - 1;
    if Covers(ranges[n], slot) {
      EntriesNamed(ranges[n].value.elements, |ranges[n].value.elements|, rctx, k);
    } else {
      RangesNamed(ranges[..n], rctx, slot, k);
    }
  }

  lemma {:induction false} EntriesNamed(elements: seq<Option<Reply>>, n: nat, rctx: Option<Peer>, k: Key)
    requires 2 <= n <= |elements| && k in HostsUpTo(elements, n, rctx)
    ensures EndpointNames.Named(k)
  {
    if n > 2 && k in HostsUpTo(elements, n - 1, rctx) {
      EntriesNamed(elements, n - 1, rctx, k);
    }
  }

  // ---- What removals leave.

  /** The slot table has lost leaders and nothing else. */
  predicate OnlyRemoved(h: seq<Edit>, h': seq<Edit>) {
    h <= h' && forall i :: |h| <= i < |h'| ==> h'[i].Remove?
  }

  lemma OnlyRemovedTrans(h: seq<Edit>, h': seq<Edit>, h'': seq<Edit>)
    requires OnlyRemoved(h, h') && OnlyRemoved(h', h'')
    ensures OnlyRemoved(h, h'')
  {
    forall i | |h| <= i < |h''| ensures h''[i].Remove? {
      if i < |h'| {
        assert h''[i] == h'[i];
      }
    }
  }

  lemma NothingRemoved(h: seq<Edit>)
    ensures OnlyRemoved(h, h)
  {
  }

  /** The table was rebuilt from the reply, and has lost leaders before and after. */
  ghost predicate Rebuilt(h: seq<Edit>, h': seq<Edit>, ranges: seq<Option<Reply>>, rctx: Option<Peer>) {
    exists k :: |h| <= k < |h'| && OnlyRemoved(h, h'[..k]) && h'[k] == Rebuild(ranges, rctx)
                && OnlyRemoved(h'[..k + 1], h')
  }

  lemma RebuiltAfter(h: seq<Edit>, mid: seq<Edit>, h': seq<Edit>, ranges: seq<Option<Reply>>, rctx: Option<Peer>)
    requires OnlyRemoved(h, mid) && OnlyRemoved(mid + [Rebuild(ranges, rctx)], h')
    ensures Rebuilt(h, h', ranges, rctx)
  {
    var k := |mid|;
    assert h'[..k] == mid && h'[..k + 1] == mid + [Rebuild(ranges, rctx)];
  }

  /** The host leads one of the slots. */
  ghost predicate LeadsSome(h: seq<Edit>, name: string) {
    exists i :: 0 <= i < SLOT_NUMBER && Leads(Replay(h, i), name)
  }

  /** How many hosts the first n slots have together. */
  ghost function HostCount(h: seq<Edit>, n: nat): nat
    decreases n, |h|
  {
    if n == 0 then 0 else HostCount(h, n - 1) + |Replay(h, n - 1)|
  }

  ghost function TotalHosts(h: seq<Edit>): nat {
    HostCount(h, SLOT_NUMBER)
  }

  lemma {:induction false} SlotShrinks(h: seq<Edit>, h': seq<Edit>, slot: int)
    requires OnlyRemoved(h, h')
    ensures |Replay(h', slot)| <= |Replay(h, slot)|
    decreases |h'|
  {
    if |h'| == |h| {
      assert h' == h;
    } else {
      SlotShrinks(h, h'[..|h'| - 1], slot);
      assert h'[|h'| - 1].Remove?;
    }
  }

  lemma {:induction false} CountShrinks(h: seq<Edit>, h': seq<Edit>, n: nat)
    requires OnlyRemoved(h, h')
    ensures HostCount(h', n) <= HostCount(h, n)
  {
    hide OnlyRemoved;
    if n > 0 {
      CountShrinks(h, h', n - 1);
      SlotShrinks(h, h', n - 1);
    }
  }

  lemma LeaderDrops(h: seq<Edit>, name: string, slot: nat)
    requires Leads(Replay(h, slot), name)
    ensures |Replay(h + [Remove(name)], slot)| < |Replay(h, slot)|
  {
    assert (h + [Remove(name)])[..|h|] == h;
  }

  lemma {:induction false} CountDrops(h: seq<Edit>, name: string, slot: nat, n: nat)
    requires slot < n && Leads(Replay(h, slot), name)
    ensures HostCount(h + [Remove(name)], n) < HostCount(h, n)
  {
    hide Replay, Leads;
    var h' := h + [Remove(name)];
    if slot == n - 1 {
      CountShrinks(h, h', n - 1);
      LeaderDrops(h, name, slot);
    } else {
      CountDrops(h, name, slot, n - 1);
      SlotShrinks(h, h', n - 1);
    }
  }

  lemma RemovalsShrink(h: seq<Edit>, h': seq<Edit>)
    requires OnlyRemoved(h, h')
    ensures TotalHosts(h') <= TotalHosts(h)
  {
    CountShrinks(h, h', SLOT_NUMBER);
  }

  /** The slots have fewer hosts in all once one that leads a slot was removed. */
  lemma LeaderGone(h: seq<Edit>, name: string, h': seq<Edit>)
    requires OnlyRemoved(h + [Remove(name)], h')
    ensures TotalHosts(h') <= TotalHosts(h)
    ensures LeadsSome(h, name) ==> TotalHosts(h') < TotalHosts(h)
  {
    hide TotalHosts;
    RemovalsShrink(h + [Remove(name)], h');
    RemovalsShrink(h, h + [Remove(name)]);
    if LeadsSome(h, name) {
      var i :| 0 <= i < SLOT_NUMBER && Leads(Replay(h, i), name);
      RemovalDrops(h, name, i);
    }
  }

  lemma RemovalDrops(h: seq<Edit>, name: string, slot: nat)
    requires slot < SLOT_NUMBER && Leads(Replay(h, slot), name)
    ensures TotalHosts(h + [Remove(name)]) < TotalHosts(h)
  {
    CountDrops(h, name, slot, SLOT_NUMBER);
  }

  lemma OtherStays(hosts: seq<Key>, name: string, k: Key)
    requires k in hosts && k.name != name
    ensures k in WithoutLeader(hosts, name)
  {
    if Leads(hosts, name) {
      var j :| 0 <= j < |hosts| && hosts[j] == k;
      if j < |hosts| - 1 {
        assert DropLeader(hosts)[j] == k;
      } else {
        assert DropLeader(hosts)[0] == k;
      }
    }
  }

  /** Removals keep every host of another name. */
  lemma {:induction false} HostStays(h: seq<Edit>, h': seq<Edit>, slot: int, k: Key)
    requires OnlyRemoved(h, h') && k in Replay(h, slot)
    requires forall i :: |h| <= i < |h'| ==> h'[i].name != k.name
    ensures k in Replay(h', slot)
    decreases |h'|
  {
    if |h'| == |h| {
      assert h' == h;
    } else {
      var shorter := h'[..|h'| - 1];
      HostStays(h, shorter, slot, k);
      OtherStays(Replay(shorter, slot), h'[|h'| - 1].name, k);
    }
  }

  class SlotTable {
    const hosts: array<seq<Key>>
    ghost var history: seq<Edit>

    ghost predicate Valid()
      reads this, hosts
    {
      && hosts.Length == SLOT_NUMBER
      && KeysNamed(history)
      && forall s :: 0 <= s < SLOT_NUMBER ==> hosts[s] == Replay(history, s)
    }

    constructor ()
      ensures Valid() && history == [] && fresh(hosts)
    {
      hosts := new seq<Key>[SLOT_NUMBER](_ => []);
      history := [];
    }

    method Clear()
      requires Valid()
      modifies this, hosts
      ensures Valid() && history == old(history) + [Edit.Clear]
    {
      for i := 0 to SLOT_NUMBER
        modifies hosts
        invariant forall s :: 0 <= s < i ==> hosts[s] == []
      {
        hosts[i] := [];
      }
      history := history + [Edit.Clear];
    }

    method Move(slot: nat, key: Key)
      requires Valid() && slot < SLOT_NUMBER && EndpointNames.Named(key)
      modifies this, hosts
      ensures Valid() && history == old(history) + [Moved(slot, key)]
      ensures hosts[slot] == [key] && forall s :: 0 <= s < SLOT_NUMBER && s != slot ==> hosts[s] == old(hosts[s])
    {
      hosts[slot] := [];
      hosts[slot] := hosts[slot] + [key];
      history := history + [Moved(slot, key)];
    }

    /** Takes the named host out of every slot it leads. */
    method RemoveKey(name: string)
      requires Valid()
      modifies this, hosts
      ensures Valid() && history == old(history) + [Remove(name)]
      ensures forall s :: 0 <= s < SLOT_NUMBER ==> hosts[s] == WithoutLeader(old(hosts[s]), name)
    {
      for i := 0 to SLOT_NUMBER
        modifies hosts
        invariant forall s :: 0 <= s < i ==> hosts[s] == WithoutLeader(old(hosts[s]), name)
        invariant forall s :: i <= s < SLOT_NUMBER ==> hosts[s] == old(hosts[s])
      {
        if hosts[i] != [] && hosts[i][0].name == name {
          var rest := PopLeader(hosts[i]);
          hosts[i] := rest;
        }
      }
      history := history + [Remove(name)];
    }

    /** Until then every lookup of the slot yields the host that MOVED named. */
    lemma MovedHolds(h: seq<Edit>, slot: nat, key: Key, later: seq<Edit>)
      requires Valid() && slot < SLOT_NUMBER && history == h + [Moved(slot, key)] + later
      requires forall e <- later :: Spares(e, slot, key)
      ensures hosts[slot] == [key]
    {
      hide Replay, Spares;
      MovedSticks(h, slot, key, later);
    }

    /** Swaps the leading host with the last one and takes it off the end. */
    static method PopLeader(list: seq<Key>) returns (rest: seq<Key>)
      requires list != []
      ensures rest == DropLeader(list)
    {
      rest := list;
      if |rest| > 1 {
        rest := rest[0 := list[|list| - 1]][|list| - 1 := list[0]];
      }
      rest := rest[..|rest| - 1];
    }

    /** Rewrites the whole table from a CLUSTER SLOTS reply. */
    method Rebuild(ranges: seq<Option<Reply>>, rctx: Option<Peer>)
      requires Valid()
      modifies this, hosts
      ensures Valid() && history == old(history) + [Edit.Rebuild(ranges, rctx)]
      ensures forall s :: 0 <= s < SLOT_NUMBER ==> hosts[s] == LastCovering(ranges, rctx, s)
    {
      hide LastCovering;
      Rewrite(ranges, rctx);
      history := history + [Edit.Rebuild(ranges, rctx)];
    }

    method Rewrite(ranges: seq<Option<Reply>>, rctx: Option<Peer>)
      requires hosts.Length == SLOT_NUMBER
      modifies hosts
      ensures forall s :: 0 <= s < SLOT_NUMBER ==> hosts[s] == LastCovering(ranges, rctx, s)
    {
      for i := 0 to SLOT_NUMBER
        invariant forall s :: 0 <= s < i ==> hosts[s] == []
      {
        hosts[i] := [];
      }
      for i := 0 to |ranges|
        invariant forall s :: 0 <= s < SLOT_NUMBER ==> hosts[s] == LastCovering(ranges[..i], rctx, s)
      {
        assert ranges[..i + 1][..i] == ranges[..i];
        if ranges[i].None? || !ranges[i].value.Array? || |ranges[i].value.elements| < 3 {
          continue;
        }
        var first, last := ranges[i].value.elements[0], ranges[i].value.elements[1];
        if first.None? || !first.value.Integer? || last.None? || !last.value.Integer? {
          continue;
        }
        RebuildRange(ranges[i].value, rctx);
      }
      assert ranges[..|ranges|] == ranges;
    }

    /** Writes one range: its ends are clamped to the table, then every slot in it is overwritten. */
    method RebuildRange(range: Reply, rctx: Option<Peer>)
      requires hosts.Length == SLOT_NUMBER && WellFormed(Some(range))
      modifies hosts
      ensures forall s :: 0 <= s < SLOT_NUMBER ==>
        hosts[s] == if Covers(Some(range), s) then HostsOf(range, rctx) else old(hosts[s])
    {
      var si, ei := range.elements[0].value.integer, range.elements[1].value.integer;
      if si < 0 {
        si := 0;
      }
      if ei >= SLOT_NUMBER {
        ei := SLOT_NUMBER - 1;
      }
      if si > ei {
        return;
      }
      var found := PickHosts(range, rctx);
      ghost var first := si;
      while si <= ei
        invariant first <= si <= ei + 1
        invariant forall s :: 0 <= s < SLOT_NUMBER ==>
          hosts[s] == if first <= s < si then found else old(hosts[s])
      {
        hosts[si] := found;
        si := si + 1;
      }
    }

    /** Reads the address and the port of an entry. An entry without an address stands for the peer. */
    static method PickEndpointOf(rctx: Option<Peer>, endpoint: Option<Reply>, port: Option<Reply>)
      returns (ok: bool, ip: string, portNumber: nat)
      ensures ok <==> endpoint.Some? && port.Some? && PickEndpoint(endpoint.value, port.value, rctx).Some?
      ensures ok ==> PickEndpoint(endpoint.value, port.value, rctx) == Some((ip, portNumber))
    {
      hide CString;
      ok, ip, portNumber := false, "", 0;
      if endpoint.None? || port.None? || !port.value.Integer? {
        return;
      }
      match endpoint.value {
        case Text(text) =>
          if text.Some? && text.value != "" && text.value[0] == '?' {
            return;
          }
          if text.Some? {
            ip := CString(text.value);
          }
        case Nil =>
        case _ => return;
      }
      if ip == "" && rctx.Some? && rctx.value.Tcp? {
        var host, source := rctx.value.host, rctx.value.source;
        if host.Some? && CString(host.value) != "" && host.value[0] != '?' {
          ip := CString(host.value);
        } else if source.Some? && CString(source.value) != "" && source.value[0] != '?' {
          ip := CString(source.value);
        }
      }
      if ip == "" || port.value.integer < 0 || port.value.integer > 0xFFFF {
        return;
      }
      ok, portNumber := true, port.value.integer;
    }

    /** Collects the usable endpoints of one range, in the order of the reply. */
    method PickHosts(range: Reply, rctx: Option<Peer>) returns (found: seq<Key>)
      requires WellFormed(Some(range))
      ensures found == HostsOf(range, rctx)
    {
      found := [];
      for j := 2 to |range.elements|
        invariant found == HostsUpTo(range.elements, j, rctx)
      {
        var entry := range.elements[j];
        if entry.Some? && entry.value.Array? && |entry.value.elements| >= 2 {
          var ok, ip, port := PickEndpointOf(rctx, entry.value.elements[0], entry.value.elements[1]);
          if ok {
            found := found + [EndpointNames.SetKey(ip, port)];
          }
        }
      }
    }
  }
}
