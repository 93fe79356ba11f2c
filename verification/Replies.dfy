/** Server replies and what the client reads out of a CLUSTER SLOTS reply. */
module Replies {
  import opened Types
  import opened Scanning
  import EndpointNames

  /** A parsed server reply. Text is absent when hiredis left the pointer null; array elements may
      be null too, and an array may come without its element pointer. */
  datatype Reply =
    | Integer(integer: int)
    | Text(text: Option<string>)
    | StatusLine(text: Option<string>)
    | ErrorLine(text: Option<string>)
    | Nil
    | Array(elements: seq<Option<Reply>>)
    | BareArray(count: nat)

  /** The TCP peer of the connection a reply came from. */
  datatype Peer = Tcp(host: Option<string>, source: Option<string>) | NotTcp

  /** The C string at the start of a buffer: everything before the first NUL. */
  function CString(s: string): (r: string)
    ensures '\0' !in r && r <= s
    ensures r == s || s[|r|] == '\0'
  {
    if s == [] || s[0] == '\0' then [] else [s[0]] + CString(s[1..])
  }

  lemma CStringWhole(s: string)
    requires '\0' !in s
    ensures CString(s) == s
  {
    hide CString;
    assert |CString(s)| < |s| ==> s[|CString(s)|] in s;
  }

  /** A host name a peer can be addressed by. */
  predicate Usable(host: Option<string>) {
    host.Some? && CString(host.value) != "" && host.value[0] != '?'
  }

  /** The address of the peer itself: its host, else its source address, else nothing. */
  function PeerAddress(rctx: Option<Peer>): string {
    match rctx
    case Some(Tcp(host, source)) =>
      if Usable(host) then CString(host.value)
      else if Usable(source) then CString(source.value)
      else ""
    case _ => ""
  }

  /** The server does not know the address. */
  predicate Unknown(text: string) {
    text != "" && text[0] == '?'
  }

  /** The address and port an endpoint entry stands for, if it can be used. */
  function PickEndpoint(endpoint: Reply, port: Reply, rctx: Option<Peer>): Option<(string, nat)> {
    if !port.Integer? then None
    else if !endpoint.Text? && !endpoint.Nil? then None
    else if endpoint.Text? && endpoint.text.Some? && Unknown(endpoint.text.value) then None
    else
      var given := if endpoint.Text? && endpoint.text.Some? then CString(endpoint.text.value) else "";
      var ip := if given == "" then PeerAddress(rctx) else given;
      if ip == "" || port.integer < 0 || port.integer > 0xFFFF then None
      else Some((ip, port.integer))
  }

  function EndpointOf(entry: Option<Reply>, rctx: Option<Peer>): Option<(string, nat)> {
    if entry.Some? && entry.value.Array? && |entry.value.elements| >= 2
       && entry.value.elements[0].Some? && entry.value.elements[1].Some?
    then PickEndpoint(entry.value.elements[0].value, entry.value.elements[1].value, rctx)
    else None
  }

  /** A range entry that is read at all. */
  predicate WellFormed(range: Option<Reply>) {
    && range.Some? && range.value.Array? && |range.value.elements| >= 3
    && range.value.elements[0].Some? && range.value.elements[0].value.Integer?
    && range.value.elements[1].Some? && range.value.elements[1].value.Integer?
  }

  predicate Covers(range: Option<Reply>, slot: int) {
    && WellFormed(range)
    && range.value.elements[0].value.integer <= slot <= range.value.elements[1].value.integer
  }

  function HostsUpTo(elements: seq<Option<Reply>>, n: nat, rctx: Option<Peer>): seq<Key>
    requires 2 <= n <= |elements|
  {
    if n == 2 then []
    else
      var before := HostsUpTo(elements, n - 1, rctx);
      var endpoint := EndpointOf(elements[n - 1], rctx);
      if endpoint.Some? then before + [EndpointNames.SetKey(endpoint.value.0, endpoint.value.1)] else before
  }

  /** The usable endpoints of a range, in the order of the reply. */
  function HostsOf(range: Reply, rctx: Option<Peer>): seq<Key>
    requires WellFormed(Some(range))
  {
    HostsUpTo(range.elements, |range.elements|, rctx)
  }

  // ---- What a range says, in the terms of the server.

  /** A name or an address of a host: not empty, no NUL, and not the question mark of a server that does not
      know it. */
  predicate Hostname(s: string) {
    s != "" && '\0' !in s && s[0] != '?'
  }

  /** An entry of a range: an address, a port and whatever follows. */
  function Entry(address: Reply, port: int, rest: seq<Option<Reply>>): Option<Reply> {
    Some(Array([Some(address), Some(Integer(port))] + rest))
  }

  /** An entry with an address stands for that address, whoever sent it. */
  lemma AddressRead(text: string, port: nat, rest: seq<Option<Reply>>, rctx: Option<Peer>)
    requires Hostname(CString(text)) && port <= 0xFFFF
    ensures EndpointOf(Entry(Text(Some(text)), port, rest), rctx) == Some((CString(text), port))
  {
    hide CString;
    var e := [Some(Text(Some(text))), Some(Integer(port))] + rest;
    assert e[0] == Some(Text(Some(text))) && e[1] == Some(Integer(port));
    assert text[0] == CString(text)[0];
  }

  /** The entry gives no address. */
  predicate Blank(address: Reply) {
    address == Nil || address == Text(None) || address == Text(Some(""))
  }

  /** Such an entry stands for the host that sent it: the host the connection was made to, else its source
      address; without either it is not used. */
  lemma PeerRead(address: Reply, port: nat, rest: seq<Option<Reply>>, host: Option<string>, source: Option<string>)
    requires Blank(address) && port <= 0xFFFF
    requires (host.Some? ==> '\0' !in host.value) && (source.Some? ==> '\0' !in source.value)
    ensures EndpointOf(Entry(address, port, rest), Some(Tcp(host, source))) ==
      if host.Some? && Hostname(host.value) then Some((host.value, port))
      else if source.Some? && Hostname(source.value) then Some((source.value, port))
      else None
    ensures EndpointOf(Entry(address, port, rest), Some(NotTcp)) == None
    ensures EndpointOf(Entry(address, port, rest), None) == None
  {
    hide CString;
    var e := [Some(address), Some(Integer(port))] + rest;
    assert e[0] == Some(address) && e[1] == Some(Integer(port));
    assert CString("") == "";
    if host.Some? {
      CStringWhole(host.value);
    }
    if source.Some? {
      CStringWhole(source.value);
    }
  }

  /** An entry is not used if its address is unknown or no text, or its port is none. */
  lemma EntrySkipped(address: Reply, port: int, rest: seq<Option<Reply>>, rctx: Option<Peer>)
    requires (address.Text? && address.text.Some? && address.text.value != "" && address.text.value[0] == '?')
      || (!address.Text? && !address.Nil?) || port < 0 || port > 0xFFFF
    ensures EndpointOf(Entry(address, port, rest), rctx) == None
  {
    var e := [Some(address), Some(Integer(port))] + rest;
    assert e[0] == Some(address) && e[1] == Some(Integer(port));
  }

  /** A range of slots with its entries. */
  function RangeOf(first: int, last: int, entries: seq<Option<Reply>>): Option<Reply> {
    Some(Array([Some(Integer(first)), Some(Integer(last))] + entries))
  }

  lemma RangeCovers(first: int, last: int, entries: seq<Option<Reply>>, slot: int)
    ensures Covers(RangeOf(first, last, entries), slot) <==> entries != [] && first <= slot <= last
  {
    var e := [Some(Integer(first)), Some(Integer(last))] + entries;
    assert e[0] == Some(Integer(first)) && e[1] == Some(Integer(last));
  }

  /** The entries count one by one, in the order of the reply; those that are not used leave no gap. */
  lemma RangeNext(first: int, last: int, entries: seq<Option<Reply>>, e: Option<Reply>, rctx: Option<Peer>)
    requires entries != []
    ensures HostsOf(RangeOf(first, last, entries + [e]).value, rctx) ==
      HostsOf(RangeOf(first, last, entries).value, rctx) +
      match EndpointOf(e, rctx) {
        case Some((ip, port)) => [Key(ip + ":" + Decimal(port), ip, port)]
        case None => []
      }
  {
    hide Decimal, EndpointOf;
    var some, all := RangeOf(first, last, entries).value.elements, RangeOf(first, last, entries + [e]).value.elements;
    assert all == some + [e] && some[0] == Some(Integer(first)) && some[1] == Some(Integer(last));
    HostsPrefix(some, [e], |some|, rctx);
  }

  lemma {:induction false} HostsPrefix(elements: seq<Option<Reply>>, more: seq<Option<Reply>>, n: nat,
      rctx: Option<Peer>)
    requires 2 <= n <= |elements|
    ensures HostsUpTo(elements + more, n, rctx) == HostsUpTo(elements, n, rctx)
  {
    hide EndpointOf;
    if n > 2 {
      HostsPrefix(elements, more, n - 1, rctx);
    }
  }

  /** A range of proper entries gives exactly their endpoints, each with its own address and port and named after
      both, in that order. */
  lemma {:induction false} RangeHosts(first: int, last: int, hosts: seq<(string, nat)>, rests: seq<seq<Option<Reply>>>,
      rctx: Option<Peer>)
    requires 0 < |hosts| == |rests|
    requires forall i :: 0 <= i < |hosts| ==> Hostname(hosts[i].0) && hosts[i].1 <= 0xFFFF
    ensures RangeOf(first, last, EntriesOf(hosts, rests)).value.Array?
    ensures HostsOf(RangeOf(first, last, EntriesOf(hosts, rests)).value, rctx) == KeysOf(hosts)
  {
    hide Decimal, EndpointOf, Hostname;
    var n := |hosts| - 1;
    assert EntriesOf(hosts, rests) ==
      EntriesOf(hosts[..n], rests[..n]) + [Entry(Text(Some(hosts[n].0)), hosts[n].1, rests[n])];
    assert KeysOf(hosts) == KeysOf(hosts[..n]) + [Key(hosts[n].0 + ":" + Decimal(hosts[n].1), hosts[n].0, hosts[n].1)];
    var e := Entry(Text(Some(hosts[n].0)), hosts[n].1, rests[n]);
    HostnameRead(hosts[n].0);
    AddressRead(hosts[n].0, hosts[n].1, rests[n], rctx);
    if n > 0 {
      RangeHosts(first, last, hosts[..n], rests[..n], rctx);
      RangeNext(first, last, EntriesOf(hosts[..n], rests[..n]), e, rctx);
    } else {
      FirstEntry(first, last, e, rctx);
      assert EntriesOf(hosts, rests) == [e];
    }
  }

  lemma HostnameRead(s: string)
    requires Hostname(s)
    ensures CString(s) == s
  {
    hide CString;
    CStringWhole(s);
  }

  lemma FirstEntry(first: int, last: int, e: Option<Reply>, rctx: Option<Peer>)
    ensures HostsOf(RangeOf(first, last, [e]).value, rctx) ==
      match EndpointOf(e, rctx) {
        case Some((ip, port)) => [Key(ip + ":" + Decimal(port), ip, port)]
        case None => []
      }
  {
    hide Decimal, EndpointOf;
    var all := RangeOf(first, last, [e]).value.elements;
    assert all[0] == Some(Integer(first)) && all[1] == Some(Integer(last)) && all[2] == e;
    assert HostsUpTo(all, 2, rctx) == [];
  }

  function EntriesOf(hosts: seq<(string, nat)>, rests: seq<seq<Option<Reply>>>): (entries: seq<Option<Reply>>)
    requires |hosts| == |rests|
    ensures |entries| == |hosts|
  {
    seq(|hosts|, i requires 0 <= i < |hosts| => Entry(Text(Some(hosts[i].0)), hosts[i].1, rests[i]))
  }

  /** The keys of the endpoints, named after address and port. */
  function KeysOf(hosts: seq<(string, nat)>): (keys: seq<Key>)
    ensures |keys| == |hosts|
  {
    seq(|hosts|, i requires 0 <= i < |hosts| => Key(hosts[i].0 + ":" + Decimal(hosts[i].1), hosts[i].0, hosts[i].1))
  }

  /** A reply the slot table can be rebuilt from. */
  predicate IsSlotReply(r: Option<Reply>) {
    && r.Some? && r.value.Array? && |r.value.elements| > 0
    && r.value.elements[0].Some? && (r.value.elements[0].value.Array? || r.value.elements[0].value.BareArray?)
  }
}
