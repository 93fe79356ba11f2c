/** Endpoint names, the keys of the connection pool. */
module EndpointNames {
  import opened Types
  import opened Scanning

  const PORT_MAX: nat := 0xFFFF

  function NameOf(ip: string, port: nat): string { ip + ":" + Decimal(port) }

  function SetKey(ip: string, port: nat): (k: Key)
    ensures Named(k)
  {
    Key(NameOf(ip, port), ip, port)
  }

  /** The key is named after its own address and port. */
  predicate Named(k: Key) { k.name == k.ip + ":" + Decimal(k.port) }

  /** Two keys of one name are one endpoint. */
  lemma OneEndpoint(k: Key, k': Key)
    requires Named(k) && Named(k') && k.name == k'.name
    ensures k == k'
  {
    hide Decimal;
    NameIsInjective(k.ip, k.port, k'.ip, k'.port);
  }

  /** Builds the name of an endpoint. */
  method MakeName(ip: string, port: nat) returns (name: string)
    requires port <= PORT_MAX
    ensures name == NameOf(ip, port)
  {
    name := ip + ":";
    if port == 0 {
      return name + "0";
    }
    var buf, i := WriteDigits(port);
    name := name + buf[i..7];
  }

  /** Writes the digits of a port backwards into a buffer of eight, which they never overrun. */
  method WriteDigits(port: nat) returns (buf: array<char>, i: nat)
    requires 0 < port <= PORT_MAX
    ensures fresh(buf) && buf.Length == 8 && 2 <= i <= 7 && buf[7] == '\0' && buf[i..7] == Decimal(port)
  {
    hide Decimal;
    buf := new char[8](_ => '\0');
    var p := port;
    i := 7;
    while p != 0
      invariant 2 <= i <= 7 && buf[7] == '\0'
      invariant i == 7 ==> p == port
      invariant i == 6 ==> p <= 6553
      invariant i == 5 ==> p <= 655
      invariant i == 4 ==> p <= 65
      invariant i == 3 ==> p <= 6
      invariant i == 2 ==> p == 0
      invariant Decimal(port) == Leading(p) + buf[i..7]
      decreases p
    {
      ghost var before := buf[i..7];
      i := i - 1;
      buf[i] := '0' + (p % 10) as char;
      assert buf[i..7] == [Digit(p % 10)] + before;
      LeadingStep(p);
      p := p / 10;
    }
  }

  /** The numeral of what is left of a number, nothing if nothing is left. */
  function Leading(p: nat): string { if p == 0 then "" else Decimal(p) }

  lemma LeadingStep(p: nat)
    requires p != 0
    ensures Leading(p) == Leading(p / 10) + [Digit(p % 10)]
  {
  }

  // ---- Taking a name apart.

  function FirstColon(s: string): (i: nat)
    ensures i <= |s| && ':' !in s[..i] && (i < |s| ==> s[i] == ':')
  {
    if s == "" || s[0] == ':' then 0
    else
      var i := 1 + FirstColon(s[1..]);
      assert s[..i] == [s[0]] + s[1..][..i - 1];
      i
  }

  /** White space that pick_name skips. */
  predicate IsBlank(c: char) { c in {' ', '\t', '\r', '\n'} }

  function Trim(s: string): string {
    if s != "" && IsBlank(s[0]) then Trim(s[1..]) else s
  }

  /** The address and port of a name; the port is cut to 16 bits, and 0 if there is no number. */
  function PickNameOf(name: string): Option<(string, nat)> {
    var it := FirstColon(name);
    if it == |name| || it == |name| - 1 then None
    else
      var p := match ScanInt(name[it + 1..]) { case Some((v, _)) => v case None => 0 };
      Some((Trim(name[..it]), p % 0x1_0000))
  }

  method PickName(name: string) returns (endpoint: Option<(string, nat)>)
    ensures endpoint == PickNameOf(name)
  {
    var it := 0;
    while it < |name| && name[it] != ':'
      invariant it <= |name| && ':' !in name[..it]
    {
      it := it + 1;
    }
    FirstColonIs(name, it);
    if it == |name| || it == |name| - 1 {
      return None;
    }
    var s := 0;
    while IsBlank(name[s])
      invariant 0 <= s <= it
      invariant Trim(name[..it]) == Trim(name[s..it])
      decreases it - s
    {
      assert name[s..it][1..] == name[s + 1..it];
      s := s + 1;
    }
    TrimDone(name, s, it);
    var p := match ScanInt(name[it + 1..]) { case Some((v, _)) => v case None => 0 };
    endpoint := Some((name[s..it], p % 0x1_0000));
  }

  lemma TrimDone(name: string, s: nat, it: nat)
    requires s <= it < |name| && !IsBlank(name[s])
    ensures Trim(name[s..it]) == name[s..it]
  {
  }

  lemma FirstColonIs(s: string, i: nat)
    requires i <= |s| && ':' !in s[..i] && (i < |s| ==> s[i] == ':')
    ensures FirstColon(s) == i
  {
    var j := FirstColon(s);
    assert forall k :: 0 <= k < i ==> s[..i][k] == s[k];
    assert forall k :: 0 <= k < j ==> s[..j][k] == s[k];
  }

  // ---- Names identify endpoints.

  lemma NoColonAfter(ip: string, port: nat, k: nat)
    requires |ip| < k < |NameOf(ip, port)|
    ensures NameOf(ip, port)[k] != ':'
  {
    assert NameOf(ip, port)[k] == Decimal(port)[k - |ip| - 1];
    assert Decimal(port)[k - |ip| - 1] in Decimal(port);
  }

  /** Different endpoints have different names, so the pool holds at most one connection to each. */
  lemma NameIsInjective(ip: string, port: nat, ip': string, port': nat)
    requires NameOf(ip, port) == NameOf(ip', port')
    ensures ip == ip' && port == port'
  {
    var s, d, d' := NameOf(ip, port), Decimal(port), Decimal(port');
    assert s == ip' + ":" + d';
    assert s[|ip|] == ':' && s[|ip'|] == ':';
    if |ip| < |ip'| {
      NoColonAfter(ip, port, |ip'|);
    } else if |ip'| < |ip| {
      NoColonAfter(ip', port', |ip|);
    }
    assert d == s[|ip| + 1..];
    assert d' == s[|ip'| + 1..];
    assert ip == s[..|ip|] && ip' == s[..|ip|];
    ValueOfDecimal(port);
    ValueOfDecimal(port');
  }

  lemma {:induction false} TrimIs(s: string)
    ensures Trim(s) == s <==> s == "" || !IsBlank(s[0])
  {
    if s != "" && IsBlank(s[0]) {
      TrimShorter(s[1..]);
    }
  }

  lemma TrimShorter(s: string)
    ensures |Trim(s)| <= |s|
  {
  }

  lemma TrimNoColon(s: string)
    requires ':' !in s
    ensures ':' !in Trim(s)
  {
  }

  /** A name is taken apart into what it was made of exactly when the address has no colon and does
      not start with a blank. */
  lemma PickMakeName(ip: string, port: nat)
    requires port <= PORT_MAX
    ensures PickNameOf(NameOf(ip, port)) == Some((ip, port)) <==> ':' !in ip && (ip == "" || !IsBlank(ip[0]))
  {
    var s := NameOf(ip, port);
    var it := FirstColon(s);
    if ':' in ip {
      assert it <= |s|;
      TrimNoColon(s[..it]);
    } else {
      assert s[..|ip|] == ip;
      FirstColonIs(s, |ip|);
      assert s[it + 1..] == Decimal(port) + "";
      ScanDecimal(port, "");
      TrimIs(ip);
    }
  }
}
