/** Commands on the wire: a RESP array of bulk strings, and how its arguments are picked out again. A
    character stands for a byte. */
module Resp {
  import opened Types
  import opened Scanning

  const CRLF: string := "\r\n"

  // ---- The C library's string functions. A buffer ends with a NUL that is not part of it.

  /** Where the C string that starts at `from` first holds c. */
  function StrChr(s: string, from: nat, c: char): (r: Option<nat>)
    requires from <= |s|
    ensures r.Some? ==> from <= r.value < |s| && s[r.value] == c && c !in s[from..r.value]
    decreases |s| - from
  {
    if from == |s| then None
    else if s[from] == c then Some(from)
    else if s[from] == '\0' then None
    else
      var r := StrChr(s, from + 1, c);
      assert r.Some? ==> s[from..r.value] == [s[from]] + s[from + 1..r.value];
      r
  }

  const LONG_MAX: int := 0x7FFF_FFFF_FFFF_FFFF

  /** The number at the start of a text, cut to the range of long; 0 if there is none. */
  function StrToL(s: string): (v: int)
    ensures -LONG_MAX - 1 <= v <= LONG_MAX
  {
    match ScanInt(s)
    case None => 0
    case Some((v, _)) => if v > LONG_MAX then LONG_MAX else if v < -LONG_MAX - 1 then -LONG_MAX - 1 else v
  }

  /** A long as a size_t. */
  function SizeT(v: int): (n: nat)
    ensures 0 <= v <= LONG_MAX ==> n == v
  {
    v % 0x1_0000_0000_0000_0000
  }

  // ---- Picking arguments.

  /** The result of picking: nothing is left, an argument and where to go on, or the length is not
      followed by a line end, which the program asserts never happens. */
  datatype Picked = Nothing | Argument(str: nat, len: nat, next: nat) | Broken

  function PickedAt(s: string, start: nat): Picked
    requires start <= |s|
  {
    match StrChr(s, start, '$')
    case None => Nothing
    case Some(dollar) =>
      match StrChr(s, dollar, '\r')
      case None => Broken
      case Some(end) =>
        var len := SizeT(StrToL(s[dollar + 1..]));
        Argument(end + 2, len, end + 2 + len + 2)
  }

  method FindChar(s: string, from: nat, c: char) returns (r: Option<nat>)
    requires from <= |s|
    ensures r == StrChr(s, from, c)
  {
    var i := from;
    while i < |s| && s[i] != c && s[i] != '\0'
      invariant from <= i <= |s| && StrChr(s, from, c) == StrChr(s, i, c)
    {
      i := i + 1;
    }
    r := if i < |s| && s[i] == c then Some(i) else None;
  }

  /** Picks the argument at or after `start`, the first one if there is no `start`. */
  method PickArgument(content: Option<string>, start: Option<nat>) returns (r: Picked)
    requires content.Some? && start.Some? ==> start.value <= |content.value|
    ensures content.None? ==> r == Nothing
    ensures content.Some? ==> r == PickedAt(content.value, if start.Some? then start.value else 0)
  {
    hide ScanInt, StrToL, SizeT;
    if content.None? {
      return Nothing;
    }
    var s := content.value;
    var from := if start.Some? then start.value else 0;
    if from == |s| || s[from] != '$' {
      var dollar := FindChar(s, from, '$');
      if dollar.None? {
        return Nothing;
      }
      from := dollar.value;
    }
    var len := SizeT(StrToL(s[from + 1..]));
    var end := FindChar(s, from, '\r');
    if end.None? {
      return Broken;
    }
    r := Argument(end.value + 2, len, end.value + 2 + len + 2);
  }

  method PickCmd(content: Option<string>) returns (r: Picked)
    ensures content.None? ==> r == Nothing
    ensures content.Some? ==> r == PickedAt(content.value, 0)
  {
    r := PickArgument(content, None);
  }

  /** All arguments from `start` on, if they lie within the buffer. */
  function PickAll(s: string, start: nat): Option<seq<string>>
    requires start <= |s|
    decreases |s| - start
  {
    match PickedAt(s, start)
    case Nothing => Some([])
    case Broken => None
    case Argument(str, len, next) =>
      if next > |s| then None
      else match PickAll(s, next) {
        case None => None
        case Some(rest) => Some([s[str..str + len]] + rest)
      }
  }

  /** Picks the command and then one argument after the other, until nothing is left. */
  method PickArguments(content: string) returns (args: Option<seq<string>>)
    ensures args == PickAll(content, 0)
  {
    hide PickedAt;
    var picked: seq<string> := [];
    var r := PickCmd(Some(content));
    ghost var start: nat := 0;
    while r.Argument?
      invariant start <= |content| && r == PickedAt(content, start)
      invariant PickAll(content, 0) == Prefixed(picked, PickAll(content, start))
      decreases |content| - start
    {
      if r.next > |content| {
        return None;
      }
      PickAdvances(content, start);
      PickPrefixed(picked, content, start);
      picked := picked + [content[r.str..r.str + r.len]];
      start := r.next;
      r := PickArgument(Some(content), Some(r.next));
    }
    args := if r.Nothing? then Some(picked) else None;
  }

  function Prefixed(args: seq<string>, rest: Option<seq<string>>): (all: Option<seq<string>>)
    ensures args == [] ==> all == rest
    ensures rest == Some([]) ==> all == Some(args)
  {
    match rest
    case None => None
    case Some(more) =>
      assert [] + more == more && args + [] == args;
      Some(args + more)
  }

  lemma PickAdvances(s: string, start: nat)
    requires start <= |s| && PickedAt(s, start).Argument?
    ensures var r := PickedAt(s, start); start < r.next && r.next == r.str + r.len + 2
  {
  }

  lemma PickPrefixed(args: seq<string>, s: string, start: nat)
    requires start <= |s| && PickedAt(s, start).Argument? && PickedAt(s, start).next <= |s|
    ensures var r := PickedAt(s, start);
      r.str + r.len <= |s|
      && Prefixed(args, PickAll(s, start)) == Prefixed(args + [s[r.str..r.str + r.len]], PickAll(s, r.next))
  {
    hide PickedAt;
    PickAdvances(s, start);
    var r := PickedAt(s, start);
    var rest := PickAll(s, r.next);
    if rest.Some? {
      var arg := s[r.str..r.str + r.len];
      assert args + ([arg] + rest.value) == args + [arg] + rest.value;
    }
  }

  // ---- The encoding, and the round trip.

  function Bulk(arg: string): string {
    "$" + Decimal(|arg|) + CRLF + arg + CRLF
  }

  function Bulks(args: seq<string>): string {
    if args == [] then "" else Bulk(args[0]) + Bulks(args[1..])
  }

  /** A command as it goes over the wire. */
  function Encode(args: seq<string>): string {
    "*" + Decimal(|args|) + CRLF + Bulks(args)
  }

  /** No argument is longer than a long can say. */
  predicate Sendable(args: seq<string>) {
    forall a <- args :: |a| <= LONG_MAX
  }

  lemma {:induction false} StrChrIs(s: string, from: nat, c: char, at: nat)
    requires from <= at < |s| && s[at] == c && forall i :: from <= i < at ==> s[i] != c && s[i] != '\0'
    ensures StrChr(s, from, c) == Some(at)
    decreases at - from
  {
    if from < at {
      StrChrIs(s, from + 1, c, at);
    }
  }

  lemma DecimalPlain(n: nat, i: nat)
    requires i < |Decimal(n)|
    ensures Decimal(n)[i] !in {'$', '\r', '\0'}
  {
    assert Decimal(n)[i] in Decimal(n);
  }

  /** An argument is found by its dollar sign, and its length by the line end after it. */
  lemma PickedAtIs(s: string, start: nat, dollar: nat, len: nat, rest: string)
    requires start <= dollar < |s| && s[dollar] == '$' && forall i :: start <= i < dollar ==>
      s[i] != '$' && s[i] != '\0'
    requires len <= LONG_MAX && s[dollar + 1..] == Decimal(len) + rest && rest != "" && rest[0] == '\r'
    ensures PickedAt(s, start) == Argument(dollar + |Decimal(len)| + 3, len, dollar + |Decimal(len)| + 3 + len + 2)
  {
    hide Decimal, StrChr, ScanInt;
    var end := dollar + 1 + |Decimal(len)|;
    assert s[dollar + 1..][|Decimal(len)|] == s[end] == '\r';
    forall i | dollar <= i < end ensures s[i] != '\r' && s[i] != '\0' {
      if i > dollar {
        assert s[i] == s[dollar + 1..][i - dollar - 1] == Decimal(len)[i - dollar - 1];
        DecimalPlain(len, i - dollar - 1);
      }
    }
    StrChrIs(s, start, '$', dollar);
    StrChrIs(s, dollar, '\r', end);
    ScanDecimal(len, rest);
  }

  /** A bulk string is picked whole, whatever it holds and whatever follows. */
  lemma PickBulk(before: string, start: nat, arg: string, after: string)
    requires |arg| <= LONG_MAX && start <= |before|
    requires forall i :: start <= i < |before| ==> before[i] != '$' && before[i] != '\0'
    ensures var s := before + Bulk(arg) + after; var next := |before| + |Bulk(arg)|;
      PickedAt(s, start) == Argument(next - |arg| - 2, |arg|, next) && s[next - |arg| - 2..next - 2] == arg
  {
    hide Decimal, PickedAt;
    var s, n, rest := before + Bulk(arg) + after, Decimal(|arg|), CRLF + arg + CRLF + after;
    assert s == before + (['$'] + (n + rest));
    assert s[|before| + 1..] == n + rest;
    PickedAtIs(s, start, |before|, |arg|, rest);
    var at := |before| + 1 + |n| + 2;
    assert s == (before + ['$'] + n + CRLF) + arg + (CRLF + after);
    assert s[at..at + |arg|] == arg;
  }

  lemma PickStep(s: string, start: nat, arg: string, next: nat, rest: seq<string>)
    requires start <= |s| && start < next <= |s| && |arg| + 2 <= next
    requires PickedAt(s, start) == Argument(next - |arg| - 2, |arg|, next) && s[next - |arg| - 2..next - 2] == arg
    requires PickAll(s, next) == Some(rest)
    ensures PickAll(s, start) == Some([arg] + rest)
  {
    hide PickedAt;
  }

  lemma {:induction false} PickBulks(before: string, start: nat, args: seq<string>)
    requires Sendable(args) && start <= |before|
    requires forall i :: start <= i < |before| ==> before[i] != '$' && before[i] != '\0'
    ensures PickAll(before + Bulks(args), start) == Some(args)
    decreases |args|
  {
    hide Bulk, PickedAt, PickAll;
    if args == [] {
      assert before + Bulks(args) == before;
      NothingLeft(before, start);
    } else {
      var arg, rest := args[0], args[1..];
      var b := before + Bulk(arg);
      assert before + Bulks(args) == b + Bulks(rest);
      PickBulk(before, start, arg, Bulks(rest));
      BulkLength(arg);
      PickBulks(b, |b|, rest);
      PickStep(b + Bulks(rest), start, arg, |b|, rest);
      assert [arg] + rest == args;
    }
  }

  lemma BulkLength(arg: string)
    ensures |Bulk(arg)| >= |arg| + 2
  {
  }

  lemma {:induction false} NothingLeft(s: string, start: nat)
    requires start <= |s| && forall i :: start <= i < |s| ==> s[i] != '$'
    ensures PickAll(s, start) == Some([])
    decreases |s| - start
  {
    if start < |s| {
      NothingLeft(s, start + 1);
    }
  }

  /** Whatever the arguments hold, they are picked in order and whole, and then nothing is left. */
  lemma PickAllEncode(args: seq<string>)
    requires Sendable(args)
    ensures PickAll(Encode(args), 0) == Some(args)
  {
    hide Decimal;
    var head := "*" + Decimal(|args|) + CRLF;
    forall i | 0 <= i < |head| ensures head[i] != '$' && head[i] != '\0' {
      if 1 <= i <= |Decimal(|args|)| {
        assert head[i] == Decimal(|args|)[i - 1];
        DecimalPlain(|args|, i - 1);
      }
    }
    PickBulks(head, 0, args);
  }
}
