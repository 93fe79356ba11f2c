/** A connection by itself, in every state a caller can find it in. The callbacks of its commands may
    submit further commands to it. The cluster client embeds the same state, as ConnState, in its pool. */
module ConnectionObjects {
  import opened Types
  import opened Connections

  /** A command's callback was called with a code. */
  datatype Call = Call(cmd: CmdId, code: Code)

  function CallAll(list: seq<CmdId>, code: Code): (calls: seq<Call>)
    ensures |calls| == |list|
  {
    seq(|list|, i requires 0 <= i < |list| => Call(list[i], code))
  }

  lemma CallAllNext(list: seq<CmdId>, k: nat, code: Code)
    requires k < |list|
    ensures CallAll(list[..k + 1], code) == CallAll(list[..k], code) + [Call(list[k], code)]
  {
  }

  /** What is left of a list whose first k commands were taken off, with new commands after it. */
  predicate Left(list: seq<CmdId>, k: nat, now: seq<CmdId>, next: nat) {
    k <= |list| && list[k..] <= now && forall j :: |list| - k <= j < |now| ==> next <= now[j]
  }

  lemma LeftNext(list: seq<CmdId>, k: nat, now: seq<CmdId>, later: seq<CmdId>, next: nat, next': nat)
    requires Left(list, k, now, next) && k < |list| && now != [] && now[1..] <= later && next <= next'
    requires forall j :: |now| - 1 <= j < |later| ==> next' <= later[j]
    ensures now[0] == list[k] && Left(list, k + 1, later, next)
  {
    assert list[k..][0] == list[k];
    assert list[k..][1..] == list[k + 1..];
    assert forall j :: 0 <= j < |now| - 1 ==> later[j] == now[1..][j] == now[j + 1];
  }

  lemma LeftWhole(list: seq<CmdId>, next: nat)
    ensures Left(list, 0, list, next)
  {
  }

  /** Commands that were submitted since. */
  predicate Since(list: seq<CmdId>, from: nat) {
    forall c <- list :: from <= c
  }

  lemma LeftFront(list: seq<CmdId>, k: nat, now: seq<CmdId>, next: nat, i: nat)
    requires Left(list, k, now, next) && k <= i < |list|
    requires list[i] !in list[..i]
    ensures now != [] && now[0] == list[k] && (now[0] == list[i] <==> k == i)
  {
    assert list[k..][0] == list[k];
    assert k < i ==> list[..i][k] == list[k];
  }

  class Connection {
    const key: Key
    var status: Status
    var context: Option<Context>
    var sequence: nat
    var replyList: seq<CmdId>

    // The process-wide sequence counter, the callbacks called so far, the number of the next command
    // a callback submits and how many they will still submit.
    var alloc: nat
    ghost var calls: seq<Call>
    var next: nat
    var budget: nat

    ghost function State(): ConnState
      reads this
    {
      ConnState(key, status, context, sequence, replyList)
    }

    /** The sequence was drawn from the counter, a connection in use has a context, and submitted
        commands are not numbered anew. */
    ghost predicate Valid()
      reads this
    {
      && 0 < sequence < alloc
      && (status != DISCONNECTED ==> context.Some?)
      && forall i :: 0 <= i < |replyList| ==> replyList[i] < next
    }

    constructor (key: Key, alloc: nat, next: nat, budget: nat)
      ensures Valid() && status == DISCONNECTED && context.None? && replyList == [] && calls == []
      ensures alloc <= sequence
    {
      var drawn, after := MakeSequence(alloc);
      this.key, status, context, replyList, calls := key, DISCONNECTED, None, [], [];
      sequence, this.alloc, this.next, this.budget := drawn, after, next, budget;
    }

    /** A context is attached, unless a connection attempt is under way or the context is there already. */
    method SetConnecting(c: Option<Context>) returns (was: Status)
      requires Valid()
      modifies this`status, this`context, this`sequence, this`alloc
      ensures Valid() && was == old(status)
      ensures c.None? || was == CONNECTING || c == old(context) ==> State() == old(State())
      ensures c.Some? && was != CONNECTING && c != old(context) ==>
        State() == old(State()).(status := CONNECTING, context := c, sequence := sequence) && old(alloc) <= sequence
    {
      was := status;
      if c.None? || status == CONNECTING || c == context {
        return;
      }
      context, status := c, CONNECTING;
      sequence, alloc := MakeSequence(alloc);
    }

    /** The attempt succeeded. */
    method SetConnected() returns (was: Status)
      requires Valid()
      modifies this`status, this`sequence, this`alloc
      ensures Valid() && was == old(status)
      ensures was != CONNECTING ==> State() == old(State())
      ensures was == CONNECTING ==>
        State() == old(State()).(status := CONNECTED, sequence := sequence) && old(alloc) <= sequence
    {
      was := status;
      if status != CONNECTING || context.None? {
        return;
      }
      status := CONNECTED;
      sequence, alloc := MakeSequence(alloc);
    }

    /** Hands a command to hiredis; a disconnected connection refuses it whatever its context is. */
    method RedisCmd(c: CmdId, accepts: bool) returns (res: Code)
      requires Valid() && c < next
      modifies this`replyList
      ensures Valid() && res == old(State()).Accepts(accepts)
      ensures replyList == if res == OK then old(replyList) + [c] else old(replyList)
    {
      res := if context.None? then CREATE
        else if status == DISCONNECTED then CONNECTION
        else if context.value.disconnecting || context.value.freeing || !accepts then HIREDIS
        else OK;
      if res == OK {
        replyList := replyList + [c];
      }
    }

    /** A command's callback runs: it may submit further commands to this connection. */
    method Callback(c: CmdId, code: Code)
      requires Valid()
      modifies this`replyList, this`calls, this`next, this`budget
      ensures Valid() && calls == old(calls) + [Call(c, code)] && old(next) <= next
      ensures old(replyList) <= replyList && (Deaf() ==> replyList == old(replyList))
      ensures forall i :: |old(replyList)| <= i < |replyList| ==> old(next) <= replyList[i]
      ensures budget <= old(budget) && (budget == old(budget) ==> replyList == old(replyList))
    {
      calls := calls + [Call(c, code)];
      while budget > 0
        invariant Valid() && old(next) <= next && calls == old(calls) + [Call(c, code)]
        invariant old(replyList) <= replyList && (Deaf() ==> replyList == old(replyList))
        invariant budget <= old(budget) && (budget == old(budget) ==> replyList == old(replyList))
        invariant forall i :: |old(replyList)| <= i < |replyList| ==> old(next) <= replyList[i]
        decreases budget
      {
        var more: bool, accepts: bool := *, *;
        if !more {
          break;
        }
        var c2 := next;
        next, budget := next + 1, budget - 1;
        var res := RedisCmd(c2, accepts);
      }
    }

    /** The connection takes no command. */
    predicate Deaf()
      reads this
    {
      context.None? || status == DISCONNECTED || context.value.disconnecting || context.value.freeing
    }

    /** Completes the first command of the list; `added` are those its callback has submitted. */
    method ReleaseFirst() returns (ghost added: seq<CmdId>)
      requires Valid() && replyList != []
      modifies this`replyList, this`calls, this`next, this`budget
      ensures Valid() && calls == old(calls) + [Call(old(replyList)[0], CONNECTION)]
      ensures replyList == old(replyList)[1..] + added && Since(added, old(next)) && old(next) <= next
      ensures Deaf() || budget == old(budget) ==> added == []
      ensures budget <= old(budget)
    {
      ghost var from := next;
      var expired := TakeFront();
      ghost var rest := replyList;
      Callback(expired, CONNECTION);
      added := replyList[|rest|..];
      forall c <- added ensures from <= c {
        var i :| 0 <= i < |added| && added[i] == c;
        assert c == replyList[|rest| + i];
      }
    }

    /** Closes the context and completes every queued command, with those that are submitted meanwhile and
        still taken. A connection that takes none, and one whose context is closed for it, completes just the
        commands that were queued. */
    method Release(closeFd: bool) returns (ghost taken: seq<CmdId>)
      requires Valid()
      modifies this`status, this`context, this`replyList, this`calls, this`next, this`budget
      ensures Valid() && State() == old(State()).(status := DISCONNECTED, context := None, replyList := [])
      ensures calls == old(calls) + CallAll(old(replyList) + taken, CONNECTION) && Since(taken, old(next))
      ensures closeFd || old(Deaf()) ==> taken == []
    {
      if context.Some? && closeFd {
        context := Some(context.value.(disconnecting := true));
      }
      ghost var k := 0;
      taken := [];
      ghost var all := replyList;
      while replyList != []
        invariant Valid() && all == old(replyList) + taken && k <= |all| && replyList == all[k..]
        invariant calls == old(calls) + CallAll(all[..k], CONNECTION)
        invariant old(next) <= next && Since(taken, old(next))
        invariant closeFd || old(Deaf()) ==> Deaf() && taken == []
        decreases budget, |replyList|
      {
        CallAllNext(all, k, CONNECTION);
        ghost var added := ReleaseFirst();
        assert (all + added)[..k + 1] == all[..k + 1] && (all + added)[k + 1..] == all[k + 1..] + added;
        k, taken, all := k + 1, taken + added, all + added;
      }
      assert all[..k] == all;
      context, status := None, DISCONNECTED;
    }

    /** The destructor: the object goes with nothing queued and no context. */
    method Dispose()
      requires Valid()
      modifies this`status, this`context, this`replyList, this`calls, this`next, this`budget
      ensures Valid() && context.None? && replyList == []
      ensures calls == old(calls) + CallAll(old(replyList), CONNECTION)
    {
      ghost var taken := Release(true);
      assert old(replyList) + [] == old(replyList);
    }

    /** Ends the connection. It terminates although every callback may submit again, because the status
        is changed first. */
    method SetDisconnected(closeFd: bool) returns (was: Status)
      requires Valid()
      modifies this
      ensures Valid() && was == old(status)
      ensures was == DISCONNECTED ==> State() == old(State()) && calls == old(calls)
      ensures was != DISCONNECTED ==>
        && State() == old(State()).(status := DISCONNECTED, context := None, replyList := [], sequence := sequence)
        && old(alloc) <= sequence
        && calls == old(calls) + CallAll(old(replyList), CONNECTION)
    {
      was := status;
      if status == DISCONNECTED {
        return;
      }
      status := DISCONNECTED;
      ghost var taken := Release(closeFd);
      assert old(replyList) + [] == old(replyList);
      sequence, alloc := MakeSequence(alloc);
    }

    /** Takes a command off the reply list, the first one if none is given. A command that is not queued
        changes nothing; those ahead of one that is were never answered, and time out in order. */
    method PopReply(c: Option<CmdId>) returns (popped: Option<CmdId>)
      requires Valid()
      modifies this`replyList, this`calls, this`next, this`budget
      ensures Valid() && State() == old(State()).(replyList := replyList) && old(next) <= next
      ensures (c.None? && old(replyList) == []) || (c.Some? && c.value !in old(replyList)) ==>
        popped.None? && replyList == old(replyList) && calls == old(calls)
      ensures c.None? && old(replyList) != [] ==>
        popped == Some(old(replyList)[0]) && replyList == old(replyList)[1..] && calls == old(calls)
      ensures c.Some? && c.value in old(replyList) ==>
        var i := IndexOf(old(replyList), c.value);
        && popped == c
        && calls == old(calls) + CallAll(old(replyList)[..i], TIMEOUT)
        && Left(old(replyList), i + 1, replyList, old(next))
    {
      hide Left;
      if c.None? {
        if replyList == [] {
          return None;
        }
        var front := TakeFront();
        return Some(front);
      }
      if c.value !in replyList {
        return None;
      }
      ghost var list, i, k := replyList, IndexOf(replyList, c.value), 0;
      LeftWhole(list, next);
      while replyList != [] && replyList[0] != c.value
        invariant Valid() && k <= i && Left(list, k, replyList, old(next)) && old(next) <= next
        invariant calls == old(calls) + CallAll(list[..k], TIMEOUT)
        decreases i - k
      {
        ghost var now, n := replyList, next;
        LeftFront(list, k, now, old(next), i);
        var expired := TakeFront();
        CallAllNext(list, k, TIMEOUT);
        Callback(expired, TIMEOUT);
        LeftNext(list, k, now, replyList, old(next), n);
        k := k + 1;
      }
      LeftFront(list, k, replyList, old(next), i);
      ghost var now := replyList;
      var front := TakeFront();
      LeftNext(list, k, now, replyList, old(next), old(next));
      popped := Some(front);
    }

    method TakeFront() returns (front: CmdId)
      requires Valid() && replyList != []
      modifies this`replyList
      ensures Valid() && front == old(replyList)[0] && replyList == old(replyList)[1..]
    {
      front := replyList[0];
      replyList := replyList[1..];
    }

    /** Delivers a reply to a command, whether it is queued here or not. `failed` tells whether the reply is
        an error, `carried` the code that the command carries. */
    method CallReply(c: CmdId, failed: bool, carried: Code) returns (res: Code)
      requires Valid()
      modifies this`replyList, this`calls, this`next, this`budget
      ensures Valid() && State() == old(State()).(replyList := replyList)
      ensures old(context).None? ==> res == CREATE
      ensures old(context).Some? ==> res == if c in old(replyList) then OK else NOT_FOUND
      ensures old(context).None? || c !in old(replyList) ==>
        calls == old(calls) + [Call(c, NOT_FOUND)] && old(replyList) <= replyList
      ensures old(context).Some? && c in old(replyList) ==>
        var i := IndexOf(old(replyList), c);
        && calls == old(calls) + CallAll(old(replyList)[..i], TIMEOUT)
             + [Call(c, if failed || old(context).value.err != NoError then HIREDIS else carried)]
        && Left(old(replyList), i + 1, replyList, old(next))
    {
      if context.None? {
        Callback(c, NOT_FOUND);
        return CREATE;
      }
      var popped := PopReply(Some(c));
      if popped.None? {
        Callback(c, NOT_FOUND);
        return NOT_FOUND;
      }
      var code := carried;
      if context.value.err != NoError {
        code := HIREDIS;
      } else if failed {
        code := HIREDIS;
      }
      Callback(popped.value, code);
      res := OK;
    }
  }
}
