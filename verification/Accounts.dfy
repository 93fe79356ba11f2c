/** The ledger in full: between two entries into the client every command has exactly one holder, or is
    done and was called back exactly once. */
module Accounts {
  import opened Types
  import opened EndpointNames
  import opened Connections
  import opened Timers
  import opened Ledger
  import opened Sweeps

  /** Everything in the reply lists of a pool. */
  ghost function QueuedAnywhere(pool: Pool): multiset<CmdId>
    decreases |pool|
  {
    if pool == map[] then multiset{}
    else
      var n :| n in pool;
      multiset(pool[n].replyList) + QueuedAnywhere(pool - {n})
  }

  /** Everything that is held: parked, delayed, in a reply list, or waiting for the answer to ASKING. */
  ghost function Holders(s: State): multiset<CmdId> {
    multiset(s.slotPending) + multiset(TimerCmds(s.timerPending)) + QueuedAnywhere(s.pool) + multiset(s.asking)
  }

  lemma {:induction false} CountNoDup(list: seq<CmdId>, c: CmdId)
    requires NoDup(list)
    ensures multiset(list)[c] == if c in list then 1 else 0
  {
    if list != [] {
      assert list == [list[0]] + list[1..];
      CountNoDup(list[1..], c);
    }
  }

  lemma {:induction false} CountQueued(pool: Pool, c: CmdId)
    requires forall n <- pool :: NoDup(pool[n].replyList)
    requires forall m, n :: m in pool && n in pool && c in pool[m].replyList && c in pool[n].replyList ==> m == n
    ensures QueuedAnywhere(pool)[c] == if exists n :: n in pool && c in pool[n].replyList then 1 else 0
    decreases |pool|
  {
    if pool != map[] {
      var n :| n in pool && QueuedAnywhere(pool) == multiset(pool[n].replyList) + QueuedAnywhere(pool - {n});
      var rest := pool - {n};
      CountNoDup(pool[n].replyList, c);
      CountQueued(rest, c);
      assert forall m :: m in rest <==> m in pool && m != n;
    }
  }

  lemma CountDelayed(list: seq<Delay>, c: CmdId)
    requires forall i, j :: 0 <= i < j < |list| ==> list[i].cmd != list[j].cmd
    ensures multiset(TimerCmds(list))[c] == if OnTimer(c, list) then 1 else 0
  {
    CountNoDup(TimerCmds(list), c);
    if OnTimer(c, list) {
      var i :| 0 <= i < |list| && list[i].cmd == c;
      assert TimerCmds(list)[i] == c;
    }
  }

  lemma QueuedOnce(s: State, c: CmdId)
    requires Inv(s)
    ensures QueuedAnywhere(s.pool)[c] == if c in s.cmds && s.cmds[c].home.Queued? then 1 else 0
  {
    hide InvPool, InvParked, InvDelayed, InvHands, InvOk, InvTimer, QueuedAnywhere, InvTold;
    CountQueued(s.pool, c);
  }

  /** How often a user was told of a command. */
  ghost function TimesTold(notices: seq<Notice>, c: CmdId): nat {
    if notices == [] then 0
    else
      var x := notices[|notices| - 1];
      TimesTold(notices[..|notices| - 1], c) + if x.Told? && x.cmd == c then 1 else 0
  }

  lemma {:induction false} NeverTold(notices: seq<Notice>, c: CmdId)
    requires forall i :: 0 <= i < |notices| && notices[i].Told? ==> notices[i].cmd != c
    ensures TimesTold(notices, c) == 0
  {
    if notices != [] {
      NeverTold(notices[..|notices| - 1], c);
    }
  }

  lemma {:induction false} ToldOnce(notices: seq<Notice>, c: CmdId, i: nat)
    requires i < |notices| && notices[i].Told? && notices[i].cmd == c
    requires forall j :: 0 <= j < |notices| && notices[j].Told? && notices[j].cmd == c ==> j == i
    ensures TimesTold(notices, c) == 1
  {
    if i == |notices| - 1 {
      NeverTold(notices[..i], c);
    } else {
      ToldOnce(notices[..|notices| - 1], c, i);
    }
  }

  /** The account of one command. It has exactly one holder, or is in hand, until it is done; nothing else
      is held. It is done just when it was destroyed, and its callback has had its one call by then and none
      before. A user was told of it once if it is his and done, and else never, and what he was told is the
      code it carries. */
  ghost predicate Accounted(s: State, c: CmdId) {
    && Holders(s)[c] + (if c in s.inHand then 1 else 0) == (if c in s.cmds && s.cmds[c].home != Done then 1 else 0)
    && (c in s.cmds ==> (s.cmds[c].home == Done <==> s.cmds[c].destroyed))
    && (c in s.cmds ==> s.cmds[c].calls == if s.cmds[c].given && s.cmds[c].home == Done then 1 else 0)
    && TimesTold(s.notices, c) == (if c in s.cmds && s.cmds[c].Rings() && s.cmds[c].home == Done then 1 else 0)
    && (forall code :: Told(c, code) in s.notices ==> c in s.cmds && s.cmds[c].errorCode == code)
  }

  lemma HolderExact(s: State, c: CmdId)
    requires Inv(s)
    ensures Holders(s)[c] + (if c in s.inHand then 1 else 0) == (if c in s.cmds && s.cmds[c].home != Done then 1 else 0)
  {
    hide InvPool, InvQueued, InvTimer, InvTold;
    CountNoDup(s.slotPending, c);
    CountDelayed(s.timerPending, c);
    QueuedOnce(s, c);
  }

  lemma ToldExact(s: State, c: CmdId)
    requires Inv(s) && Rest(s)
    ensures TimesTold(s.notices, c) == (if c in s.cmds && s.cmds[c].Rings() && s.cmds[c].home == Done then 1 else 0)
    ensures forall code :: Told(c, code) in s.notices ==> c in s.cmds && s.cmds[c].errorCode == code
  {
    hide InvPool, InvQueued, InvTimer, InvParked, InvDelayed, InvOk;
    if c in s.cmds && s.cmds[c].Rings() && s.cmds[c].home == Done {
      assert c !in s.dying;
      var i :| 0 <= i < |s.notices| && s.notices[i] == Told(c, s.cmds[c].errorCode);
      ToldOnce(s.notices, c, i);
    } else {
      NeverTold(s.notices, c);
    }
  }

  /** The ledger is exact for every command. */
  lemma LedgerExact(s: State, c: CmdId)
    requires Inv(s) && Rest(s)
    ensures Accounted(s, c)
  {
    hide InvPool, InvQueued, InvTimer, InvTold, InvParked, InvDelayed, TimesTold, Holders;
    HolderExact(s, c);
    ToldExact(s, c);
  }

  /** Each attempt has cost one of a command's sixteen lives, and its slot is one of the table or none. */
  ghost predicate Bounded(cmds: Cmds) {
    forall c <- cmds ::
      && cmds[c].attempts + cmds[c].ttl == 16
      && |cmds[c].submits| <= cmds[c].attempts
      && -1 <= cmds[c].slot < 16384
  }

  /** Sequences tell connections apart, and a connect timeout can only meet a connection that is still
      connecting. */
  ghost predicate Separate(pool: Pool, timerConns: seq<ConnTimeout>) {
    && (forall n <- pool :: pool[n].sequence > 0)
    && (forall m, n :: m in pool && n in pool && pool[m].sequence == pool[n].sequence ==> m == n)
    && (forall i, n :: 0 <= i < |timerConns| && n in pool && timerConns[i].sequence == pool[n].sequence ==>
          pool[n].status == CONNECTING && pool[n].context.Some?)
  }

  ghost predicate Sorted(list: seq<Delay>) {
    forall i, j :: 0 <= i < j < |list| ==> AtMost(list[i].at, list[j].at)
  }

  /** What holds between any two entries into a client. Nothing stays in hand, unless the stack ran out. */
  ghost predicate Safe(s: State) {
    && (forall c :: Accounted(s, c)) && (!s.halted ==> s.inHand == {})
    && Bounded(s.cmds) && Separate(s.pool, s.timerConns) && Sorted(s.timerPending)
  }

  lemma AlwaysSafe(s: State)
    requires Inv(s) && Rest(s)
    ensures Safe(s)
  {
    hide Accounted, InvParked, InvDelayed, InvQueued, InvHands, InvTold;
    forall c ensures Accounted(s, c) {
      LedgerExact(s, c);
    }
  }

  /** The connection that is pooled under the name of an endpoint was made to that endpoint. */
  lemma PooledEndpoint(s: State, ip: string, port: nat)
    requires Inv(s) && NameOf(ip, port) in s.pool
    ensures s.pool[NameOf(ip, port)].key == Key(NameOf(ip, port), ip, port)
  {
    hide NameOf, InvParked, InvDelayed, InvQueued, InvHands, InvOk, InvTimer, InvTold;
    assert Named(Key(NameOf(ip, port), ip, port)) by {
      SetKeyIs(ip, port);
    }
    OneEndpoint(s.pool[NameOf(ip, port)].key, Key(NameOf(ip, port), ip, port));
  }

  lemma SetKeyIs(ip: string, port: nat)
    ensures Named(Key(NameOf(ip, port), ip, port))
  {
  }
}
