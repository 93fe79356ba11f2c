/** The cluster client. */
module Clusters {
  import opened Types
  import opened Connections
  import opened Timers
  import opened SlotTables
  import opened Endings
  import opened Ledger
  import L = Ledger
  import opened Sweeps
  import opened Replies
  import R = Redirects
  import opened Scanning
  import EndpointNames
  import opened HashSlots
  import Crc16
  import opened Accounts

  class Cluster {
    const table: SlotTable
    const init: Key
    const interval: Time
    const connTimeout: int
    const auth: bool

    var flag: SlotFlag
    var slotPending: seq<CmdId>
    var pool: Pool
    var now: Time
    var timerPending: seq<Delay>
    var timerConns: seq<ConnTimeout>
    var seqAlloc: nat

    // Every command ever created, and how many were completed.
    var cmds: Cmds
    var nextCmd: nat
    var completions: nat
    ghost var notices: seq<Notice>
    ghost var inHand: set<CmdId>
    ghost var dying: set<CmdId>
    ghost var asking: set<CmdId>

    // The environment: whether callbacks submit only while the initial endpoint is not stuck, whether the
    // random slot is a hopeless one if there is one, which endpoints a connection can be opened to, how
    // many commands the callbacks will still submit, how much of the one recursion that need not end fits on
    // the stack, and whether it did not.
    const polite: bool
    const unlucky: bool
    var reachable: set<string>
    var budget: nat
    var fuel: nat
    var halted: bool

    ghost function St(): State
      reads this, table
    {
      State(flag, slotPending, pool, now, timerPending, timerConns, seqAlloc, table.history,
            budget, fuel, halted, Env(interval, reachable, init.name, unlucky),
            cmds, nextCmd, inHand, dying, asking, completions, notices)
    }

    ghost predicate Valid()
      reads this, table, table.hosts
    {
      table.Valid() && table.hosts.Length == SLOT_NUMBER && Inv(St()) && EndpointNames.Named(init)
    }

    predicate TimerAvailable() {
      interval.sec > 0 || interval.usec > 0
    }

    predicate TimerActive()
      reads this
    {
      (now.sec != 0 || now.usec != 0) && TimerAvailable()
    }

    constructor (ip: string, port: nat, interval: Time, connTimeout: int, auth: bool, polite: bool, unlucky: bool,
        budget: nat, fuel: nat)
      ensures init == Key(EndpointNames.NameOf(ip, port), ip, port) && Valid() && Rest(St()) && fresh(table)
      ensures fresh(table.hosts)
    {
      table := new SlotTable();
      init := EndpointNames.SetKey(ip, port);
      this.interval, this.connTimeout, this.auth := interval, connTimeout, auth;
      this.polite, this.unlucky, this.budget, this.fuel, halted, reachable := polite, unlucky, budget, fuel, false, {};
      flag, slotPending, pool := INVALID, [], map[];
      now, timerPending, timerConns, seqAlloc := Time(0, 0), [], [], 0;
      cmds, nextCmd, inHand, dying, asking, completions, notices := map[], 0, {}, {}, {}, 0, [];
    }

    // ---- Completing a command.

    method NewCommand(kind: Kind, given: bool, slot: int) returns (c: CmdId)
      requires Valid() && -1 <= slot < SLOT_NUMBER
      modifies this`cmds, this`nextCmd, this`inHand
      ensures Valid() && c == old(nextCmd) && c !in old(cmds)
      ensures St() == L.Create(old(St()), NewCmd(kind, given).(slot := slot))
    {
      hide Inv, SlotTable.Valid;
      L.CreateKeeps(St(), NewCmd(kind, given).(slot := slot));
      c := nextCmd;
      cmds, nextCmd := cmds[c := NewCmd(kind, given).(slot := slot)], nextCmd + 1;
      inHand := inHand + {c};
    }

    /** The user is told something, and may submit any number of commands before returning. */
    method UserCallback(x: Notice)
      requires Valid() && Tellable(St(), x)
      modifies this, table, table.hosts
      ensures Valid() && Progress(old(St()), St(), {}, {})
      ensures old(notices) + [x] <= notices
      ensures BackStep(old(St()), St(), polite) && FrozenStep(old(St()), St())
      ensures SettledStep(old(St()), St()) && TrapStep(old(St()), St())
      ensures budget <= old(budget)
      ensures budget == old(budget) ==> St() == old(St()).(notices := old(notices) + [x])
      decreases budget, 0, 1
    {
      hide Inv, Progress, SlotTable.Valid, Refusing, Calm, Frozen, Trapped;
      ghost var s := St();
      NoticeKeeps(s, x);
      notices := notices + [x];
      ghost var t := St();
      FrozenSame(s, t);
      Submissions();
      ProgressThen(s, t, St(), {}, {});
      NoticesGrow(t, St(), {}, {});
      BackSame(s, t, St(), polite);
      TrapFirst(s, t, St());
    }

    /** What a callback submits. */
    method Submissions()
      requires Valid()
      modifies this, table, table.hosts
      ensures Valid() && Progress(old(St()), St(), {}, {})
      ensures BackStep(old(St()), St(), polite) && FrozenStep(old(St()), St())
      ensures SettledStep(old(St()), St()) && TrapStep(old(St()), St())
      ensures budget <= old(budget) && (budget == old(budget) ==> St() == old(St()))
      decreases budget, 0, 0
    {
      hide Inv, Progress, SlotTable.Valid, Refusing, Frozen, Trapped, Sheltered, TrapStep;
      ghost var s := St();
      ProgressRefl(s);
      FrozenSame(s, s);
      TrapRefl(s);
      var submits: bool := *;
      if !submits || budget == 0 || (polite && init.name in pool && Stuck(pool[init.name])) {
        return;
      }
      var given: bool := *;
      var slot: int := *;
      if slot < -1 || slot >= SLOT_NUMBER {
        return;
      }
      SubmitOne(given, slot);
      ghost var t := St();
      Submissions();
      ProgressThen(s, t, St(), {}, {});
      BackTrans(s, t, St(), polite);
      FrozenTrans(s, t, St());
      HaltedKept(t, St(), {}, {});
      TrapHalts(s, St());
    }

    /** A callback submits one command. */
    method SubmitOne(given: bool, slot: int)
      requires Valid() && budget > 0 && -1 <= slot < SLOT_NUMBER
      modifies this, table, table.hosts
      ensures Valid() && Progress(old(St()), St(), {}, {}) && budget < old(budget)
      ensures CalmStep(old(St()), St(), polite) && SettledStep(old(St()), St()) && FrozenStep(old(St()), St())
      ensures Trapped(old(St())) ==> halted
      decreases budget - 1, 2
    {
      hide KindsKept, Inv, Progress, SlotTable.Valid, Refusing, Calm, HeldStep, Frozen, Trapped;
      ghost var s := St();
      budget := budget - 1;
      ghost var t := St();
      AllowanceKeeps(s, t);
      var c := NewCommand(User, given, slot);
      ghost var u := St();
      var kept := Exec(c);
      CreateProgress(t, u.cmds[c], St());
      ProgressThen(s, t, St(), {}, {});
      AllowancesShrink(t, St(), {}, {});
      KindsOne(t.cmds, c, u.cmds[c]);
      CalmSame(s, u, St(), polite);
      TrappedSame(s, u);
      HeldSettled(u, St(), c);
      FrozenSubmit(s, t, u.cmds[c], St());
    }

    /** Takes the callback of a command in hand out, so that it cannot be called again; `fire` tells
        whether there was one to call. */
    method CallCmd(cmd: CmdId, code: Code) returns (fire: bool)
      requires Valid() && cmd in inHand
      modifies this`cmds, this`completions, this`inHand, this`dying
      ensures cmd in old(cmds) && fire == old(cmds[cmd]).callback
      ensures Valid() && St() == L.Complete(old(St()), cmd, code)
    {
      hide Inv, SlotTable.Valid;
      CompleteKeeps(St(), cmd, code);
      fire := cmds[cmd].callback;
      cmds := cmds[cmd := cmds[cmd].Completed(code, completions)];
      completions := completions + 1;
      inHand, dying := inHand - {cmd}, dying + {cmd};
    }

    method DestroyCmd(cmd: CmdId)
      requires Valid() && cmd in dying && ToldOf(St(), cmd)
      modifies this`cmds, this`dying
      ensures cmd in old(cmds) && Valid() && St() == L.Destroy(old(St()), cmd)
    {
      hide Inv, SlotTable.Valid;
      DestroyKeeps(St(), cmd);
      cmds := cmds[cmd := cmds[cmd].(destroyed := true)];
      dying := dying - {cmd};
    }

    /** What a callback does when there is no reply: the user is told, or the slot query marks the table
        invalid. */
    method CallBack(kind: Kind, x: Notice)
      requires Valid() && (kind == User ==> Tellable(St(), x))
      modifies this, table, table.hosts
      ensures Valid() && Progress(old(St()), St(), {}, {})
      ensures BackStep(old(St()), St(), polite) && TrapStep(old(St()), St())
      ensures kind != SlotQuery ==> SettledStep(old(St()), St()) && FrozenStep(old(St()), St())
      ensures budget == old(budget) ==> St() == old(St()).(flag := flag, notices := notices)
      ensures kind == User ==> old(notices) + [x] <= notices
      ensures kind == SlotQuery ==> St() == old(St()).(flag := INVALID)
      ensures kind == Auth ==> St() == old(St())
      decreases budget, 0, 2
    {
      hide Inv, ListsProgress, TableProgress, CmdsProgress, PoolProgress, SlotTable.Valid, Refusing, CmdsAged, Frozen,
          Calm, Trapped;
      ghost var s := St();
      match kind
      case User =>
        UserCallback(x);
      case SlotQuery =>
        flag := INVALID;
        AllowanceKeeps(s, St());
      case Auth =>
        ProgressRefl(s);
        TrapRefl(s);
    }

    /** Calls a command back with an error and destroys it. */
    method Finish(cmd: CmdId, code: Code)
      requires Valid() && cmd in inHand
      modifies this, table, table.hosts
      ensures Valid() && Progress(old(St()), St(), {cmd}, {})
      ensures cmd in old(cmds) && cmd in cmds
      ensures cmds[cmd] == old(cmds[cmd]).Completed(code, old(completions)).(destroyed := true)
      ensures old(completions) < completions
      ensures old(cmds[cmd]).kind != SlotQuery ==> FrozenStep(old(St()), St())
      ensures BackStep(old(St()), St(), polite) && TrapStep(old(St()), St())
      ensures !old(cmds[cmd]).Rings() ==> Still(old(St()), St())
      ensures HeldStep(old(St()), St(), cmd)
      ensures old(cmds[cmd]).callback && old(cmds[cmd]).kind == User ==> old(notices) + [Told(cmd, code)] <= notices
      ensures !old(cmds[cmd]).callback ==> notices == old(notices) && flag == old(flag)
      ensures old(cmds[cmd]).callback && old(cmds[cmd]).kind == SlotQuery ==> flag == INVALID
      ensures budget == old(budget) ==> slotPending == old(slotPending) && timerPending == old(timerPending)
      decreases budget, 0, 3
    {
      hide Inv, Progress, SlotTable.Valid, Refusing, Tellable, ToldOf, HeldStep, Frozen, Calm,
          Trapped, TrapStep;
      ghost var s := St();
      Held(s, cmd);
      CompleteTells(s, cmd, code);
      var fire := CallCmd(cmd, code);
      ghost var s1 := St();
      ProgressRefl(s1);
      TrapRefl(s1);
      BackRefl(s1, polite);
      if fire {
        CallBack(cmds[cmd].kind, Told(cmd, code));
      }
      ghost var s2 := St();
      FinishProgress(s, cmd, code, s2);
      FinishTells(s, cmd, code, s2);
      DestroyCmd(cmd);
      HeldDone(s, s1, St(), cmd);
      FrozenOne(s, s1, cmd);
      FrozenOne(s2, St(), cmd);
      TrapFirst(s, s1, s2);
      TrapLast(s, s2, St());
      AnswerEnds(s, cmd, code, s2, polite);
    }

    // ---- Releasing a connection.

    /** Takes the oldest command off a reply list and completes it. */
    method DropFirst(n: string, code: Code)
      requires Valid() && n in pool && pool[n].replyList != [] && !MayGo(pool[n])
      modifies this, table, table.hosts
      ensures Valid() && Dropped(old(St()), St(), n, code)
      ensures BackStep(old(St()), St(), polite)
      ensures ListStep(old(St()), St(), n, [old(pool[n]).replyList[0]])
      ensures budget <= old(budget)
      decreases budget, 0, 4
    {
      hide Inv, Progress, Dropped, SlotTable.Valid, Refusing, SettledStep, Calm, TrapStep, Trapped, ListStep;
      ghost var s := St();
      var c := pool[n].replyList[0];
      TakeFirst(n);
      Finish(c, code);
      DequeueProgress(s, n, code, St());
      DroppedKept(s, St(), n, code);
      ListDropped(s, St(), n, c);
      DroppedBack(s, St(), n, polite);
    }

    /** Releases a connection: its status is changed first, so that it takes no command that a callback
        submits meanwhile; then every queued command is completed, oldest first. */
    method SetDisconnected(n: string, closeFd: bool) returns (was: Status)
      requires Valid() && n in pool
      modifies this, table, table.hosts
      ensures Valid() && n in pool && was == old(pool[n]).status
      ensures was == DISCONNECTED ==> St() == old(St())
      ensures was != DISCONNECTED ==>
        && pool[n] ==
             old(pool[n]).(status := DISCONNECTED, context := None, replyList := [], sequence := pool[n].sequence)
        && old(seqAlloc) <= pool[n].sequence
        && Elsewhere(old(St()), St(), n, set c <- old(pool[n]).replyList)
        && CompletedInOrder(old(St()), St(), old(pool[n]).replyList, CONNECTION)
      ensures old(pool[n]).replyList == [] && was != DISCONNECTED ==>
        St() == old(St()).(pool := pool, seqAlloc := seqAlloc) && pool == old(pool)[n := pool[n]]
      ensures old(Gentle(St(), n, closeFd, polite)) ==> Unhurried(old(St()), St())
      ensures was != DISCONNECTED && old(Mild(St(), n, closeFd, polite)) ==> Calm(St(), polite)
      ensures old(TrappedBut(St(), n)) && !closeFd ==> halted || Forsaken(old(St()), St(), n)
      ensures budget <= old(budget)
      decreases budget, 0, 6
    {
      hide Inv, ListsProgress, TableProgress, PoolProgress, CompletedInOrder, SlotTable.Valid, Refusing,
          CmdsAged, Calm, Mild, Gentle, Unhurried, Forsaken, TrappedBut, ListStep, KindsKept;
      was := pool[n].status;
      MayGoOpen(St(), n);
      UnhurriedRefl(St());
      if was == DISCONNECTED {
        return;
      }
      ghost var s := St();
      ghost var v, list := pool[n], pool[n].replyList;
      BeginReleaseKeeps(s, n, closeFd);
      pool := pool[n := Disconnecting(pool[n], closeFd)];
      ghost var r := St();
      DrainList(n, s, list);
      ghost var s2 := St();
      ElsewhereKept(s, s2, n, set c <- list);
      DropContext(n);
      CompletedKept(s, s2, St(), list, CONNECTION);
      ElsewhereTrans(s, s2, St(), n, set c <- list, {});
      ReleaseEnds(s, r, s2, St(), n, closeFd, polite);
    }

    /** The context is gone, and the next operation on the connection gets a new sequence. */
    method DropContext(n: string)
      requires Valid() && n in pool && pool[n].status == DISCONNECTED
      modifies this`pool, this`seqAlloc
      ensures Valid() && n in pool && old(seqAlloc) <= pool[n].sequence
      ensures St() == EndRelease(old(St()), n, pool[n].sequence, seqAlloc)
      ensures Elsewhere(old(St()), St(), n, {})
    {
      hide Inv, Elsewhere, SlotTable.Valid;
      var sequence, next := MakeSequence(seqAlloc);
      EndReleaseKeeps(St(), n, sequence, next);
      pool := pool[n := pool[n].(context := None, sequence := sequence)];
      seqAlloc := next;
    }

    /** Completes every command of a connection that is being released, oldest first. */
    method DrainList(n: string, ghost s: State, ghost list: seq<CmdId>)
      requires Valid() && n in pool && pool[n].status == DISCONNECTED && pool[n].replyList == list
      requires n in s.pool && s.pool[n].replyList == list && Inv(s)
      requires Elsewhere(s, St(), n, {}) && cmds == s.cmds && completions == s.completions
      modifies this, table, table.hosts
      ensures Valid() && n in pool && pool[n] == old(pool[n]).(replyList := [])
      ensures Elsewhere(s, St(), n, set c <- list) && CompletedInOrder(s, St(), list, CONNECTION)
      ensures list == [] ==> St() == old(St())
      ensures polite || Calm(old(St()), polite) ==> Unhurried(old(St()), St())
      ensures Calm(old(St()), polite) ==> Calm(St(), polite)
      ensures ListStep(old(St()), St(), n, list)
      ensures budget <= old(budget)
      decreases budget, 0, 5
    {
      hide Inv, Emptying, Elsewhere, SlotTable.Valid, Refusing, Calm, ListStep, BackStep;
      ghost var r, calm := St(), Calm(St(), polite);
      ghost var k := 0;
      EmptyingBegins(s, St(), n, |list|, CONNECTION);
      ListRefl(r, n);
      while pool[n].replyList != []
        invariant Valid() && n in pool && k <= |list|
        invariant pool[n] == old(pool[n]).(replyList := list[k..])
        invariant Emptying(s, St(), n, list, |list|, k, CONNECTION)
        invariant list == [] ==> St() == old(St())
        invariant polite || calm ==> Unhurried(r, St())
        invariant calm ==> Calm(St(), polite)
        invariant ListStep(r, St(), n, list[..k])
        invariant budget <= old(budget)
        decreases |pool[n].replyList|
      {
        ghost var t := St();
        DropFirst(n, CONNECTION);
        EmptyingNext(s, t, St(), n, list, |list|, k, CONNECTION);
        EmptyingFacts(s, t, n, list, |list|, k, CONNECTION);
        DroppedKept(t, St(), n, CONNECTION);
        ListNext(r, t, St(), n, list, k);
        BackUnhurried(t, St(), polite);
        if Calm(t, polite) {
          DroppedCalm(t, St(), n, CONNECTION, polite);
        }
        k := k + 1;
      }
      EmptyingEnds(s, St(), n, list, CONNECTION);
      assert list[..k] == list;
    }

    /** Releases a pooled connection and takes it out of the pool; a connection that is being released
        already is left to that. */
    method ReleaseConnection(n: string, closeFd: bool) returns (found: bool)
      requires Valid()
      modifies this, table, table.hosts
      ensures Valid() && found == (n in old(pool))
      ensures n !in old(pool) || old(pool[n]).status == DISCONNECTED ==> St() == old(St())
      ensures n in old(pool) && old(pool[n]).status != DISCONNECTED ==>
        && n !in pool && Progress(old(St()), St(), {}, {n})
        && CompletedInOrder(old(St()), St(), old(pool[n]).replyList, CONNECTION)
      ensures n in old(pool) && old(pool[n]).status != DISCONNECTED ==> Noticed(old(St()), St(),
        if old(pool[n]).status == CONNECTING then ConnectEnded(n, false) else ConnectionLost(n))
      ensures old(Gentle(St(), n, closeFd, polite)) ==> Unhurried(old(St()), St())
      ensures n in old(pool) && old(pool[n]).status != DISCONNECTED && old(Mild(St(), n, closeFd, polite)) ==>
        Calm(St(), polite)
      ensures old(TrappedBut(St(), n)) && !closeFd ==> halted || Trapped(St())
      ensures n in old(pool) && old(pool[n]).status != DISCONNECTED && old(pool[n]).replyList == [] ==>
        Frozen(old(St())) ==> Frozen(St()) && Unhurried(old(St()), St())
      ensures budget <= old(budget)
      decreases budget, 0, 7
    {
      hide Inv, Progress, Elsewhere, CompletedInOrder, SlotTable.Valid, Refusing, CmdsAged, Calm, Mild, Frozen,
          FrozenStep, TrappedBut, Trapped, Forsaken;
      found := n in pool;
      MayGoOpen(St(), n);
      if !found {
        return;
      }
      ghost var s, list := St(), pool[n].replyList;
      QueueFacts(s, n);
      var was := SetDisconnected(n, closeFd);
      if was == DISCONNECTED {
        return;
      }
      ghost var t := St();
      if TrappedBut(s, n) && !closeFd && !halted {
        ForsakenTrapped(s, t, n);
      }
      Erase(n, if was == CONNECTING then ConnectEnded(n, false) else ConnectionLost(n), s, list);
      if TrappedBut(s, n) && !closeFd && !halted {
        ForsakenErased(s, t, St(), n);
        ForsakenTrapped(s, St(), n);
      }
      if list == [] {
        FrozenRelease(s, t, St(), n);
      }
    }

    /** The user is told that a connection has ended, and the pool forgets it. */
    method Erase(n: string, x: Notice, ghost s: State, ghost list: seq<CmdId>)
      requires Valid() && n in pool && pool[n].status == DISCONNECTED && pool[n].replyList == [] && !x.Told?
      requires Elsewhere(s, St(), n, set c <- list) && CompletedInOrder(s, St(), list, CONNECTION)
      requires forall c <- list :: c in s.cmds && s.cmds[c].home.Queued?
      modifies this, table, table.hosts
      ensures Valid() && n !in pool && Progress(s, St(), {}, {n}) && CompletedInOrder(s, St(), list, CONNECTION)
      ensures Noticed(s, St(), x) && budget <= old(budget)
      ensures BackStep(old(St()), St(), polite) && (Calm(old(St()), polite) ==> Calm(St(), polite))
      ensures (old(halted) ==> halted) && St().env == old(St()).env
      ensures Trapped(old(St())) ==>
        halted || (pool == old(pool) - {n} && table.history == old(table.history) && flag == INVALID)
      ensures Frozen(old(St())) ==> Frozen(St()) && Unhurried(old(St()), St()) && pool == old(pool) - {n}
      decreases budget, 0, 6, 1
    {
      hide Inv, Progress, Elsewhere, CompletedInOrder, SlotTable.Valid, Refusing, CmdsAged, Calm, Trapped;
      ghost var t := St();
      UserCallback(x);
      ElsewhereNotices(s, t, n, set c <- list);
      NoticedNext(s, t, St(), x);
      ReleaseProgress(s, t, St(), n, list);
      HaltedKept(t, St(), {}, {});
      if Calm(t, polite) {
        CalmKept(t, St(), polite, {});
        CalmErase(St(), n, polite);
      }
      pool := pool - {n};
    }

    // ---- Submitting and retrying.

    /** Takes the named host out of every slot it leads. */
    method RemoveConnectionKey(n: string)
      requires Valid()
      modifies this, table, table.hosts
      ensures Valid() && Progress(old(St()), St(), {}, {n})
      ensures n in pool && pool[n].Refusing() ==> Progress(old(St()), St(), {}, {})
      ensures St() == old(St()).(flag := INVALID, history := old(table.history) + [Remove(n)])
    {
      hide Inv, Progress;
      ghost var s := St();
      flag := INVALID;
      ghost var s1 := St();
      AllowanceKeeps(s, s1);
      table.RemoveKey(n);
      TableKeeps(s1, Remove(n));
      ProgressThen(s, s1, St(), {}, {n});
      if n in pool && pool[n].Refusing() {
        ProgressThen(s, s1, St(), {}, {});
      }
    }

    /** Gives a connection up that refuses commands. It is released, unless it runs a hiredis callback
        or is being released already. */
    method GiveUp(n: string)
      requires Valid() && n in pool && pool[n].Refusing()
      modifies this, table, table.hosts
      ensures Valid() && Progress(old(St()), St(), {}, {})
      ensures MayGo(old(pool[n])) ==> n !in pool
      ensures Stuck(old(pool[n])) ==>
        St() == old(St()).(flag := INVALID, history := old(table.history) + [Remove(n)])
      ensures OnlyRemoved(old(table.history) + [Remove(n)], table.history)
      ensures BackStep(old(St()), St(), polite)
      ensures flag != VALID && (Pitfall(old(St()), n) ==> halted || Trapped(St()))
      decreases budget, 0, 8
    {
      hide Inv, Progress, SlotTable.Valid, Calm, Mild, Trapped, TrappedBut, Pitfall;
      ghost var s := St();
      RemoveConnectionKey(n);
      ghost var s1 := St();
      ProgressRefl(s1);
      GaveUpCalm(s, s1, n, polite);
      if Calm(s1, polite) {
        OpenIsGentle(s1, n, polite);
      }
      if Pitfall(s, n) {
        PitfallTraps(s, s1, n);
      }
      if !pool[n].InCallback() {
        var found := ReleaseConnection(n, false);
        if s1.pool[n].status != DISCONNECTED {
          MayGoProgress(s1, St(), n);
        }
      }
      ProgressThen(s, s1, St(), {}, {});
      ProgressRemoved(s1, St(), {}, {});
      ProgressFlag(s1, St(), {}, {});
    }

    /** Submits a command to a connection. */
    method ExecOn(conn: Option<string>, cmd: CmdId) returns (kept: bool)
      requires Valid() && cmd in inHand && (conn.Some? ==> conn.value in pool)
      modifies this, table, table.hosts
      ensures Valid() && Progress(old(St()), St(), {cmd}, {})
      ensures cmd in old(cmds) && cmd in cmds && Advanced(old(cmds[cmd]), cmds[cmd])
      ensures old(cmds[cmd]).ttl == 0 ==> Answered(old(cmds[cmd]), cmds[cmd], Code.TTL)
      ensures old(cmds[cmd]).ttl > 0 ==> cmds[cmd].ttl < old(cmds[cmd]).ttl
      ensures old(cmds[cmd]).ttl > 0 && conn.None? ==>
        Answered(old(cmds[cmd]).(ttl := cmds[cmd].ttl, attempts := cmds[cmd].attempts), cmds[cmd], CONNECTION)
      ensures old(cmds[cmd]).ttl > 0 && conn.Some? ==> old(cmds[cmd]).submits + [conn.value] <= cmds[cmd].submits
      ensures CalmStep(old(St()), St(), polite)
      ensures HeldStep(old(St()), St(), cmd)
      ensures !halted ==> (kept <==> cmds[cmd].home != Done)
      ensures conn.Some? && Pitfall(old(St()), conn.value) && old(cmds[cmd]).ttl > TTL_MAX / 2 + 1 ==> halted
      decreases budget, 1, fuel, Refusing(pool), TotalHosts(table.history), Astray(pool, table.history, conn), 3
    {
      hide Pitfall, Calm, KindsKept, Inv, Progress, SlotTable.Valid, CalmStep, HeldStep, Refusing, TotalHosts,
          LeadsSome, Astray;
      ghost var s := St();
      Held(s, cmd);
      if cmds[cmd].ttl == 0 {
        Finish(cmd, Code.TTL);
        BackCalm(s, St(), polite);
        return false;
      }
      ghost var w := cmds[cmd].(ttl := cmds[cmd].ttl - 1, attempts := cmds[cmd].attempts + 1);
      ReworkKeeps(s, cmd, w);
      cmds := cmds[cmd := cmds[cmd].(ttl := cmds[cmd].ttl - 1, attempts := cmds[cmd].attempts + 1)];
      ghost var s1 := St();
      if conn.None? {
        Finish(cmd, CONNECTION);
        BackCalm(s1, St(), polite);
        kept := false;
      } else {
        PitfallSame(s, s1, conn.value);
        kept := Attempt(conn.value, cmd);
      }
      ReworkProgress(s, cmd, w, St(), {});
      KindsOne(s.cmds, cmd, w);
      CalmSame(s, s1, St(), polite);
      HeldSame(s, s1, St(), cmd);
    }

    /** Hands a command to hiredis, which may refuse it for reasons of its own. */
    method RedisCmd(n: string, cmd: CmdId) returns (res: Code)
      requires Valid() && cmd in inHand && n in pool
      requires cmd in cmds && |cmds[cmd].submits| < cmds[cmd].attempts
      modifies this`cmds, this`pool, this`inHand
      ensures Valid() && St() == Submit(old(St()), cmd, n, res == OK)
      ensures res == old(pool[n]).Accepts(res == OK)
    {
      hide Inv, SlotTable.Valid, Progress;
      ghost var s := St();
      Held(s, cmd);
      var accepts: bool := *;
      var conn := pool[n];
      res := if conn.context.None? then CREATE
        else if conn.status == DISCONNECTED then CONNECTION
        else if conn.context.value.disconnecting || conn.context.value.freeing || !accepts then HIREDIS
        else OK;
      assert res == conn.Accepts(res == OK);
      if res == OK {
        SubmitKeeps(s, cmd, n);
        cmds := cmds[cmd := cmds[cmd].(submits := cmds[cmd].submits + [n], home := Queued(n))];
        pool := pool[n := pool[n].(replyList := pool[n].replyList + [cmd])];
        inHand := inHand - {cmd};
      } else {
        cmds := cmds[cmd := cmds[cmd].(submits := cmds[cmd].submits + [n])];
        ReworkKeeps(s, cmd, cmds[cmd]);
      }
    }

    /** Hands a command to a connection, and deals with a refusal. */
    method Attempt(n: string, cmd: CmdId) returns (kept: bool)
      requires Valid() && cmd in inHand && n in pool
      requires cmd in cmds && |cmds[cmd].submits| < cmds[cmd].attempts
      modifies this, table, table.hosts
      ensures Valid() && Progress(old(St()), St(), {cmd}, {})
      ensures cmd in cmds && Advanced(old(cmds[cmd]), cmds[cmd])
      ensures old(cmds[cmd]).submits + [n] <= cmds[cmd].submits
      ensures CalmStep(old(St()), St(), polite)
      ensures HeldStep(old(St()), St(), cmd)
      ensures !halted ==> (kept <==> cmds[cmd].home != Done)
      ensures Pitfall(old(St()), n) && old(cmds[cmd]).ttl > TTL_MAX / 2 ==> halted
      decreases budget, 1, fuel, Refusing(pool), TotalHosts(table.history), Astray(pool, table.history, Some(n)), 2
    {
      hide Pitfall, Calm, KindsKept, Inv, Progress, SlotTable.Valid, CalmStep, HeldStep, Refusing, TotalHosts,
          LeadsSome, Astray;
      ghost var s := St();
      Held(s, cmd);
      var res := RedisCmd(n, cmd);
      ghost var s1 := St();
      if Pitfall(s, n) {
        PitfallRefuses(s, n);
      }
      if res == OK {
        SubmitKeeps(s, cmd, n);
        SubmitSettled(s, cmd, n);
        UnhurriedCalm(s, s1, polite);
        return true;
      }
      PitfallSame(s, s1, n);
      kept := Refused(n, cmd);
      ReworkProgress(s, cmd, s1.cmds[cmd], St(), {});
      KindsOne(s.cmds, cmd, s1.cmds[cmd]);
      CalmSame(s, s1, St(), polite);
      HeldSame(s, s1, St(), cmd);
    }

    /** Deals with a command that a connection refused: it is retried elsewhere if the connection is
        closing, else it fails. */
    method Refused(n: string, cmd: CmdId) returns (kept: bool)
      requires Valid() && cmd in inHand && n in pool
      modifies this, table, table.hosts
      ensures Valid() && Progress(old(St()), St(), {cmd}, {})
      ensures cmd in old(cmds) && cmd in cmds && Advanced(old(cmds[cmd]), cmds[cmd])
      ensures CalmStep(old(St()), St(), polite)
      ensures HeldStep(old(St()), St(), cmd)
      ensures !halted ==> (kept <==> cmds[cmd].home != Done)
      ensures Pitfall(old(St()), n) && old(cmds[cmd]).ttl > TTL_MAX / 2 ==> halted
      ensures old(pool[n]).Refusing() ==> Rerouted(old(cmds[cmd]), cmds[cmd], Hasty(old(St()), old(cmds[cmd]).ttl))
      ensures !old(pool[n]).Refusing() ==>
        Answered(old(cmds[cmd]), cmds[cmd], if old(pool[n]).context.None? then CONNECTION else HIREDIS)
      decreases budget, 1, fuel, Refusing(pool), TotalHosts(table.history), Astray(pool, table.history, Some(n)), 1
    {
      hide Pitfall, Inv, Progress, SlotTable.Valid, CalmStep, HeldStep, Refusing, TotalHosts, LeadsSome, Astray;
      ghost var s := St();
      Held(s, cmd);
      if Pitfall(s, n) {
        PitfallRefuses(s, n);
      }
      if pool[n].Refusing() {
        kept := Reroute(n, cmd);
      } else {
        Finish(cmd, if pool[n].context.None? then CONNECTION else HIREDIS);
        BackCalm(s, St(), polite);
        kept := false;
      }
    }

    /** Gives up the connection that refused a command, and forgets the slot of the command. */
    method Unroute(n: string, cmd: CmdId) returns (ghost mid: State)
      requires Valid() && cmd in inHand && n in pool && pool[n].Refusing()
      modifies this, table, table.hosts
      ensures Valid() && Inv(mid) && Progress(old(St()), mid, {}, {})
      ensures cmd in old(cmds) && cmd in mid.cmds && cmd in mid.inHand
      ensures mid.cmds[cmd] == old(cmds[cmd]) && mid.cmds[cmd].home == InHand
      ensures St() == Rework(mid, cmd, old(cmds[cmd]).(slot := -1))
      ensures BackStep(old(St()), mid, polite) && flag != VALID && now == old(now)
      ensures Refusing(pool) <= Refusing(old(pool)) && (!old(Stuck(pool[n])) ==> n !in Refusing(pool))
      ensures Pitfall(old(St()), n) ==> halted || Trapped(St())
      ensures budget <= old(budget) && fuel <= old(fuel) && TotalHosts(table.history) <= TotalHosts(old(table.history))
      ensures LeadsSome(old(table.history), n) ==> TotalHosts(table.history) < TotalHosts(old(table.history))
      decreases budget, 0, 9
    {
      hide Inv, Progress, SlotTable.Valid, Refusing, Trapped, Pitfall, BackStep, OnlyRemoved, LeadsSome, TotalHosts;
      ghost var s := St();
      Held(s, cmd);
      GiveUp(n);
      mid := St();
      HandKept(s, mid, cmd, {});
      RefusingShrinks(s, mid, {}, {});
      LeaderGone(s.history, n, table.history);
      ProgressLater(s, mid, {}, {});
      AllowancesShrink(s, mid, {}, {});
      RefusingHas(pool, n);
      ReworkKeeps(mid, cmd, cmds[cmd].(slot := -1));
      cmds := cmds[cmd := cmds[cmd].(slot := -1)];
      TrappedSame(mid, St());
    }

    /** Retries a command whose connection refused it, anywhere. */
    method Reroute(n: string, cmd: CmdId) returns (kept: bool)
      requires Valid() && cmd in inHand && n in pool && pool[n].Refusing()
      modifies this, table, table.hosts
      ensures Valid() && Progress(old(St()), St(), {cmd}, {})
      ensures cmd in old(cmds) && cmd in cmds && Advanced(old(cmds[cmd]), cmds[cmd])
      ensures Rerouted(old(cmds[cmd]), cmds[cmd], Hasty(old(St()), old(cmds[cmd]).ttl))
      ensures CalmStep(old(St()), St(), polite)
      ensures HeldStep(old(St()), St(), cmd)
      ensures !halted ==> (kept <==> cmds[cmd].home != Done)
      ensures Pitfall(old(St()), n) && old(cmds[cmd]).ttl > TTL_MAX / 2 ==> halted
      decreases budget, 1, fuel, Refusing(pool), TotalHosts(table.history), Astray(pool, table.history, Some(n)), 0
    {
      hide Trapped, Pitfall, Calm, KindsKept, Inv, Progress, SlotTable.Valid, CalmStep, Refusing, BackStep, HeldStep,
          LeadsSome, TotalHosts;
      ghost var s := St();
      RefusingHas(pool, n);
      ghost var mid := Unroute(n, cmd);
      ghost var t := St();
      kept := Retry(cmd, None);
      HaltedKept(t, St(), {cmd}, {});
      ProgressRefl(t);
      RerouteProgress(s, mid, cmd, t, t, St());
      KindsOne(mid.cmds, cmd, t.cmds[cmd]);
      RerouteCalm(s, mid, t, St(), polite);
      HeldStuck(s, St(), n, cmd);
    }

    /** Retries a command: at once while the timer is not running or more than half of the ttl is
        left, else after a delay. */
    method Retry(cmd: CmdId, conn: Option<string>) returns (kept: bool)
      requires Valid() && cmd in inHand && (conn.Some? ==> conn.value in pool)
      modifies this, table, table.hosts
      ensures Valid() && Progress(old(St()), St(), {cmd}, {})
      ensures cmd in old(cmds) && cmd in cmds && Advanced(old(cmds[cmd]), cmds[cmd])
      ensures !Hasty(old(St()), old(cmds[cmd]).ttl) ==> kept && St() == L.Defer(old(St()), cmd)
      ensures conn.None? ==> RetriedAs(old(St()), old(cmds[cmd]), cmds[cmd])
      ensures Hasty(old(St()), old(cmds[cmd]).ttl) && conn.None? && old(cmds[cmd]).ttl > 0 && old(flag) == UPDATING ==>
        St() == L.Park(old(St()), cmd)
      ensures Hasty(old(St()), old(cmds[cmd]).ttl) && conn.Some? ==>
        if old(cmds[cmd]).ttl == 0 then Answered(old(cmds[cmd]), cmds[cmd], Code.TTL)
        else old(cmds[cmd]).submits + [conn.value] <= cmds[cmd].submits
      ensures CalmStep(old(St()), St(), polite)
      ensures HeldStep(old(St()), St(), cmd)
      ensures !halted ==> (kept <==> cmds[cmd].home != Done)
      ensures Trapped(old(St())) && conn.None? && old(cmds[cmd]).ttl > TTL_MAX / 2 ==> halted
      decreases budget, 1, fuel, Refusing(pool), TotalHosts(table.history), Astray(pool, table.history, conn), 10
    {
      hide Trapped, Inv, Progress, SlotTable.Valid, CalmStep, HeldStep, Refusing, TotalHosts, LeadsSome, Astray,
          Executed;
      Held(St(), cmd);
      if !TimerActive() || cmds[cmd].ttl > TTL_MAX / 2 {
        if conn.None? {
          kept := Exec(cmd);
        } else {
          kept := ExecOn(conn, cmd);
        }
        return;
      }
      // An active timer is available, so the command is never refused here.
      assert TimerAvailable();
      kept := AddTimerCmd(cmd);
    }

    /** Delays a command until the timer fires; without a running timer it is executed at once. */
    method AddTimerCmd(cmd: CmdId) returns (kept: bool)
      requires Valid() && cmd in inHand
      modifies this, table, table.hosts
      ensures Valid() && Progress(old(St()), St(), {cmd}, {})
      ensures cmd in old(cmds) && cmd in cmds && Advanced(old(cmds[cmd]), cmds[cmd])
      ensures old(TimerActive()) ==> kept && St() == L.Defer(old(St()), cmd)
      ensures !TimerAvailable() ==>
        cmds[cmd] == old(cmds[cmd]).Completed(TIMER_NOT_AVAILABLE, old(completions)).(destroyed := true)
      ensures TimerAvailable() && !old(TimerActive()) ==> Executed(old(St()), old(cmds[cmd]), cmds[cmd])
      ensures CalmStep(old(St()), St(), polite)
      ensures HeldStep(old(St()), St(), cmd)
      ensures !halted ==> (kept <==> cmds[cmd].home != Done)
      decreases budget, 1, fuel, Refusing(pool), TotalHosts(table.history), 0, 9
    {
      hide Inv, Progress, SlotTable.Valid, CalmStep, HeldStep, Refusing, TotalHosts, LeadsSome, Astray, Executed;
      ghost var s := St();
      Held(s, cmd);
      if !TimerAvailable() {
        Finish(cmd, TIMER_NOT_AVAILABLE);
        BackCalm(s, St(), polite);
        return false;
      }
      if TimerActive() {
        DeferKeeps(s, cmd);
        timerPending := timerPending + [Delay(Deadline(now, interval), cmd)];
        cmds := cmds[cmd := cmds[cmd].(home := Delayed)];
        inHand := inHand - {cmd};
        UnhurriedCalm(s, St(), polite);
        HeldPut(s, St(), cmd);
        return true;
      }
      kept := Exec(cmd);
    }

    /** The leader of a slot, or the initial endpoint if it has none. */
    function Leader(slot: nat): Key
      requires table.hosts.Length == SLOT_NUMBER && slot < SLOT_NUMBER
      reads this, table, table.hosts
    {
      if table.hosts[slot] == [] then init else table.hosts[slot][0]
    }

    /** All hosts of the slot refuse commands. */
    predicate Hopeless(slot: nat)
      requires table.hosts.Length == SLOT_NUMBER && slot < SLOT_NUMBER
      reads this, table, table.hosts
    {
      Doomed(table.hosts[slot], pool)
    }

    /** The leader of some slot, of a hopeless one if luck decides and there is one. */
    ghost predicate Picked(key: Key)
      requires table.hosts.Length == SLOT_NUMBER
      reads this, table, table.hosts
    {
      exists i :: 0 <= i < SLOT_NUMBER && key == Leader(i)
                  && (unlucky && (exists j :: 0 <= j < SLOT_NUMBER && Hopeless(j)) ==> Hopeless(i))
    }

    /** The master of a slot; without one, the leader of a random slot, or the initial endpoint. */
    method GetSlotMaster(index: int) returns (key: Key)
      requires table.Valid()
      ensures if 0 <= index < SLOT_NUMBER && table.hosts[index] != [] then key == table.hosts[index][0] else Picked(key)
    {
      if 0 <= index < SLOT_NUMBER && table.hosts[index] != [] {
        return table.hosts[index][0];
      }
      var random: nat := *;
      var i: nat := random % SLOT_NUMBER;
      if unlucky && exists j :: 0 <= j < SLOT_NUMBER && Hopeless(j) {
        i :| i < SLOT_NUMBER && Hopeless(i);
      }
      if table.hosts[i] == [] {
        key := init;
      } else {
        key := table.hosts[i][0];
      }
      assert key == Leader(i);
    }

    /** Executes a command wherever its slot is served. */
    method Exec(cmd: CmdId) returns (kept: bool)
      requires Valid() && cmd in inHand
      modifies this, table, table.hosts
      ensures Valid() && Progress(old(St()), St(), {cmd}, {})
      ensures cmd in old(cmds) && cmd in cmds && Advanced(old(cmds[cmd]), cmds[cmd])
      ensures Executed(old(St()), old(cmds[cmd]), cmds[cmd])
      ensures old(cmds[cmd]).ttl > 0 && AllReachable(old(St()), init.name) ==>
        if old(flag) != VALID then AskedFor(old(St()), St())
        else |old(cmds[cmd]).submits| < |cmds[cmd].submits|
      ensures old(cmds[cmd]).ttl > 0 && old(flag) == UPDATING ==> St() == L.Park(old(St()), cmd)
      ensures CalmStep(old(St()), St(), polite)
      ensures HeldStep(old(St()), St(), cmd)
      ensures !halted ==> (kept <==> cmds[cmd].home != Done)
      ensures Trapped(old(St())) && old(cmds[cmd]).ttl > 0 ==> halted
      ensures old(flag) == VALID && old(cmds[cmd]).ttl > TTL_MAX / 2 + 1 && Snared(old(St()), old(cmds[cmd]).slot) ==>
        halted
      decreases budget, 1, fuel, Refusing(pool), TotalHosts(table.history), 0, 8
    {
      hide AllReachable, Trapped, Snared, Sent, Inv, ListsProgress, TableProgress, CmdsProgress, PoolProgress,
          SlotTable.Valid, CalmStep, HeldStep, Refusing, CmdsAged, TotalHosts, LeadsSome;
      ghost var s := St();
      Held(s, cmd);
      if cmds[cmd].ttl == 0 {
        Finish(cmd, Code.TTL);
        BackCalm(s, St(), polite);
        return false;
      }
      TrappedSnares(s);
      if flag == INVALID || flag == UPDATING {
        kept := ParkCmd(cmd);
        HeldLoose(s, St(), cmd);
        return;
      }
      kept := ExecRouted(cmd);
    }

    /** The connection for the slot of a command in hand. */
    method Route(cmd: CmdId) returns (conn: Option<string>)
      requires Valid() && cmd in inHand && flag == VALID && cmd in cmds && cmds[cmd].ttl > 0
      modifies this, table, table.hosts
      ensures Valid() && Progress(old(St()), St(), {}, {})
      ensures cmd in inHand && cmd in cmds && cmds[cmd] == old(cmds[cmd]) && (conn.Some? ==> conn.value in pool)
      ensures Refusing(pool) <= Refusing(old(pool)) && TotalHosts(table.history) <= TotalHosts(old(table.history))
      ensures budget <= old(budget) && fuel <= old(fuel)
      ensures Astray(pool, table.history, conn) == 0 || Loose(conn)
      ensures var m := LeaderOf(old(table.history), old(cmds[cmd]).slot);
        m.Some? ==> conn == if m.value in old(pool) || m.value in old(reachable) then m else None
      ensures CalmStep(old(St()), St(), polite) && SettledStep(old(St()), St())
      ensures AllReachable(old(St()), init.name) ==> conn.Some?
      ensures Snared(old(St()), old(cmds[cmd]).slot) ==> conn.Some? && Pitfall(St(), conn.value)
      decreases budget, 1, fuel, Refusing(pool), TotalHosts(table.history), 0, 6
    {
      hide AllReachable, Inv, Progress, SlotTable.Valid, CalmStep, SettledStep, Refusing, TotalHosts, LeadsSome,
          Astray, Snared, Pitfall, Loose;
      ghost var s := St();
      conn := Connect(cmds[cmd].slot);
      HandKept(s, St(), cmd, {});
      RefusingShrinks(s, St(), {}, {});
      AllowancesShrink(s, St(), {}, {});
    }

    /** With the slot table in force, executes a command on the connection for its slot. */
    method ExecRouted(cmd: CmdId) returns (kept: bool)
      requires Valid() && cmd in inHand && flag == VALID && cmd in cmds && cmds[cmd].ttl > 0
      modifies this, table, table.hosts
      ensures Valid() && Progress(old(St()), St(), {cmd}, {})
      ensures cmd in cmds && Advanced(old(cmds[cmd]), cmds[cmd])
      ensures AllReachable(old(St()), init.name) ==> |old(cmds[cmd]).submits| < |cmds[cmd].submits|
      ensures Sent(old(St()), old(cmds[cmd]), cmds[cmd])
      ensures CalmStep(old(St()), St(), polite)
      ensures HeldStep(old(St()), St(), cmd)
      ensures !halted ==> (kept <==> cmds[cmd].home != Done)
      ensures old(cmds[cmd]).ttl > TTL_MAX / 2 + 1 && Snared(old(St()), old(cmds[cmd]).slot) ==> halted
      decreases budget, 1, fuel, Refusing(pool), TotalHosts(table.history), 0, 7
    {
      hide AllReachable, Inv, Progress, SlotTable.Valid, Calm, CalmStep, HeldStep, SettledStep, Refusing,
          TotalHosts, LeadsSome, Astray, LeaderOf, Snared, Pitfall, Loose, BackStep, TrapStep, FrozenStep, Still;
      ghost var s := St();
      var conn := Route(cmd);
      ghost var s1 := St();
      if conn.Some? {
        kept := ExecFound(conn.value, cmd);
      } else {
        Finish(cmd, CONNECTION);
        BackCalm(s1, St(), polite);
        kept := false;
      }
      ProgressThen(s, s1, St(), {cmd}, {});
      CalmTrans(s, s1, St(), polite, {});
      HeldTrans(s, s1, St(), cmd);
    }

    /** The connection of the initial endpoint, with a slot that has no host that serves. */
    ghost predicate Loose(conn: Option<string>)
      reads this, table
    {
      conn == Some(init.name) && !Sheltered(pool, table.history, {})
    }

    /** Submits a command to the connection that the slot table led to, or to that of the initial endpoint.
        Only if the latter has to stay may the retry meet it again; that recursion is cut when `fuel` runs
        out. */
    method ExecFound(n: string, cmd: CmdId) returns (kept: bool)
      requires Valid() && cmd in inHand && n in pool && cmd in cmds && cmds[cmd].ttl > 0
      requires Astray(pool, table.history, Some(n)) == 0 || Loose(Some(n))
      modifies this, table, table.hosts
      ensures Valid() && Progress(old(St()), St(), {cmd}, {})
      ensures cmd in cmds && Advanced(old(cmds[cmd]), cmds[cmd])
      ensures old(cmds[cmd]).submits + [n] <= cmds[cmd].submits
      ensures CalmStep(old(St()), St(), polite)
      ensures HeldStep(old(St()), St(), cmd)
      ensures !halted ==> (kept <==> cmds[cmd].home != Done)
      ensures Pitfall(old(St()), n) && old(cmds[cmd]).ttl > TTL_MAX / 2 + 1 ==> halted
      decreases budget, 1, fuel, Refusing(pool), TotalHosts(table.history), 0, 5
    {
      hide Pitfall, KindsKept, Sheltered, Inv, Progress, SlotTable.Valid, Calm, HeldStep, Refusing, LeadsSome,
          TotalHosts;
      ghost var s := St();
      Held(s, cmd);
      var led := LedBy(n);
      if Stuck(pool[n]) && !led {
        VainCalm(s, polite);
        if fuel == 0 {
          Cut(n, cmd);
          HeldStuck(s, St(), n, cmd);
          return false;
        }
        fuel := fuel - 1;
      }
      ghost var t := St();
      AllowanceKeeps(s, t);
      PitfallSame(s, t, n);
      KindsRefl(cmds);
      kept := ExecOn(Some(n), cmd);
      ProgressThen(s, t, St(), {cmd}, {});
      FoundSame(s, t, St(), polite);
      HeldSame(s, t, St(), cmd);
    }

    /** The connection refuses the command once more, and there the recursion is cut. */
    method Cut(n: string, cmd: CmdId)
      requires Valid() && cmd in inHand && fuel == 0 && cmd in cmds && cmds[cmd].ttl > 0
      modifies this`cmds, this`halted
      ensures Valid() && halted && Progress(old(St()), St(), {cmd}, {})
      ensures cmd in cmds && Advanced(old(cmds[cmd]), cmds[cmd]) && cmds[cmd].submits == old(cmds[cmd]).submits + [n]
    {
      hide Inv, Progress, SlotTable.Valid;
      ghost var s := St();
      Held(s, cmd);
      var v := cmds[cmd];
      var w := v.(ttl := v.ttl - 1, attempts := v.attempts + 1, submits := v.submits + [n]);
      ReworkKeeps(s, cmd, w);
      cmds := cmds[cmd := w];
      ghost var t := St();
      halted := true;
      AllowanceKeeps(t, St());
      HaltProgress(t, St(), {cmd});
      ReworkProgress(s, cmd, w, St(), {});
    }

    /** Whether the host leads one of the slots. */
    method LedBy(n: string) returns (led: bool)
      requires table.Valid()
      ensures led <==> LeadsSome(table.history, n)
    {
      led := exists i :: 0 <= i < SLOT_NUMBER && table.hosts[i] != [] && table.hosts[i][0].name == n;
      forall i | 0 <= i < SLOT_NUMBER
        ensures table.hosts[i] != [] && table.hosts[i][0].name == n <==> Leads(Replay(table.history, i), n)
      {
      }
    }

    /** The table leads to a connection, or some slot has no host. */
    lemma KeyLeads(slot: int, key: Key)
      requires table.Valid()
      requires if 0 <= slot < SLOT_NUMBER && table.hosts[slot] != [] then key == table.hosts[slot][0] else Picked(key)
      ensures LeadsSome(table.history, key.name) || Loose(Some(key.name))
      ensures 0 <= slot < SLOT_NUMBER && table.hosts[slot] != [] ==> LeadsSome(table.history, key.name)
    {
      if 0 <= slot < SLOT_NUMBER && table.hosts[slot] != [] {
        assert Leads(Replay(table.history, slot), key.name);
      } else {
        var i :| 0 <= i < SLOT_NUMBER && key == Leader(i);
        if table.hosts[i] == [] {
          assert !Sheltering(Replay(table.history, i), pool, {});
        } else {
          assert Leads(Replay(table.history, i), key.name);
        }
      }
    }

    /** The table leads to keys that are named after their endpoints. */
    lemma KeyNamed(slot: int, key: Key)
      requires table.Valid() && EndpointNames.Named(init)
      requires if 0 <= slot < SLOT_NUMBER && table.hosts[slot] != [] then key == table.hosts[slot][0] else Picked(key)
      ensures EndpointNames.Named(key)
      ensures LeaderOf(table.history, slot).Some? ==> LeaderOf(table.history, slot) == Some(key.name)
    {
      hide EndpointNames.Named;
      if 0 <= slot < SLOT_NUMBER && table.hosts[slot] != [] {
        assert table.hosts[slot] == Replay(table.history, slot);
        HostsNamed(table.history, slot, key);
      } else {
        var i :| 0 <= i < SLOT_NUMBER && key == Leader(i);
        assert table.hosts[i] == Replay(table.history, i);
        if table.hosts[i] != [] {
          HostsNamed(table.history, i, key);
        }
      }
    }

    /** Where the slot is snared, the choice falls on a connection that refuses commands. */
    lemma KeyTraps(slot: int, key: Key)
      requires table.Valid() && Snared(St(), slot)
      requires if 0 <= slot < SLOT_NUMBER && table.hosts[slot] != [] then key == table.hosts[slot][0] else Picked(key)
      ensures Pitfall(St(), key.name)
    {
      if 0 <= slot < SLOT_NUMBER && table.hosts[slot] != [] {
        assert table.hosts[slot] == Replay(table.history, slot);
      } else if NoneServes(table.history, pool) {
        var i :| 0 <= i < SLOT_NUMBER && key == Leader(i);
        assert AllStuck(Replay(table.history, i), pool);
      } else {
        var j :| 0 <= j < SLOT_NUMBER && Doomed(Replay(table.history, j), pool);
        assert Hopeless(j);
        var i :| 0 <= i < SLOT_NUMBER && key == Leader(i) && Hopeless(i);
        assert DoomedAfter(Replay(table.history, i), pool, key.name);
      }
    }

    lemma KeyReachable(key: Key)
      requires table.Valid() && AllReachable(St(), init.name)
      requires Picked(key) || exists i :: 0 <= i < SLOT_NUMBER && table.hosts[i] != [] && key == table.hosts[i][0]
      ensures key.name in reachable
    {
      if Picked(key) {
        var i :| 0 <= i < SLOT_NUMBER && key == Leader(i);
        if table.hosts[i] != [] {
          assert St().history == table.history && key in Replay(table.history, i);
        }
      } else {
        var i :| 0 <= i < SLOT_NUMBER && table.hosts[i] != [] && key == table.hosts[i][0];
        assert St().history == table.history && key in Replay(table.history, i);
      }
    }

    /** The connection for a slot, made if it is not in the pool. */
    method Connect(slot: int) returns (conn: Option<string>)
      requires Valid()
      modifies this, table, table.hosts
      ensures Valid() && Progress(old(St()), St(), {}, {})
      ensures conn.Some? ==> conn.value in pool
      ensures Astray(pool, table.history, conn) == 0 || Loose(conn)
      ensures var m := LeaderOf(old(table.history), slot);
        m.Some? ==> conn == if m.value in old(pool) || m.value in old(reachable) then m else None
      ensures CalmStep(old(St()), St(), polite)
      ensures SettledStep(old(St()), St())
      ensures AllReachable(old(St()), init.name) ==> conn.Some?
      ensures Snared(old(St()), slot) ==> conn.Some? && Pitfall(St(), conn.value) && St() == old(St())
      decreases budget, 1, fuel, Refusing(pool), TotalHosts(table.history), 0, 5
    {
      hide Snared, Pitfall, Picked, Loose, Inv, Progress, CalmStep, Refusing, LeadsSome, TotalHosts;
      var key := GetSlotMaster(slot);
      KeyNamed(slot, key);
      if AllReachable(St(), init.name) {
        KeyReachable(key);
      }
      if Snared(St(), slot) {
        KeyTraps(slot, key);
        PitfallRefuses(St(), key.name);
      }
      KeyLeads(slot, key);
      if key.name in pool {
        ProgressRefl(St());
        UnhurriedCalm(St(), St(), polite);
        return Some(key.name);
      }
      var made := MakeConnection(key);
      conn := if made then Some(key.name) else None;
    }

    /** Lets a command wait for the slot table, and asks for the table. */
    method ParkCmd(cmd: CmdId) returns (kept: bool)
      requires Valid() && cmd in inHand && flag != VALID && cmd in cmds && cmds[cmd].ttl > 0
      modifies this, table, table.hosts
      ensures Valid() && Progress(old(St()), St(), {cmd}, {})
      ensures cmd in old(cmds) && cmd in cmds && cmds[cmd] == old(cmds[cmd]).(home := Parked)
      ensures AllReachable(old(St()), init.name) ==> AskedFor(old(St()), St())
      ensures CalmStep(old(St()), St(), polite)
      ensures kept
      ensures old(flag) == UPDATING ==> St() == L.Park(old(St()), cmd)
      ensures Trapped(old(St())) ==> halted
      decreases budget, 1, fuel, Refusing(pool), TotalHosts(table.history), 0, 7
    {
      hide AllReachable, AskedFor, Trapped, Inv, ListsProgress, TableProgress, PoolProgress, SlotTable.Valid,
          CalmStep, Refusing, CmdsAged, TotalHosts, LeadsSome, Astray, KindsKept, Calm;
      ghost var s := St();
      ParkKeeps(s, cmd);
      slotPending := slotPending + [cmd];
      cmds := cmds[cmd := cmds[cmd].(home := Parked)];
      inHand := inHand - {cmd};
      ghost var s1 := St();
      TrappedSame(s, s1);
      KindsOne(s.cmds, cmd, cmds[cmd]);
      var asked, query := ReloadSlots();
      ReachableSame(s, s1, St(), init.name);
      ThenProgress(s, s1, St(), {cmd}, {});
      CalmSame(s, s1, St(), polite);
      kept := true;
    }

    /** Opens a connection and adds it to the pool, with a connect timeout while the timer runs. */
    method MakeConnection(key: Key) returns (made: bool)
      requires Valid() && EndpointNames.Named(key)
      modifies this, table, table.hosts
      ensures Valid() && Progress(old(St()), St(), {}, {})
      ensures made ==> key.name in pool && !pool[key.name].Refusing()
      ensures made == (key.name !in old(pool) && key.name in old(reachable))
      ensures !made ==> St() == old(St())
      ensures made ==> Noticed(old(St()), St(), ConnectBegan(key.name))
      ensures CalmStep(old(St()), St(), polite)
      ensures SettledStep(old(St()), St())
      ensures made && auth ==>
        old(nextCmd) in cmds && cmds[old(nextCmd)].kind == Auth && [key.name] <= cmds[old(nextCmd)].submits
      decreases budget, 1, fuel, Refusing(pool), TotalHosts(table.history), 0, 4
    {
      hide EndpointNames.Named, Inv, ListsProgress, TableProgress, CmdsProgress, PoolProgress, SlotTable.Valid,
          CalmStep, Refusing, SettledStep, CmdsAged, TotalHosts, LeadsSome, Astray;
      ghost var s := St();
      if key.name in pool || key.name !in reachable {
        ProgressRefl(s);
        UnhurriedCalm(s, s, polite);
        SettledSame(s, s, {}, {});
        return false;
      }
      OpenConnection(key);
      ghost var s1 := St();
      RefusingShrinks(s, s1, {}, {});
      Authenticate(key.name);
      ghost var s2 := St();
      StaysPooled(s1, s2, key.name);
      ProgressThen(s, s1, s2, {}, {});
      UserCallback(ConnectBegan(key.name));
      NoticesGrow(s, s2, {}, {});
      NoticedNext(s, s2, St(), ConnectBegan(key.name));
      AdvancesOn(s2, St(), s.nextCmd);
      StaysPooled(s2, St(), key.name);
      ProgressThen(s, s2, St(), {}, {});
      OpenSteps(s, s1, s2, St(), polite);
      made := true;
    }

    method OpenConnection(key: Key)
      requires Valid() && key.name !in pool && key.name in reachable && EndpointNames.Named(key)
      modifies this`pool, this`seqAlloc, this`timerConns
      ensures Valid() && Progress(old(St()), St(), {}, {})
      ensures Unhurried(old(St()), St()) && SettledStep(old(St()), St())
      ensures key.name in pool && pool[key.name].key == key && pool[key.name].status == CONNECTING
      ensures !pool[key.name].Refusing() && old(seqAlloc) <= pool[key.name].sequence
      ensures connTimeout > 0 && TimerActive() ==>
        timerConns == old(timerConns) + [ConnTimeout(key.name, pool[key.name].sequence, now.sec + connTimeout)]
      ensures pool[key.name].replyList == [] && nextCmd == old(nextCmd)
      ensures !(connTimeout > 0 && TimerActive()) ==> timerConns == old(timerConns)
    {
      hide EndpointNames.Named, Inv, Progress, SlotTable.Valid, SettledStep;
      ghost var s := St();
      var drawn, sequence, next;
      drawn, next := MakeSequence(seqAlloc);
      sequence, next := MakeSequence(next);
      var id: nat := *;
      var v := ConnState(key, CONNECTING, Some(Context(id, false, false, false, NoError)), sequence, []);
      var timed := connTimeout > 0 && TimerActive();
      OpenKeeps(s, key.name, v, next, timed, now.sec + connTimeout);
      pool, seqAlloc := pool[key.name := v], next;
      if timed {
        timerConns := timerConns + [ConnTimeout(key.name, sequence, now.sec + connTimeout)];
      }
      SettledSame(s, St(), {}, {});
    }

    method Authenticate(n: string)
      requires Valid() && n in pool && !pool[n].Refusing()
      modifies this, table, table.hosts
      ensures Valid() && Progress(old(St()), St(), {}, {})
      ensures CalmStep(old(St()), St(), polite)
      ensures SettledStep(old(St()), St())
      ensures !auth ==> St() == old(St())
      ensures auth ==> old(nextCmd) in cmds && cmds[old(nextCmd)].kind == Auth && [n] <= cmds[old(nextCmd)].submits
      decreases budget, 1, fuel, Refusing(pool), TotalHosts(table.history), 0, 4, 0
    {
      hide KindsKept, Calm, Inv, Progress, SlotTable.Valid, CalmStep, HeldStep, Refusing, SettledStep, TotalHosts,
          LeadsSome;
      ghost var s := St();
      if !auth {
        ProgressRefl(s);
        UnhurriedCalm(s, s, polite);
        SettledSame(s, s, {}, {});
        return;
      }
      var c := NewCommand(Auth, true, -1);
      ghost var s1 := St();
      var kept := ExecOn(Some(n), c);
      CreateProgress(s, s1.cmds[c], St());
      KindsOne(s.cmds, c, s1.cmds[c]);
      CalmSame(s, s1, St(), polite);
      HeldSettled(s1, St(), c);
      SettledCreate(s, s1, St());
    }

    /** Asks a connection for the slot table, unless that is under way. */
    method ReloadSlots() returns (asked: bool, ghost query: CmdId)
      requires Valid()
      modifies this, table, table.hosts
      ensures Valid() && Progress(old(St()), St(), {}, {})
      ensures old(flag) == UPDATING ==> St() == old(St())
      ensures asked && !halted ==>
        && old(nextCmd) <= query && query in cmds && cmds[query].kind == SlotQuery && cmds[query].submits != []
        && (cmds[query].home != Done ==> flag == UPDATING)
      ensures AllReachable(old(St()), init.name) ==> AskedFor(old(St()), St())
      ensures CalmStep(old(St()), St(), polite)
      ensures Trapped(old(St())) ==> halted
      decreases budget, 1, fuel, Refusing(pool), TotalHosts(table.history), 0, 6
    {
      hide AllReachable, Trapped, Snared, Pitfall, Loose, Calm, Inv, ListsProgress, TableProgress, CmdsProgress,
          PoolProgress, SlotTable.Valid, CalmStep, HeldStep, Refusing, SettledStep, CmdsAged, TotalHosts, LeadsSome,
          Astray;
      ghost var s := St();
      TrappedSnares(s);
      if flag == UPDATING {
        ProgressRefl(s);
        UnhurriedCalm(s, s, polite);
        return false, 0;
      }
      var conn := Connect(-1);
      ghost var t := St();
      if conn.None? {
        return false, 0;
      }
      RefusingShrinks(s, t, {}, {});
      AllowancesShrink(s, t, {}, {});
      ProgressLater(s, t, {}, {});
      query := SendQuery(conn.value);
      ProgressThen(s, t, St(), {}, {});
      CalmTrans(s, t, St(), polite, {});
      asked := true;
    }

    /** Submits a slot query; the table counts as asked for while that is alive. */
    method SendQuery(n: string) returns (c: CmdId)
      requires Valid() && n in pool
      requires Astray(pool, table.history, Some(n)) == 0 || Loose(Some(n))
      modifies this, table, table.hosts
      ensures Valid() && Progress(old(St()), St(), {}, {}) && c == old(nextCmd)
      ensures !halted ==>
        && c in cmds && cmds[c].kind == SlotQuery && cmds[c].submits != []
        && (cmds[c].home != Done ==> flag == UPDATING)
      ensures CalmStep(old(St()), St(), polite)
      ensures Pitfall(old(St()), n) ==> halted
      decreases budget, 1, fuel, Refusing(pool), TotalHosts(table.history), 0, 6, 0
    {
      hide Pitfall, Calm, KindsKept, Sheltered, Inv, Progress, SlotTable.Valid, CalmStep, HeldStep, Refusing,
          SettledStep, TotalHosts, LeadsSome, Astray;
      ghost var s := St();
      c := NewCommand(SlotQuery, true, -1);
      ghost var t := St();
      PitfallSame(s, t, n);
      var kept := ExecFound(n, c);
      ghost var u := St();
      CreateProgress(s, t.cmds[c], u);
      KindsOne(s.cmds, c, t.cmds[c]);
      CalmSame(s, t, u, polite);
      if kept {
        flag := UPDATING;
      }
      AllowanceKeeps(u, St());
      ProgressThen(s, u, St(), {}, {});
      CalmEnd(s, u, St(), polite);
    }

    /** The user executes a command for a key. */
    method ExecKey(key: Option<seq<Crc16.Byte>>, given: bool) returns (c: CmdId, kept: bool)
      requires Valid() && Rest(St())
      modifies this, table, table.hosts
      ensures Valid() && Rest(St()) && Onward(old(St()), St(), polite)
      ensures Progress(old(St()), St(), {}, {})
      ensures c !in old(cmds) && c in cmds && Advanced(NewCmd(User, given), cmds[c])
      ensures !halted ==> (kept <==> cmds[c].home != Done)
      ensures Executed(old(St()), NewCmd(User, given).(slot := KeySlot(key)), cmds[c])
      ensures Trapped(old(St())) || (old(flag) == VALID && Snared(old(St()), KeySlot(key))) ==> halted
    {
      hide Executed, Trapped, Snared, Inv, Progress, Holding, SlotTable.Valid, CalmStep, SettledStep, Onward, KeySlot,
          Refusing;
      ghost var s := St();
      var slot := HashSlot(key);
      c := NewCommand(User, given, slot);
      ghost var t := St();
      TrappedSame(s, t);
      SnaredSame(s, t, slot);
      kept := Exec(c);
      CreateProgress(s, t.cmds[c], St());
      ExecutedSame(s, t, t.cmds[c], t.cmds[c], cmds[c]);
      SubmitProgress(s, t, c, St(), polite);
    }

    /** Asks for the slot table. */
    method Start()
      requires Valid() && Rest(St())
      modifies this, table, table.hosts
      ensures Valid() && Rest(St()) && Onward(old(St()), St(), polite)
      ensures Progress(old(St()), St(), {}, {})
      ensures AllReachable(old(St()), init.name) ==> AskedFor(old(St()), St())
      ensures Trapped(old(St())) ==> halted
      ensures forall c <- old(cmds) :: c in cmds && old(cmds)[c].submits <= cmds[c].submits
    {
      hide AllReachable, Trapped, Inv, Progress, Holding, SlotTable.Valid, CalmStep, Onward, Refusing;
      ghost var s := St();
      var asked, query := ReloadSlots();
      RestKept(s, St(), {});
      ProgressOnward(s, St(), {}, polite);
      SubmitsGrow(s, St(), {}, {});
    }

    // ---- The slot table arrives.

    /** The oldest parked command comes into hand. */
    method TakeParked() returns (c: CmdId)
      requires Valid() && slotPending != []
      modifies this`slotPending, this`cmds, this`inHand
      ensures c == old(slotPending)[0] && c in old(cmds) && old(cmds[c]).home == Parked && c in cmds && c in inHand
      ensures c !in old(inHand) && Valid() && St() == Unpark(old(St())) && cmds[c] == old(cmds[c]).(home := InHand)
    {
      hide Inv, SlotTable.Valid;
      UnparkKeeps(St());
      c := slotPending[0];
      slotPending := slotPending[1..];
      cmds := cmds[c := cmds[c].(home := InHand)];
      inHand := inHand + {c};
    }

    /** Takes the oldest parked command off the list and retries it. */
    method RetryFirst()
      requires Valid() && slotPending != []
      modifies this, table, table.hosts
      ensures old(slotPending)[0] in old(cmds) && old(cmds[slotPending[0]]).home == Parked
      ensures var c := old(slotPending)[0];
        && c in cmds && RetriedAs(old(St()), old(cmds[slotPending[0]]), cmds[c])
        && (!Hasty(old(St()), old(cmds[slotPending[0]]).ttl) ==> St() == Defer(Unpark(old(St())), c))
      ensures Inv(Unpark(old(St()))) && Valid() && Progress(Unpark(old(St())), St(), {old(slotPending)[0]}, {})
      ensures CalmStep(Unpark(old(St())), St(), polite) && HeldStep(Unpark(old(St())), St(), old(slotPending)[0])
      ensures OnlyRemoved(old(table.history), table.history)
      ensures Sweep(old(St()), St(), {old(slotPending)[0]})
      ensures Spinning(old(St())) ==> Spinning(St())
      ensures budget <= old(budget) && fuel <= old(fuel)
    {
      hide Executed, RetriedAs, Hasty, Spinning, Trapped, OnlyRemoved, Inv, Progress, CalmStep, HeldStep,
          SlotTable.Valid, Refusing, Sweep;
      ghost var s := St();
      var c := TakeParked();
      ghost var u := St();
      ParkedLives(s, c);
      var kept := Retry(c, None);
      RetriedSame(s, u, s.cmds[c], u.cmds[c], cmds[c]);
      HastySame(s, u, s.cmds[c].ttl);
      TakenSweep(s, c, u, St());
      if Spinning(s) {
        SpinningLoose(s);
        if Hasty(s, s.cmds[c].ttl) {
          RetriedParks(s, s.cmds[c], cmds[c]);
        }
        SpinsOn(s, St());
      }
      ProgressRemoved(u, St(), {c}, {});
      AllowancesShrink(u, St(), {c}, {});
    }

    /** One iteration of the drain that started in s. */
    method DrainOnce(ghost s: State, ghost easy: bool, ghost retried: seq<CmdId>, ghost failed: nat)
      returns (ghost failed': nat)
      requires AllRetried(s, St())
      requires Valid() && slotPending != [] && Inv(s) && Sweep(s, St(), set c <- s.slotPending)
      requires easy ==>
        !s.halted && Settled(s) && Draining(s, St(), retried, failed) && Routing(s, St(), retried, failed)
      modifies this, table, table.hosts
      ensures Valid() && Sweep(s, St(), set c <- s.slotPending) && OnlyRemoved(old(table.history), table.history)
      ensures AllRetried(s, St())
      ensures easy ==> Draining(s, St(), retried + [old(slotPending)[0]], failed')
      ensures easy ==> Routing(s, St(), retried + [old(slotPending)[0]], failed')
      ensures easy ==>
        || (failed' < |s.slotPending| && HastyAfter(s, failed'))
        || (fuel == old(fuel) && |slotPending| < |old(slotPending)|)
      ensures Spinning(old(St())) ==> Spinning(St())
      ensures budget <= old(budget) && fuel <= old(fuel)
    {
      hide Spinning, OnlyRemoved, Inv, Progress, SlotTable.Valid, CalmStep, HeldStep, Draining, Routing, RetriedAs,
          Redone, AllRetried, Settled, Sweep, HastyAfter;
      ghost var t := St();
      RetryFirst();
      SweepNext(s, t, St(), t.slotPending[0]);
      RetriedRedone(t, t.cmds[t.slotPending[0]], t.cmds[t.slotPending[0]], cmds[t.slotPending[0]]);
      AllRetriedNext(s, t, St());
      if easy {
        DrainGoesOn(s, t, St(), retried, failed, polite);
        RoutingGoesOn(s, t, St(), retried, failed);
      }
      failed' := if failed == |s.slotPending| && flag != VALID then |retried| else failed;
    }

    /** An iteration of the drain that got nowhere costs fuel. */
    method Charge(ghost s: State, ghost easy: bool, ghost retried: seq<CmdId>, ghost failed: nat)
      requires Valid() && Sweep(s, St(), set c <- s.slotPending)
      requires easy ==> Draining(s, St(), retried, failed) && Routing(s, St(), retried, failed)
      requires easy ==> failed < |s.slotPending| && HastyAfter(s, failed)
      requires AllRetried(s, St())
      modifies this`fuel, this`halted
      ensures Valid() && Sweep(s, St(), set c <- s.slotPending) && (Spinning(old(St())) ==> Spinning(St()))
      ensures AllRetried(s, St())
      ensures if old(fuel) == 0 then halted && fuel == 0 else fuel == old(fuel) - 1 && halted == old(halted)
      ensures easy ==> Draining(s, St(), retried, failed) && Routing(s, St(), retried, failed)
      ensures easy ==> halted ==> DrainOutcome(s, St(), retried, failed)
    {
      hide Spinning, Inv, SlotTable.Valid, Draining, Routing, DrainOutcome, Sweep, HastyAfter;
      ghost var t := St();
      if fuel == 0 {
        halted := true;
      } else {
        fuel := fuel - 1;
      }
      SweepStop(s, t, St(), set c <- s.slotPending);
      SpinningSame(t, St());
      if easy {
        DrainCharged(s, t, St(), retried, failed);
      }
    }

    /** Retries every parked command, oldest first. A command that is parked again costs no ttl, so the
        loop need not end; that is cut when `fuel` runs out. */
    method DrainPending() returns (ghost retried: seq<CmdId>, ghost failed: nat)
      requires Valid()
      modifies this, table, table.hosts
      ensures Valid() && Sweep(old(St()), St(), set c <- old(slotPending))
      ensures OnlyRemoved(old(table.history), table.history)
      // Whatever happens, every parked command is retried, and none stays unless the loop does not end.
      ensures AllRetried(old(St()), St()) && (slotPending == [] || halted)
      ensures Spinning(old(St())) ==> halted
      ensures Settled(old(St())) && !old(halted) ==> DrainOutcome(old(St()), St(), retried, failed)
    {
      hide AllRetried, Spinning, OnlyRemoved, Inv, Progress, SlotTable.Valid, Refusing, CalmStep, HeldStep, Settled,
          Draining, Routing, DrainOutcome, Sweep, HastyAfter;
      ghost var s := St();
      SweepSame(s, s);
      AllRetriedBegins(s);
      NothingRemoved(s.history);
      ghost var easy := Settled(s) && !s.halted;
      retried, failed := [], |slotPending|;
      if easy {
        DrainBegins(s);
      }
      while slotPending != []
        invariant Spinning(s) ==> Spinning(St())
        invariant Valid() && Sweep(s, St(), set c <- s.slotPending) && OnlyRemoved(s.history, table.history)
        invariant AllRetried(s, St())
        invariant easy ==> Draining(s, St(), retried, failed) && Routing(s, St(), retried, failed)
        decreases budget, fuel, |slotPending|
      {
        ghost var t := St();
        var budgetBefore, fuelBefore, before := budget, fuel, |slotPending|;
        failed := DrainOnce(s, easy, retried, failed);
        OnlyRemovedTrans(s.history, t.history, table.history);
        retried := retried + [t.slotPending[0]];
        if budget == budgetBefore && fuel == fuelBefore && before <= |slotPending| {
          Charge(s, easy, retried, failed);
          if fuelBefore == 0 {
            return;
          }
        }
      }
      SpinningWaits(St());
      if easy {
        DrainEnds(s, St(), retried, failed);
      }
    }

    /** The callback of the slot query. A usable reply replaces the whole table, and the table is in
        force before any command is retried. */
    method OnReplyUpdateSlot(r: Option<Reply>, rctx: Option<Peer>)
      returns (ghost retried: seq<CmdId>, ghost failed: nat)
      requires Valid()
      modifies this, table, table.hosts
      ensures Valid() && Sweep(old(St()), St(), set c <- old(slotPending))
      ensures IsSlotReply(r) ==> OnlyRemoved(old(table.history) + [Edit.Rebuild(r.value.elements, rctx)], table.history)
      ensures IsSlotReply(r) ==> AllRetried(old(St()), St()) && (slotPending == [] || halted)
      ensures !IsSlotReply(r) ==> St() == old(St()).(flag := INVALID)
      ensures IsSlotReply(r) && Refusing(old(pool)) == {} && !old(halted) ==>
        DrainOutcome(TableArrived(old(St()), r.value.elements, rctx), St(), retried, failed)
    {
      hide Inv, Sweep, DrainOutcome, Refusing;
      ghost var s := St();
      retried, failed := [], 0;
      if r.None? || !r.value.Array? || |r.value.elements| == 0 || r.value.elements[0].None?
         || !(r.value.elements[0].value.Array? || r.value.elements[0].value.BareArray?) {
        flag := INVALID;
        SweepSame(s, St());
        return;
      }
      table.Rebuild(r.value.elements, rctx);
      flag := VALID;
      ghost var t := St();
      SweepSame(s, t);
      retried, failed := DrainPending();
      SweepChain(s, t, St());
    }

    /** What a callback does with a reply: the user is told and may submit further commands, a slot query takes
        the table. */
    method CallBackWith(kind: Kind, x: Notice, r: Option<Reply>, rctx: Option<Peer>)
      requires Valid() && (kind == User ==> Tellable(St(), x))
      modifies this, table, table.hosts
      ensures Valid() && Sweep(old(St()), St(), set c <- old(slotPending))
      ensures kind == User ==> old(notices) + [x] <= notices
      ensures kind != SlotQuery ==> old(notices) <= notices && (flag == VALID ==> old(flag) == VALID)
      ensures kind == SlotQuery ==> TableTaken(old(St()), St(), r, rctx)
      ensures !(kind == SlotQuery && IsSlotReply(r)) ==> Progress(old(St()), St(), {}, {})
      ensures Brief(old(St()), kind, IsSlotReply(r)) ==> BackStep(old(St()), St(), polite)
    {
      hide Inv, Progress, Sweep, DrainOutcome, Orderly, Refusing, Calm, SlotTable.Valid, Tellable;
      ghost var s := St();
      SweepSame(s, s);
      ProgressRefl(s);
      match kind {
        case User =>
          UserCallback(x);
          ParkedNotHeld(s);
          ProgressSweep(s, St(), set c <- s.slotPending);
          ProgressFlag(s, St(), {}, {});
        case SlotQuery =>
          ghost var retried, failed := OnReplyUpdateSlot(r, rctx);
          if !IsSlotReply(r) {
            AllowanceKeeps(s, St());
          }
          if IsSlotReply(r) && Brief(s, SlotQuery, true) {
            OrderlyArrived(s, r.value.elements, rctx);
            OrderlyEnds(TableArrived(s, r.value.elements, rctx), St(), retried, failed);
          }
        case Auth =>
      }
    }

    /** Completes a command in hand with a reply. */
    method Answer(cmd: CmdId, code: Code, r: Option<Reply>, rctx: Option<Peer>)
      requires Valid() && cmd in inHand
      modifies this, table, table.hosts
      ensures Valid() && Sweep(old(St()), St(), {cmd} + set c <- old(slotPending))
      ensures cmd in old(cmds) && cmd in cmds
      ensures cmds[cmd] == old(cmds[cmd]).Completed(code, old(completions)).(destroyed := true)
      ensures old(cmds[cmd]).callback && old(cmds[cmd]).kind == User ==> old(notices) + [Told(cmd, code)] <= notices
      ensures !old(cmds[cmd]).callback ==> notices == old(notices) && flag == old(flag)
      ensures old(cmds[cmd]).kind != SlotQuery ==> old(notices) <= notices && (flag == VALID ==> old(flag) == VALID)
      ensures old(cmds[cmd]).callback && old(cmds[cmd]).kind == SlotQuery ==> TableTaken(old(St()), St(), r, rctx)
      ensures !(old(cmds[cmd]).callback && old(cmds[cmd]).kind == SlotQuery && IsSlotReply(r)) ==>
        Progress(old(St()), St(), {cmd}, {})
      ensures Brief(old(St()), old(cmds[cmd]).kind, IsSlotReply(r)) ==> BackStep(old(St()), St(), polite)
    {
      hide IsSlotReply, TableTaken, Progress, Inv, Sweep, Refusing, BackStep, Brief, SlotTable.Valid, Tellable, ToldOf;
      ghost var s := St();
      Held(s, cmd);
      CompleteTells(s, cmd, code);
      var fire := CallCmd(cmd, code);
      ghost var t := St();
      SweepSame(t, t);
      ghost var brief := Brief(s, s.cmds[cmd].kind, IsSlotReply(r));
      if brief {
        BriefSame(s, t, cmd, s.cmds[cmd].kind, IsSlotReply(r));
      }
      BackRefl(t, polite);
      ProgressRefl(t);
      if fire {
        CallBackWith(cmds[cmd].kind, Told(cmd, code), r, rctx);
      }
      EndAnswer(cmd, code, s, r, rctx);
    }

    /** The command whose callback has run is destroyed. */
    method EndAnswer(cmd: CmdId, code: Code, ghost s: State, ghost r: Option<Reply>, ghost rctx: Option<Peer>)
      requires Valid() && Inv(s) && cmd in s.inHand && cmd in s.cmds
      requires Sweep(L.Complete(s, cmd, code), St(), set c <- s.slotPending)
      requires s.cmds[cmd].callback && s.cmds[cmd].kind == User ==> s.notices + [Told(cmd, code)] <= notices
      modifies this`cmds, this`dying
      ensures Valid() && Sweep(s, St(), {cmd} + set c <- s.slotPending)
      ensures cmd in cmds && cmds[cmd] == s.cmds[cmd].Completed(code, s.completions).(destroyed := true)
      ensures TableTaken(L.Complete(s, cmd, code), old(St()), r, rctx) ==> TableTaken(s, St(), r, rctx)
      ensures Progress(L.Complete(s, cmd, code), old(St()), {}, {}) ==> Progress(s, St(), {cmd}, {})
      ensures BackStep(L.Complete(s, cmd, code), old(St()), polite) ==> BackStep(s, St(), polite)
    {
      hide TableTaken, Progress, Inv, Sweep, Refusing, BackStep, SlotTable.Valid, ToldOf;
      ghost var t := St();
      AnswerSweep(s, cmd, code, t);
      FinishTells(s, cmd, code, t);
      DestroyCmd(cmd);
      NotParked(s, cmd);
      ParkedKnownAll(s);
      if TableTaken(L.Complete(s, cmd, code), t, r, rctx) {
        TableTakenFrom(s, L.Complete(s, cmd, code), t, St(), r, rctx);
      }
      if Progress(L.Complete(s, cmd, code), t, {}, {}) {
        FinishProgress(s, cmd, code, t);
      }
      if BackStep(L.Complete(s, cmd, code), t, polite) {
        AnswerEnds(s, cmd, code, t, polite);
      }
    }

    // ---- Replies.

    /** Takes a command off the reply list of a connection. The commands ahead of it were never answered; they
        time out, oldest first. A command that is not queued there changes nothing. A connection that is closing
        runs its callback, or is being released: else the callbacks of those commands could release it. */
    method PopReply(n: string, cmd: CmdId) returns (found: bool, ghost mid: State)
      requires Valid() && n in pool && !MayGo(pool[n])
      modifies this, table, table.hosts
      ensures found == (cmd in old(pool[n]).replyList) && (!found ==> St() == old(St()))
      ensures found ==> ghost var list := old(pool[n]).replyList; ghost var i := IndexOf(list, cmd);
        && Elsewhere(old(St()), mid, n, set c <- list[..i])
        && CompletedInOrder(old(St()), mid, list[..i], TIMEOUT)
        && n in mid.pool && mid.pool[n].replyList != [] && mid.pool[n].replyList[0] == cmd
        && cmd in mid.cmds && St() == Dequeue(mid, n)
        && cmd in old(cmds) && mid.cmds[cmd] == old(cmds[cmd])
        && Grown(old(pool[n]).(replyList := list[i..]), mid.pool[n])
        && (i == 0 ==> mid == old(St()))
      ensures Valid() && Inv(mid)
      ensures BackStep(old(St()), St(), polite) && (Calm(old(St()), polite) ==> Calm(mid, polite))
    {
      hide Inv, Emptying, Elsewhere, SlotTable.Valid, Refusing, Calm;
      mid, found := St(), cmd in pool[n].replyList;
      if !found {
        return;
      }
      mid := ExpireAhead(n, cmd);
      TakeFirst(n);
    }

    /** Times out the commands ahead of a queued one, oldest first. */
    method ExpireAhead(n: string, cmd: CmdId) returns (ghost mid: State)
      requires Valid() && n in pool && !MayGo(pool[n]) && cmd in pool[n].replyList
      modifies this, table, table.hosts
      ensures ghost var list := old(pool[n]).replyList; ghost var i := IndexOf(list, cmd);
        && Elsewhere(old(St()), mid, n, set c <- list[..i])
        && CompletedInOrder(old(St()), mid, list[..i], TIMEOUT)
        && n in mid.pool && mid.pool[n].replyList != [] && mid.pool[n].replyList[0] == cmd
        && cmd in old(cmds) && cmd in mid.cmds && mid.cmds[cmd] == old(cmds[cmd])
        && Grown(old(pool[n]).(replyList := list[i..]), mid.pool[n])
        && (i == 0 ==> mid == old(St()))
      ensures Valid() && mid == St()
      ensures BackStep(old(St()), St(), polite) && (Calm(old(St()), polite) ==> Calm(mid, polite))
    {
      hide Inv, Emptying, Elsewhere, CompletedInOrder, SlotTable.Valid, Refusing, Calm, BackStep, ListStep, Grown,
          IndexOf;
      ghost var s, list, calm := St(), pool[n].replyList, Calm(St(), polite);
      ghost var at := IndexOf(list, cmd);
      ghost var k := 0;
      GrownRefl(s.pool[n], list);
      ElsewhereRefl(s, n, {});
      EmptyingBegins(s, s, n, at, TIMEOUT);
      while pool[n].replyList[0] != cmd
        invariant Valid() && n in pool && k <= at
        invariant Grown(s.pool[n].(replyList := list[k..]), pool[n])
        invariant pool[n].replyList != [] && pool[n].replyList[0] == list[k]
        invariant Emptying(s, St(), n, list, at, k, TIMEOUT)
        invariant polite || calm ==> Unhurried(s, St())
        invariant calm ==> Calm(St(), polite)
        invariant k == 0 ==> St() == s
        decreases at - k
      {
        ghost var t := St();
        ExpireFront(n, s, list, at, k);
        BackUnhurried(t, St(), polite);
        k := k + 1;
      }
      NoDupAt(list, k, at);
      mid := St();
      UnhurriedBack(s, mid, polite);
      EmptyingFacts(s, mid, n, list, at, at, TIMEOUT);
    }

    /** Times out the oldest queued command, the one at position k of the list at the start. */
    method ExpireFront(n: string, ghost s: State, ghost list: seq<CmdId>, ghost at: nat, ghost k: nat)
      requires Valid() && n in pool && n in s.pool && !MayGo(s.pool[n]) && k < at < |list| && NoDup(list)
      requires Grown(s.pool[n].(replyList := list[k..]), pool[n]) && Emptying(s, St(), n, list, at, k, TIMEOUT)
      modifies this, table, table.hosts
      ensures Valid() && n in pool && Grown(s.pool[n].(replyList := list[k + 1..]), pool[n])
      ensures pool[n].replyList != [] && pool[n].replyList[0] == list[k + 1]
      ensures Emptying(s, St(), n, list, at, k + 1, TIMEOUT)
      ensures BackStep(old(St()), St(), polite) && (Calm(old(St()), polite) ==> Calm(St(), polite))
    {
      hide Inv, Emptying, Elsewhere, SlotTable.Valid, Refusing, Calm, BackStep, ListStep;
      ghost var t := St();
      DropFirst(n, TIMEOUT);
      EmptyingNext(s, t, St(), n, list, at, k, TIMEOUT);
      if Calm(t, polite) {
        DroppedCalm(t, St(), n, TIMEOUT, polite);
      }
    }

    /** The oldest command of a reply list comes into hand. */
    method TakeFirst(n: string)
      requires Valid() && n in pool && pool[n].replyList != []
      modifies this`pool, this`cmds, this`inHand
      ensures old(pool[n]).replyList[0] in old(cmds) && Valid() && St() == Dequeue(old(St()), n)
      ensures Refusing(pool) == Refusing(old(pool)) && old(cmds[pool[n].replyList[0]]).home == Queued(n)
    {
      hide Inv, SlotTable.Valid, Refusing;
      DequeueKeeps(St(), n);
      var c := pool[n].replyList[0];
      pool := pool[n := pool[n].(replyList := pool[n].replyList[1..])];
      cmds := cmds[c := cmds[c].(home := InHand)];
      inHand := inHand + {c};
    }

    /** The code a reply is delivered with: an error of the context or of the reply, else the code the
        command carries. */
    predicate Failed(v: ConnState, r: Option<Reply>) {
      v.context.Some? && (v.context.value.err != NoError || (r.Some? && r.value.ErrorLine?))
    }

    /** At rest, takes a command off the reply list of a connection that runs its callback. */
    method Take(n: string, cmd: CmdId) returns (ghost mid: State)
      requires Valid() && Rest(St()) && n in pool && cmd in pool[n].replyList && pool[n].InCallback()
      modifies this, table, table.hosts
      ensures Valid() && Holding(St(), {cmd}, {}) && cmd in inHand
      ensures cmd in old(cmds) && old(cmds[cmd]).home == Queued(n)
      ensures cmd in cmds && cmds[cmd] == old(cmds[cmd]).(home := InHand)
      ensures var list := old(pool[n]).replyList; var i := IndexOf(list, cmd);
        && CompletedInOrder(old(St()), St(), list[..i], TIMEOUT)
        && n in pool && Grown(old(pool[n]).(replyList := list[i + 1..]), pool[n])
        && (i == 0 ==> St() == Dequeue(old(St()), n))
      ensures InFront(old(St()), mid, n, cmd) && St() == Dequeue(mid, n)
      ensures OpenKept(old(pool), pool)
      ensures Onward(old(St()), St(), polite) && BackStep(old(St()), St(), polite)
    {
      hide OpenKept, Inv, Elsewhere, CompletedInOrder, SlotTable.Valid, Refusing, Holding, Onward, Calm;
      ghost var s, list := St(), pool[n].replyList;
      ghost var i := IndexOf(list, cmd);
      RestOpen(s, n);
      var found;
      found, mid := PopReply(n, cmd);
      TakeFacts(s, mid, n, cmd, list[..i]);
      TakeOnward(s, mid, n, (set c <- list[..i]), polite);
      assert list[i..][1..] == list[i + 1..];
    }

    /** At rest, completes the one command in hand with a reply. */
    method AnswerHeld(cmd: CmdId, code: Code, r: Option<Reply>, rctx: Option<Peer>)
      requires Valid() && Holding(St(), {cmd}, {}) && cmd in inHand
      modifies this, table, table.hosts
      ensures Valid() && Rest(St()) && Later(old(St()), St())
      ensures cmd in old(cmds) && cmd in cmds && cmds[cmd].finishedAt == old(completions)
      ensures Answered(old(cmds[cmd]), cmds[cmd], code)
      ensures old(cmds[cmd]).callback && old(cmds[cmd]).kind == User ==> old(notices) + [Told(cmd, code)] <= notices
      ensures old(cmds[cmd]).kind != SlotQuery ==> old(notices) <= notices && (flag == VALID ==> old(flag) == VALID)
      ensures old(cmds[cmd]).callback && old(cmds[cmd]).kind == SlotQuery ==> TableTaken(old(St()), St(), r, rctx)
      ensures !(old(cmds[cmd]).callback && old(cmds[cmd]).kind == SlotQuery && IsSlotReply(r)) ==>
        Progress(old(St()), St(), {cmd}, {})
      ensures CmdsProgress(old(cmds), cmds, {cmd} + set c <- old(slotPending))
      ensures Brief(old(St()), old(cmds[cmd]).kind, IsSlotReply(r)) ==> BackStep(old(St()), St(), polite)
    {
      hide TableTaken, Progress, CmdsProgress, Inv, Sweep, SlotTable.Valid, Holding, Later, BackStep, Brief;
      ghost var t := St();
      Answer(cmd, code, r, rctx);
      HandedOver(t, St(), cmd, set c <- t.slotPending);
      SweepCmds(t, St(), {cmd} + set c <- t.slotPending);
      SweepLater(t, St(), {cmd} + set c <- t.slotPending);
    }

    /** To deliver the reply surely ends: if it is a slot table, nothing may be ahead of the query, no connection
        closing and no command that is retried at once parked behind a query. */
    ghost predicate Ends(n: string, cmd: CmdId, r: Option<Reply>)
      requires n in pool && pool[n].replyList != [] && cmd in cmds
      reads this, table
    {
      Brief(St(), cmds[cmd].kind, IsSlotReply(r)) && (IsSlotReply(r) ==> pool[n].replyList[0] == cmd)
    }

    lemma TakenBrief(s: State, t: State, n: string, cmd: CmdId, r: Option<Reply>)
      requires Inv(s) && n in s.pool && cmd in s.pool[n].replyList && cmd in s.cmds && cmd in t.cmds
      requires t.cmds[cmd].kind == s.cmds[cmd].kind && Brief(s, s.cmds[cmd].kind, IsSlotReply(r))
      requires IsSlotReply(r) ==> s.pool[n].replyList[0] == cmd && t == Dequeue(s, n)
      ensures Brief(t, t.cmds[cmd].kind, IsSlotReply(r))
    {
      hide Inv;
      if IsSlotReply(r) {
        DequeueKeeps(s, n);
        BriefSame(s, t, cmd, s.cmds[cmd].kind, true);
      }
    }

    /** Delivers a reply to a queued command; those ahead of it time out. */
    method CallReply(n: string, cmd: CmdId, r: Option<Reply>, rctx: Option<Peer>)
      requires Valid() && Rest(St()) && n in pool && cmd in pool[n].replyList && pool[n].InCallback()
      modifies this, table, table.hosts
      ensures Valid() && Rest(St()) && Later(old(St()), St())
      ensures cmd in old(cmds) && cmd in cmds && old(cmds[cmd]).home == Queued(n)
      ensures Answered(old(cmds[cmd]), cmds[cmd], if Failed(old(pool[n]), r) then HIREDIS else old(cmds[cmd]).errorCode)
      ensures var list := old(pool[n]).replyList;
        CompletedInOrder(old(St()), St(), list[..IndexOf(list, cmd)], TIMEOUT)
      ensures old(completions) <= cmds[cmd].finishedAt
      ensures old(cmds[cmd]).given && old(cmds[cmd]).kind == User ==>
        Noticed(old(St()), St(), Told(cmd, cmds[cmd].errorCode))
      ensures old(cmds[cmd]).kind != SlotQuery ==> (flag == VALID ==> old(flag) == VALID)
      ensures old(cmds[cmd]).kind == SlotQuery && old(cmds[cmd]).given ==>
        QueryAnswered(old(St()), St(), r, rctx, old(pool[n]).replyList[0] == cmd)
      ensures if old(cmds[cmd]).kind == SlotQuery && old(cmds[cmd]).given && IsSlotReply(r)
        then AllRetried(old(St()), St())
          && CmdsProgress(old(cmds), cmds, UpTo(old(pool[n]).replyList, cmd) + set c <- old(slotPending))
        else Handled(old(St()), St(), n, cmd)
      ensures old(Ends(n, cmd, r)) ==> BackStep(old(St()), St(), polite)
    {
      hide AllRetried, TableTaken, QueryAnswered, OnlyRemoved, Inv, Later, CompletedInOrder, SlotTable.Valid, Holding,
          BackStep, IndexOf, Noticed, Answered, Failed, Handled, CmdsProgress;
      ghost var s := St();
      ghost var t := TakeAndAnswer(n, cmd, r, rctx);
      if s.cmds[cmd].kind == SlotQuery && s.cmds[cmd].given {
        QueryAnsweredFrom(s, n, t, St(), r, rctx, s.pool[n].replyList[0] == cmd);
      }
    }

    /** The same; t is the state in between, with the command in hand. */
    method TakeAndAnswer(n: string, cmd: CmdId, r: Option<Reply>, rctx: Option<Peer>) returns (ghost t: State)
      requires Valid() && Rest(St()) && n in pool && cmd in pool[n].replyList && pool[n].InCallback()
      modifies this, table, table.hosts
      ensures Valid() && Rest(St()) && Later(old(St()), St())
      ensures cmd in old(cmds) && cmd in cmds && old(cmds[cmd]).home == Queued(n)
      ensures Answered(old(cmds[cmd]), cmds[cmd], if Failed(old(pool[n]), r) then HIREDIS else old(cmds[cmd]).errorCode)
      ensures var list := old(pool[n]).replyList;
        CompletedInOrder(old(St()), St(), list[..IndexOf(list, cmd)], TIMEOUT)
      ensures old(completions) <= cmds[cmd].finishedAt
      ensures old(cmds[cmd]).given && old(cmds[cmd]).kind == User ==>
        Noticed(old(St()), St(), Told(cmd, cmds[cmd].errorCode))
      ensures old(cmds[cmd]).kind != SlotQuery ==> (flag == VALID ==> old(flag) == VALID)
      ensures OnlyRemoved(old(table.history), t.history)
      ensures old(pool[n]).replyList[0] == cmd ==> t == Dequeue(old(St()), n)
      ensures old(cmds[cmd]).kind == SlotQuery && old(cmds[cmd]).given ==> TableTaken(t, St(), r, rctx)
      ensures if old(cmds[cmd]).kind == SlotQuery && old(cmds[cmd]).given && IsSlotReply(r)
        then AllRetried(old(St()), St())
          && CmdsProgress(old(cmds), cmds, UpTo(old(pool[n]).replyList, cmd) + set c <- old(slotPending))
        else Handled(old(St()), St(), n, cmd)
      ensures old(Ends(n, cmd, r)) ==> BackStep(old(St()), St(), polite)
    {
      hide AllRetried, TableTaken, OnlyRemoved, Inv, Later, Elsewhere, Sweep, CompletedInOrder, SlotTable.Valid,
          Refusing, Holding, Onward, CmdsAged, Brief, Calm, BackStep, OpenKept, Answered, Progress, InFront, Handled,
          CmdsProgress, UpTo, IndexOf;
      ghost var s, list, ends := St(), pool[n].replyList, cmd in cmds && Ends(n, cmd, r);
      ghost var mid := Take(n, cmd);
      t := St();
      OnwardFacts(s, t, polite);
      var code := cmds[cmd].errorCode;
      if pool[n].context.Some? && pool[n].context.value.err != NoError {
        code := HIREDIS;
      } else if r.Some? && r.value.ErrorLine? {
        code := HIREDIS;
      }
      QueuedKnown(s, n, cmd);
      if ends {
        TakenBrief(s, t, n, cmd, r);
      }
      AnswerHeld(cmd, code, r, rctx);
      if !(s.cmds[cmd].kind == SlotQuery && s.cmds[cmd].given && IsSlotReply(r)) {
        HandledBy(s, mid, n, cmd, St());
      } else {
        TableRetries(t, St(), r, rctx);
        QueryRetries(s, mid, n, cmd, St());
        QuerySpares(s, mid, n, cmd, St());
      }
      AnsweredFrom(s.cmds[cmd], t.cmds[cmd], cmds[cmd], code);
      if s.cmds[cmd].given && s.cmds[cmd].kind == User {
        NoticedNext(s, t, St(), Told(cmd, code));
      }
      LaterTrans(s, t, St());
      if ends {
        BackOn(s, t, St(), polite);
      }
      CompletedStays(s, t, St(), list[..IndexOf(list, cmd)], TIMEOUT);
    }

    /** At rest, retries the one command in hand. */
    method RetryHeld(cmd: CmdId, conn: Option<string>)
      requires Valid() && Holding(St(), {cmd}, {}) && cmd in inHand && cmd in cmds
      requires conn.Some? ==> conn.value in pool
      modifies this, table, table.hosts
      ensures Valid() && Rest(St()) && Onward(old(St()), St(), polite) && cmd in cmds
      ensures conn.None? ==> RetriedAs(old(St()), old(cmds[cmd]), cmds[cmd])
      ensures conn.Some? ==> SentTo(old(St()), old(cmds[cmd]), cmds[cmd], conn.value)
      ensures !cmds[cmd].home.Asking? && Progress(old(St()), St(), {cmd}, {})
    {
      hide Inv, Progress, Holding, CalmStep, SettledStep, Onward, Trapped, SlotTable.Valid, RetriedAs;
      ghost var t := St();
      var kept := Retry(cmd, conn);
      RestProgress(t, St(), cmd);
      ProgressOnward(t, St(), {cmd}, polite);
      NotAsking(t, St(), cmd);
    }

    /** At rest, fails the one command in hand. */
    method FailHeld(cmd: CmdId, code: Code)
      requires Valid() && Holding(St(), {cmd}, {}) && cmd in inHand
      modifies this, table, table.hosts
      ensures Valid() && Rest(St()) && Onward(old(St()), St(), polite) && Progress(old(St()), St(), {cmd}, {})
      ensures cmd in old(cmds) && cmd in cmds
      ensures cmds[cmd] == old(cmds[cmd]).Completed(code, old(completions)).(destroyed := true)
      ensures old(completions) < completions && budget <= old(budget)
      ensures BackStep(old(St()), St(), polite)
      ensures old(cmds[cmd]).kind != SlotQuery ==> FrozenStep(old(St()), St())
      ensures budget == old(budget) ==> slotPending == old(slotPending) && timerPending == old(timerPending)
    {
      hide Inv, Progress, Holding, SettledStep, FrozenStep, Onward, SlotTable.Valid, Refusing;
      ghost var t := St();
      Finish(cmd, code);
      RestProgress(t, St(), cmd);
      BackCalm(t, St(), polite);
      AllowancesShrink(t, St(), {cmd}, {});
      ProgressOnward(t, St(), {cmd}, polite);
    }

    /** Takes a queued command off its list and retries it anywhere. */
    method PopAndRetry(n: string, cmd: CmdId)
      requires Valid() && Rest(St()) && n in pool && cmd in pool[n].replyList && pool[n].InCallback() && cmd in cmds
      modifies this, table, table.hosts
      ensures Valid() && Rest(St()) && Onward(old(St()), St(), polite)
      ensures cmd in old(cmds) && cmd in cmds
      ensures Handled(old(St()), St(), n, cmd)
      ensures Redone(old(cmds[cmd]), cmds[cmd])
      ensures old(pool[n]).replyList[0] == cmd ==> RetriedAs(old(St()), old(cmds[cmd]), cmds[cmd])
    {
      hide Inv, Progress, CompletedInOrder, Replay, Holding, CalmStep, SettledStep, Onward, Trapped, RetriedAs,
          Redone, InFront, Handled;
      ghost var s, front := St(), pool[n].replyList[0] == cmd;
      ghost var mid := Take(n, cmd);
      ghost var t := St();
      RetryHeld(cmd, None);
      HandledBy(s, mid, n, cmd, St());
      RetriedRedone(t, s.cmds[cmd], t.cmds[cmd], cmds[cmd]);
      if front {
        assert t == Dequeue(s, n);
        RetriedSame(s, t, s.cmds[cmd], t.cmds[cmd], cmds[cmd]);
      }
      OnwardTrans(s, t, St(), polite);
    }

    /** Changes a queued command where it lies. */
    method Amend(n: string, cmd: CmdId, slot: int, code: Code)
      requires Valid() && Rest(St()) && n in pool && cmd in pool[n].replyList && -1 <= slot < SLOT_NUMBER
      modifies this`cmds
      ensures Valid() && Rest(St()) && cmd in old(cmds) && old(cmds[cmd]).home == Queued(n)
      ensures St() == old(St()).(cmds := cmds)
      ensures cmds == old(cmds)[cmd := old(cmds[cmd]).(slot := slot, errorCode := code)]
      ensures Later(old(St()), St()) && (Calm(old(St()), polite) ==> Calm(St(), polite))
    {
      hide Inv, SlotTable.Valid, Holding, Later, Calm;
      ghost var s := St();
      QueuedKnown(s, n, cmd);
      ReworkAnywhere(s, cmd, cmds[cmd].(slot := slot, errorCode := code));
      cmds := cmds[cmd := cmds[cmd].(slot := slot, errorCode := code)];
      RestSame(s, St(), {}, {});
      LaterOne(s, St(), cmd, cmds[cmd]);
      CalmFrame(s, St(), polite);
    }

    /** The address a redirection means; an empty one stands for the host that sent it. */
    function Address(n: string, endpoint: R.Endpoint): string
      requires n in pool
      reads this
    {
      if endpoint.0 == "" then pool[n].key.ip else endpoint.0
    }

    /** The endpoint of a redirection. */
    function RedirectKey(n: string, endpoint: R.Endpoint): Key
      requires n in pool
      reads this
    {
      Key(EndpointNames.NameOf(Address(n, endpoint), endpoint.1), Address(n, endpoint), endpoint.1)
    }

    /** Redirections to different endpoints lead to different names in the pool, whoever sent them. */
    lemma RedirectsDiffer(n: string, endpoint: R.Endpoint, n': string, endpoint': R.Endpoint)
      requires n in pool && n' in pool
      requires Address(n, endpoint) != Address(n', endpoint') || endpoint.1 != endpoint'.1
      ensures RedirectKey(n, endpoint).name != RedirectKey(n', endpoint').name
    {
      hide EndpointNames.NameOf;
      if RedirectKey(n, endpoint).name == RedirectKey(n', endpoint').name {
        EndpointNames.NameIsInjective(Address(n, endpoint), endpoint.1, Address(n', endpoint'), endpoint'.1);
      }
    }

    /** To let a slot go to the endpoint leaves a calm client calm. */
    ghost predicate Harmless(key: Key)
      reads this, table
    {
      CalmInit(St(), polite) || Serving(pool, key)
    }

    /** A slot gets a new master, and nothing else changes. */
    method Assign(slot: nat, key: Key)
      requires Valid() && Rest(St()) && slot < SLOT_NUMBER && EndpointNames.Named(key)
      modifies table, table.hosts
      ensures Valid() && Rest(St()) && Later(old(St()), St()) && table.hosts[slot] == [key]
      ensures old(Calm(St(), polite) && Harmless(key)) ==> Calm(St(), polite)
      ensures St() == old(St()).(history := old(table.history) + [SlotTables.Moved(slot, key)])
    {
      hide Inv, Holding, Later, Calm, CalmInit, Serving, EndpointNames.Named;
      ghost var s := St();
      table.Move(slot, key);
      SweepSame(s, St());
      RestSame(s, St(), {}, {});
      LaterSame(s, St());
      if Calm(s, polite) && (CalmInit(s, polite) || Serving(s.pool, key)) {
        MovedCalm(s, St(), slot, key, polite);
      }
    }

    /** MOVED: the slot gets a new master at once, the command is retried, and the table is asked for. */
    method OnMoved(n: string, cmd: CmdId, slot: nat, endpoint: R.Endpoint)
      requires Valid() && Rest(St()) && n in pool && cmd in pool[n].replyList && pool[n].InCallback() && cmd in cmds
      requires slot < SLOT_NUMBER
      modifies this, table, table.hosts
      ensures Valid() && Rest(St()) && Later(old(St()), St())
      ensures var ip := if endpoint.0 == "" then old(pool[n]).key.ip else endpoint.0;
        var name := EndpointNames.NameOf(ip, endpoint.1);
        && OnlyRemoved(old(table.history) + [SlotTables.Moved(slot, Key(name, ip, endpoint.1))], table.history)
        && cmd in cmds && Redone(old(cmds[cmd]), cmds[cmd])
        && (old(pool[n]).replyList[0] == cmd ==>
              RetriedAs(Assigned(old(St()), slot, Key(name, ip, endpoint.1)), old(cmds[cmd]), cmds[cmd]))
        && (AllReachable(old(St()), init.name) && name in old(reachable) ==> AskedFor(old(St()), St()))
      ensures Handled(Assigned(old(St()), slot, old(RedirectKey(n, endpoint))), St(), n, cmd)
      ensures old(Calm(St(), polite) && Harmless(RedirectKey(n, endpoint))) ==> Unhurried(old(St()), St())
      ensures flag == VALID ==> old(flag) == VALID
    {
      hide Inv, Progress, Replay, Holding, CalmStep, SlotTable.Valid, Later, Onward, OnlyRemoved, Trapped, Calm,
          Harmless, AllReachable, AskedFor, RetriedAs, Redone, EndpointNames.Named, Handled;
      ghost var s := St();
      var ip := if endpoint.0 == "" then pool[n].key.ip else endpoint.0;
      var key := EndpointNames.SetKey(ip, endpoint.1);
      Assign(slot, key);
      ghost var t := St();
      PopAndRetry(n, cmd);
      ghost var u := St();
      MovedReachable(s, t, slot, key, init.name);
      OnwardReachable(t, u, polite, init.name);
      ReloadAfter(u, cmd);
      OnwardTrans(t, u, St(), polite);
      OnwardFacts(t, St(), polite);
      LaterTrans(s, t, St());
      if AskedFor(u, St()) {
        OnwardFacts(t, u, polite);
        AskedForSince(s, t, u, St());
      }
      HandledThen(t, u, St(), n, cmd);
      RedoneKept(s.cmds[cmd], u.cmds[cmd], cmds[cmd]);
      if s.pool[n].replyList[0] == cmd {
        RetriedKept(t, s.cmds[cmd], u.cmds[cmd], cmds[cmd]);
      }
    }

    /** The table is asked for after a command was retried. */
    method ReloadAfter(ghost u: State, cmd: CmdId)
      requires Valid() && Rest(St()) && St() == u && cmd in cmds
      modifies this, table, table.hosts
      ensures Valid() && Rest(St()) && Onward(u, St(), polite)
      ensures Progress(u, St(), {}, {})
      ensures AllReachable(u, init.name) ==> AskedFor(u, St())
      ensures cmd in cmds && (cmds[cmd] == u.cmds[cmd] || Lost(u.cmds[cmd], cmds[cmd]))
    {
      hide AllReachable, AskedFor, Trapped, Inv, Progress, Holding, SlotTable.Valid, CalmStep, Onward, Lost;
      var asked, query := ReloadSlots();
      RestKept(u, St(), {});
      ProgressOnward(u, St(), {}, polite);
      ProgressCmds(u, St(), {}, {});
    }

    /** Sends ASKING for a command in hand, if there is a connection that takes it; `accepts` is hiredis'
        answer if it is not closing. */
    method SendAsking(name: string, cmd: CmdId, accepts: bool) returns (sent: bool)
      requires Valid() && Holding(St(), {cmd}, {}) && cmd in inHand
      modifies this`cmds, this`inHand, this`asking
      ensures cmd in old(cmds) && Valid() && (!sent ==> St() == old(St()))
      ensures sent == (accepts && name in pool && pool[name].context.Some? && !pool[name].Refusing())
      ensures sent ==> Rest(St()) && St() == Ask(old(St()), cmd, name) && Onward(old(St()), St(), polite)
    {
      hide Inv, Holding, SlotTable.Valid, Onward;
      ghost var t := St();
      Held(t, cmd);
      sent := accepts && name in pool && pool[name].context.Some? && !pool[name].Refusing();
      if sent {
        AskKeeps(t, cmd, name);
        cmds := cmds[cmd := cmds[cmd].(home := Asking(name))];
        inHand := inHand - {cmd};
        asking := asking + {cmd};
        AskRests(t, cmd, name);
        OnwardOne(t, St(), cmd, cmds[cmd], polite);
      }
    }

    /** ASK: the command leaves its list, and ASKING goes to the other connection, made if need be. If
        that fails the command is retried anywhere. */
    method OnAsk(n: string, cmd: CmdId, endpoint: R.Endpoint, accepts: bool)
      requires Valid() && Rest(St()) && n in pool && cmd in pool[n].replyList && pool[n].InCallback() && cmd in cmds
      modifies this, table, table.hosts
      ensures Valid() && Rest(St()) && Onward(old(St()), St(), polite)
      ensures cmd in cmds && Handled(old(St()), St(), n, cmd)
      ensures var ip := if endpoint.0 == "" then old(pool[n]).key.ip else endpoint.0;
        var name := EndpointNames.NameOf(ip, endpoint.1);
        && (cmds[cmd].home.Asking? ==> cmds[cmd] == old(cmds[cmd]).(home := Asking(name)) && name in pool && accepts)
        && (accepts && old(Ready(name)) ==> cmds[cmd].home == Asking(name))
        && (!cmds[cmd].home.Asking? ==> Redone(old(cmds[cmd]), cmds[cmd]))
        && (!cmds[cmd].home.Asking? && old(pool[n]).replyList[0] == cmd ==>
              name in old(pool) || name !in old(reachable) ==> RetriedAs(old(St()), old(cmds[cmd]), cmds[cmd]))
    {
      hide Inv, Progress, CompletedInOrder, Replay, Holding, CalmStep, SettledStep, SlotTable.Valid, Onward,
          Trapped, RetriedAs, Redone, EndpointNames.Named, IndexOf, Handled;
      ghost var s := St();
      QueuedKnown(s, n, cmd);
      var ip := if endpoint.0 == "" then pool[n].key.ip else endpoint.0;
      var key := EndpointNames.SetKey(ip, endpoint.1);
      Reach(key, n, cmd);
      ghost var s1 := St();
      AskReached(n, cmd, key.name, accepts);
      HandledAfter(s, s1, St(), n, cmd);
      OnwardTrans(s, s1, St(), polite);
    }

    /** The same once the other connection is there, if it can be. */
    method AskReached(n: string, cmd: CmdId, name: string, accepts: bool)
      requires Valid() && Rest(St()) && n in pool && cmd in pool[n].replyList && pool[n].InCallback() && cmd in cmds
      requires !cmds[cmd].home.Asking?
      modifies this, table, table.hosts
      ensures Valid() && Rest(St()) && Onward(old(St()), St(), polite) && cmd in cmds
      ensures Handled(old(St()), St(), n, cmd)
      ensures cmds[cmd].home.Asking? ==> cmds[cmd] == old(cmds[cmd]).(home := Asking(name)) && name in pool && accepts
      ensures accepts && name in old(pool) && !old(pool[name]).Refusing() ==> cmds[cmd].home == Asking(name)
      ensures !cmds[cmd].home.Asking? ==>
        && Redone(old(cmds[cmd]), cmds[cmd])
        && (old(pool[n]).replyList[0] == cmd ==> RetriedAs(old(St()), old(cmds[cmd]), cmds[cmd]))
    {
      hide Inv, Holding, SlotTable.Valid, Onward, RetriedAs, Redone, Handled, InFront, Progress, IndexOf;
      ghost var s, front := St(), pool[n].replyList[0] == cmd;
      ghost var mid := TakeForAsk(n, cmd, name);
      ghost var t := St();
      AskHeld(cmd, name, accepts);
      HandledAsk(s, mid, n, cmd, St());
      if !cmds[cmd].home.Asking? {
        RetriedRedone(t, s.cmds[cmd], t.cmds[cmd], cmds[cmd]);
        if front {
          RetriedSame(s, t, s.cmds[cmd], t.cmds[cmd], cmds[cmd]);
        }
      }
      OnwardTrans(s, t, St(), polite);
    }

    /** The command leaves its list, and an open connection stays open. */
    method TakeForAsk(n: string, cmd: CmdId, name: string) returns (ghost mid: State)
      requires Valid() && Rest(St()) && n in pool && cmd in pool[n].replyList && pool[n].InCallback() && cmd in cmds
      modifies this, table, table.hosts
      ensures Valid() && Holding(St(), {cmd}, {}) && cmd in inHand && Onward(old(St()), St(), polite)
      ensures cmd in cmds && cmds[cmd] == old(cmds[cmd]).(home := InHand)
      ensures old(pool[n]).replyList[0] == cmd ==> St() == Dequeue(old(St()), n)
      ensures InFront(old(St()), mid, n, cmd) && St() == Dequeue(mid, n)
      ensures name in pool ==> pool[name].context.Some?
      ensures name in old(pool) && !old(pool[name]).Refusing() ==> name in pool && !pool[name].Refusing()
    {
      hide Inv, CompletedInOrder, Holding, SlotTable.Valid, Onward, OpenKept, Grown, BackStep, InFront;
      ghost var s := St();
      if name in pool {
        RestOpen(s, name);
      }
      mid := Take(n, cmd);
      if name in s.pool && !s.pool[name].Refusing() {
        OpenKeptAt(s.pool, pool, name);
      }
      if name in pool {
        HoldingContext(St(), name, {cmd});
      }
    }

    /** At rest, sends ASKING for the one command in hand, or retries it. */
    method AskHeld(cmd: CmdId, name: string, accepts: bool)
      requires Valid() && Holding(St(), {cmd}, {}) && cmd in inHand && cmd in cmds
      modifies this, table, table.hosts
      ensures Valid() && Rest(St()) && Onward(old(St()), St(), polite) && cmd in cmds
      ensures cmds[cmd].home.Asking? ==
        old(accepts && name in pool && pool[name].context.Some? && !pool[name].Refusing())
      ensures Progress(old(St()), St().(asking := old(asking)), {cmd}, {})
      ensures if cmds[cmd].home.Asking? then cmds[cmd] == old(cmds[cmd]).(home := Asking(name)) && name in pool
        else RetriedAs(old(St()), old(cmds[cmd]), cmds[cmd])
    {
      hide Inv, Holding, SlotTable.Valid, Onward, RetriedAs, Progress;
      ghost var t := St();
      Held(t, cmd);
      AskProgress(t, cmd, name);
      var sent := SendAsking(name, cmd, accepts);
      if !sent {
        RetryHeld(cmd, None);
        AskingKept(t, St(), {cmd});
      }
    }

    /** A connection is there that takes commands, or one can be made. */
    predicate Ready(name: string)
      reads this
    {
      if name in pool then !pool[name].Refusing() else name in reachable
    }

    /** Makes a connection to an endpoint unless there is one; the command being answered stays queued. */
    method Reach(key: Key, n: string, cmd: CmdId)
      requires EndpointNames.Named(key)
      requires Valid() && Rest(St()) && n in pool && cmd in pool[n].replyList && pool[n].InCallback() && cmd in cmds
      modifies this, table, table.hosts
      ensures Valid() && Rest(St()) && Onward(old(St()), St(), polite)
      ensures n in pool && cmd in pool[n].replyList && pool[n].InCallback() && cmd in cmds
      ensures cmds[cmd] == old(cmds[cmd]) && Progress(old(St()), St(), {}, {})
      ensures key.name in old(pool) || key.name !in old(reachable) ==> St() == old(St())
      ensures old(Ready(key.name)) ==> key.name in pool && !pool[key.name].Refusing()
    {
      hide Inv, Progress, Holding, CalmStep, SlotTable.Valid, Onward, Refusing, EndpointNames.Named;
      ghost var s := St();
      RefusingHas(pool, key.name);
      if key.name !in pool {
        var made := MakeConnection(key);
        RefusingShrinks(s, St(), {}, {});
        RefusingHas(pool, key.name);
      } else {
        ProgressRefl(s);
        UnhurriedCalm(s, s, polite);
      }
      RestKept(s, St(), {});
      ProgressOnward(s, St(), {}, polite);
      StaysQueued(s, St(), n, cmd);
    }

    /** The connection gives no reason to doubt its replies. */
    predicate Healthy(n: string)
      requires n in pool && pool[n].context.Some?
      reads this
    {
      !pool[n].context.value.disconnecting && pool[n].context.value.err == NoError
    }

    /** The slot that a MOVED reply names and the address and port of its new master, if it is followed. */
    function MovedTo(n: string, r: Option<Reply>): Option<(nat, string, nat)>
      requires n in pool && pool[n].context.Some?
      reads this
    {
      if !Healthy(n) || !R.Speaks(r) then None
      else match R.Classify(CString(r.value.text.value)) {
        case Moved(slot, Some(e)) => if 0 <= slot < SLOT_NUMBER then Some((slot, Address(n, e), e.1)) else None
        case _ => None
      }
    }

    /** A MOVED reply as the server writes it is followed to the slot, the address and the port it says. */
    lemma MovedReplyRead(n: string, slot: nat, ip: string, port: nat)
      requires n in pool && pool[n].context.Some? && Healthy(n) && R.Plain(ip) && '\0' !in ip
      requires slot < SLOT_NUMBER && port <= EndpointNames.PORT_MAX
      ensures MovedTo(n, Some(ErrorLine(Some("MOVED " + Decimal(slot) + " " + ip + ":" + Decimal(port))))) ==
        Some((slot, if ip == "" then pool[n].key.ip else ip, port))
    {
      hide Decimal, R.Classify, R.Plain, CString;
      R.MovedRead(slot, ip, port);
      R.WrittenText("MOVED ", slot, ip, port);
      CStringWhole("MOVED " + Decimal(slot) + " " + ip + ":" + Decimal(port));
    }

    /** The address and port that an ASK reply names, if it is followed. */
    function AskTo(n: string, r: Option<Reply>): Option<(string, nat)>
      requires n in pool && pool[n].context.Some?
      reads this
    {
      if !Healthy(n) || !R.Speaks(r) then None
      else match R.Classify(CString(r.value.text.value)) {
        case Ask(Some(e)) => Some((Address(n, e), e.1))
        case _ => None
      }
    }

    lemma AskReplyRead(n: string, slot: nat, ip: string, port: nat)
      requires n in pool && pool[n].context.Some? && Healthy(n) && R.Plain(ip) && '\0' !in ip
      requires port <= EndpointNames.PORT_MAX
      ensures AskTo(n, Some(ErrorLine(Some("ASK " + Decimal(slot) + " " + ip + ":" + Decimal(port))))) ==
        Some((if ip == "" then pool[n].key.ip else ip, port))
    {
      hide Decimal, R.Classify, R.Plain, CString;
      R.AskRead(slot, ip, port);
      R.WrittenText("ASK ", slot, ip, port);
      CStringWhole("ASK " + Decimal(slot) + " " + ip + ":" + Decimal(port));
    }

    /** The command is retried anywhere: the network has failed, or the server says to try again. */
    predicate Retried(n: string, r: Option<Reply>)
      requires n in pool && pool[n].context.Some?
      reads this
    {
      var ctx := pool[n].context.value;
      !ctx.disconnecting && (ctx.err in {Io, Eof} || (ctx.err == NoError && R.Says(r, "TRYAGAIN")))
    }

    /** The server says that the cluster is down. */
    predicate Down(n: string, r: Option<Reply>)
      requires n in pool && pool[n].context.Some?
      reads this
    {
      Healthy(n) && R.Says(r, "CLUSTERDOWN")
    }

    /** The reply goes to the callback of the command, whatever it is. */
    predicate Delivered(n: string, r: Option<Reply>)
      requires n in pool && pool[n].context.Some?
      reads this
    {
      !Retried(n, r) && MovedTo(n, r).None? && AskTo(n, r).None?
    }

    /** What the client makes of an error reply. */
    lemma ErrorRead(n: string, r: Option<Reply>)
      requires n in pool && pool[n].context.Some? && Healthy(n) && R.Speaks(r)
      ensures var error := R.Classify(CString(r.value.text.value));
        && (Retried(n, r) <==> error.TryAgain?) && (Down(n, r) <==> error.ClusterDown?)
        && (Delivered(n, r) <==> R.ForCaller(error))
        && MovedTo(n, r) == (if error.Moved? && !R.ForCaller(error)
             then Some((error.slot, Address(n, error.endpoint.value), error.endpoint.value.1)) else None)
        && AskTo(n, r) == (if error.Ask? && !R.ForCaller(error)
             then Some((Address(n, error.endpoint.value), error.endpoint.value.1)) else None)
        && !IsSlotReply(r)
    {
      hide R.Classify, CString;
      R.WordsDecide(CString(r.value.text.value));
      R.TextBegins(r.value.text.value, "TRYAGAIN");
      R.TextBegins(r.value.text.value, "CLUSTERDOWN");
    }

    /** To follow the reply, if it is a MOVED reply, leaves a calm client calm. */
    ghost predicate Follows(n: string, r: Option<Reply>)
      requires n in pool && pool[n].context.Some?
      reads this, table
    {
      match MovedTo(n, r)
      case Some((slot, ip, port)) => Harmless(Key(EndpointNames.NameOf(ip, port), ip, port))
      case None => true
    }

    /** Nothing waits for the timer, no connect timeout is set and no slot has a host. */
    predicate Forgotten()
      reads this, table, table.hosts
    {
      && flag == INVALID && timerPending == [] && timerConns == [] && now == Time(0, 0)
      && table.hosts.Length == SLOT_NUMBER && forall i :: 0 <= i < SLOT_NUMBER ==> table.hosts[i] == []
    }

    /** hiredis answers a command of an open connection, from inside its callback. */
    method OnReply(n: string, cmd: CmdId, r: Option<Reply>, rctx: Option<Peer>, accepts: bool)
      requires Valid() && Rest(St()) && n in pool && cmd in pool[n].replyList && pool[n].InCallback() && cmd in cmds
      modifies this, table, table.hosts
      ensures Valid() && Rest(St()) && Later(old(St()), St())
      ensures old(Calm(St(), polite) && Ends(n, cmd, r) && (polite || !Down(n, r)) && Follows(n, r)) ==>
        Unhurried(old(St()), St())
      ensures cmd in cmds && old(cmds[cmd]).home == Queued(n)
      // A delivered reply is delivered once, with the code it deserves.
      ensures old(Delivered(n, r)) ==>
        && cmds[cmd].home == Done && cmds[cmd].destroyed
        && cmds[cmd].submits == old(cmds[cmd]).submits && old(completions) <= cmds[cmd].finishedAt
      ensures old(Delivered(n, r)) && old(cmds[cmd]).given ==>
        cmds[cmd].calls == 1 && (cmds[cmd].errorCode ==
          if old(pool[n]).context.value.err != NoError || (r.Some? && r.value.ErrorLine?) then HIREDIS
          else if old(pool[n]).context.value.disconnecting then CONNECTION
          else old(cmds[cmd]).errorCode)
      ensures old(cmds[cmd]).kind != SlotQuery && flag == VALID ==> old(flag) == VALID
      ensures old(Delivered(n, r)) && old(cmds[cmd]).given && old(cmds[cmd]).kind == User ==>
        Noticed(old(St()), St(), Told(cmd, cmds[cmd].errorCode))
      // A slot table replaces the old one, and then the parked commands are retried.
      ensures old(Delivered(n, r)) && old(cmds[cmd]).kind == SlotQuery && old(cmds[cmd]).given ==>
        if IsSlotReply(r) then
          && Rebuilt(old(table.history), table.history, r.value.elements, rctx)
          && AllRetried(old(St()), St()) && (slotPending == [] || halted)
          && (old(pool[n]).replyList[0] == cmd && Refusing(old(pool)) == {} && !old(halted) ==>
                Drained(TableArrived(old(St()), r.value.elements, rctx), St()))
        else flag == INVALID
      // After CLUSTERDOWN everything is reset.
      ensures old(Down(n, r)) ==>
        old(Delivered(n, r)) && Forgotten() && Spared(old(cmds), cmds, UpTo(old(pool[n]).replyList, cmd))
      // In any other case nothing else is touched.
      ensures old(Delivered(n, r)) && old(cmds[cmd]).kind == SlotQuery && old(cmds[cmd]).given && IsSlotReply(r) ==>
        CmdsProgress(old(cmds), cmds, UpTo(old(pool[n]).replyList, cmd) + set c <- old(slotPending))
      ensures !old(Down(n, r)) && old(MovedTo(n, r)).None? ==>
        (old(Delivered(n, r)) && old(cmds[cmd]).kind == SlotQuery && old(cmds[cmd]).given && IsSlotReply(r))
        || Handled(old(St()), St(), n, cmd)
      // A retry goes to the master of the slot, or waits for the table or the timer.
      ensures old(Retried(n, r)) ==>
        && Redone(old(cmds[cmd]), cmds[cmd])
        && (old(pool[n]).replyList[0] == cmd ==> RetriedAs(old(St()), old(cmds[cmd]), cmds[cmd]))
      // An ASK reply that is followed names the connection that ASKING is sent to.
      ensures old(AskTo(n, r)).Some? ==>
        var (ip, port) := old(AskTo(n, r)).value; var name := EndpointNames.NameOf(ip, port);
        && (cmds[cmd] == old(cmds[cmd]).(home := Asking(name)) || Redone(old(cmds[cmd]), cmds[cmd]))
        && (accepts && old(Ready(name)) ==> cmds[cmd] == old(cmds[cmd]).(home := Asking(name)))
      // A MOVED reply that is followed names the new master of the slot, which is where the command goes.
      ensures old(MovedTo(n, r)).Some? ==>
        var (slot, ip, port) := old(MovedTo(n, r)).value; var name := EndpointNames.NameOf(ip, port);
        && OnlyRemoved(old(table.history) + [SlotTables.Moved(slot, Key(name, ip, port))], table.history)
        && Handled(Assigned(old(St()), slot, Key(name, ip, port)), St(), n, cmd)
        && Redone(old(cmds[cmd]).(slot := old(Corrected(cmd, slot))), cmds[cmd])
        && (old(pool[n]).replyList[0] == cmd ==>
              RetriedAs(Assigned(old(St()), slot, Key(name, ip, port)),
                old(cmds[cmd]).(slot := old(Corrected(cmd, slot))), cmds[cmd]))
        && (old(pool[n]).replyList[0] == cmd && Hasty(old(St()), old(cmds[cmd]).ttl) && old(flag) == VALID
            && old(cmds[cmd]).ttl > 0 && old(cmds[cmd]).slot >= 0 && (name in old(pool) || name in old(reachable)) ==>
            old(cmds[cmd]).submits + [name] <= cmds[cmd].submits)
    {
      hide AllRetried, Noticed, Inv, Holding, SlotTable.Valid, CompletedInOrder, Later, Onward, OnlyRemoved, MovedTo,
          AskTo, Calm, Follows, Brief, IndexOf, RetriedAs, Redone, Hasty, Drained, Rebuilt, Refusing,
          EndpointNames.NameOf, Handled, Spared, CmdsProgress, UpTo;
      ghost var s := St();
      QueuedKnown(s, n, cmd);
      NotText(n, r);
      var ctx := pool[n].context.value;
      if ctx.disconnecting {
        // To retry while the context closes would lead to an infinite loop.
        DeliverAs(n, cmd, CONNECTION, r, rctx);
      } else if ctx.err == Io || ctx.err == Eof {
        PopAndRetry(n, cmd);
        OnwardFacts(s, St(), polite);
      } else if ctx.err != NoError || r.None? || !r.value.ErrorLine? || r.value.text.None? {
        CallReply(n, cmd, r, rctx);
      } else {
        OnTextReply(n, cmd, r, rctx, accepts);
      }
    }

    /** Only an error with a text asks for anything. */
    lemma NotText(n: string, r: Option<Reply>)
      requires n in pool && pool[n].context.Some?
      ensures !Healthy(n) || !R.Speaks(r) ==> MovedTo(n, r).None? && AskTo(n, r).None?
    {
    }

    /** hiredis answers with an error that has a text, on a connection that gives no reason to doubt it. */
    method OnTextReply(n: string, cmd: CmdId, r: Option<Reply>, rctx: Option<Peer>, accepts: bool)
      requires Valid() && Rest(St()) && n in pool && cmd in pool[n].replyList && pool[n].InCallback() && cmd in cmds
      requires Healthy(n) && R.Speaks(r) && cmds[cmd].home == Queued(n) && cmds[cmd].Ok()
      modifies this, table, table.hosts
      ensures Valid() && Rest(St()) && Later(old(St()), St())
      ensures old(Calm(St(), polite) && Ends(n, cmd, r) && (polite || !Down(n, r)) && Follows(n, r)) ==>
        Unhurried(old(St()), St())
      ensures cmd in cmds
      ensures old(Delivered(n, r)) ==>
        && cmds[cmd].home == Done && cmds[cmd].destroyed
        && cmds[cmd].submits == old(cmds[cmd]).submits && old(completions) <= cmds[cmd].finishedAt
      ensures old(Delivered(n, r)) && old(cmds[cmd]).given ==>
        cmds[cmd].calls == 1 && cmds[cmd].errorCode == HIREDIS
      ensures old(cmds[cmd]).kind != SlotQuery && flag == VALID ==> old(flag) == VALID
      ensures old(Delivered(n, r)) && old(cmds[cmd]).given && old(cmds[cmd]).kind == User ==>
        Noticed(old(St()), St(), Told(cmd, cmds[cmd].errorCode))
      ensures old(Delivered(n, r)) && old(cmds[cmd]).kind == SlotQuery && old(cmds[cmd]).given ==>
        flag == INVALID
      ensures old(Down(n, r)) ==>
        old(Delivered(n, r)) && Forgotten() && Spared(old(cmds), cmds, UpTo(old(pool[n]).replyList, cmd))
      ensures !old(Down(n, r)) && old(MovedTo(n, r)).None? ==> Handled(old(St()), St(), n, cmd)
      ensures old(Retried(n, r)) ==>
        && Redone(old(cmds[cmd]), cmds[cmd])
        && (old(pool[n]).replyList[0] == cmd ==> RetriedAs(old(St()), old(cmds[cmd]), cmds[cmd]))
      ensures old(AskTo(n, r)).Some? ==>
        var (ip, port) := old(AskTo(n, r)).value; var name := EndpointNames.NameOf(ip, port);
        && (cmds[cmd] == old(cmds[cmd]).(home := Asking(name)) || Redone(old(cmds[cmd]), cmds[cmd]))
        && (accepts && old(Ready(name)) ==> cmds[cmd] == old(cmds[cmd]).(home := Asking(name)))
      ensures old(MovedTo(n, r)).Some? ==>
        var (slot, ip, port) := old(MovedTo(n, r)).value; var name := EndpointNames.NameOf(ip, port);
        && OnlyRemoved(old(table.history) + [SlotTables.Moved(slot, Key(name, ip, port))], table.history)
        && Handled(Assigned(old(St()), slot, Key(name, ip, port)), St(), n, cmd)
        && Redone(old(cmds[cmd]).(slot := old(Corrected(cmd, slot))), cmds[cmd])
        && (old(pool[n]).replyList[0] == cmd ==>
              RetriedAs(Assigned(old(St()), slot, Key(name, ip, port)),
                old(cmds[cmd]).(slot := old(Corrected(cmd, slot))), cmds[cmd]))
        && (old(pool[n]).replyList[0] == cmd && Hasty(old(St()), old(cmds[cmd]).ttl) && old(flag) == VALID
            && old(cmds[cmd]).ttl > 0 && old(cmds[cmd]).slot >= 0 && (name in old(pool) || name in old(reachable)) ==>
            old(cmds[cmd]).submits + [name] <= cmds[cmd].submits)
    {
      hide Noticed, Inv, Holding, SlotTable.Valid, R.Classify, CompletedInOrder, Later, Onward, OnlyRemoved, CString,
          Calm, Harmless, Brief, IndexOf, RetriedAs, Redone, Hasty, Retried, Delivered, Down, MovedTo, AskTo,
          EndpointNames.NameOf, Handled, Spared, UpTo;
      ghost var s := St();
      ErrorRead(n, r);
      ghost var moved := MovedTo(n, r);
      OnErrorReply(n, cmd, R.Classify(CString(r.value.text.value)), r, rctx, accepts);
      if moved.Some? && s.pool[n].replyList[0] == cmd && s.cmds[cmd].slot >= 0 {
        var (slot, ip, port) := moved.value;
        MovedSends(s, slot, Key(EndpointNames.NameOf(ip, port), ip, port), s.cmds[cmd].(slot := slot), cmds[cmd]);
      }
    }

    /** The command is delivered its reply, and carries the code from now on. */
    method DeliverAs(n: string, cmd: CmdId, code: Code, r: Option<Reply>, rctx: Option<Peer>)
      requires Valid() && Rest(St()) && n in pool && cmd in pool[n].replyList && pool[n].InCallback()
      modifies this, table, table.hosts
      ensures Valid() && Rest(St()) && Later(old(St()), St()) && cmd in old(cmds) && cmd in cmds
      ensures Answered(old(cmds[cmd]).(errorCode := code), cmds[cmd], if Failed(old(pool[n]), r) then HIREDIS else code)
      ensures old(completions) <= cmds[cmd].finishedAt
      ensures old(cmds[cmd]).given && old(cmds[cmd]).kind == User ==>
        Noticed(old(St()), St(), Told(cmd, cmds[cmd].errorCode))
      ensures old(cmds[cmd]).kind != SlotQuery ==> (flag == VALID ==> old(flag) == VALID)
      ensures old(cmds[cmd]).kind == SlotQuery && old(cmds[cmd]).given ==>
        QueryAnswered(old(St()), St(), r, rctx, old(pool[n]).replyList[0] == cmd)
      ensures if old(cmds[cmd]).kind == SlotQuery && old(cmds[cmd]).given && IsSlotReply(r)
        then AllRetried(old(St()), St())
          && CmdsProgress(old(cmds), cmds, UpTo(old(pool[n]).replyList, cmd) + set c <- old(slotPending))
        else Handled(old(St()), St(), n, cmd)
      ensures old(Ends(n, cmd, r)) ==> BackStep(old(St()), St(), polite)
    {
      hide UpTo, IndexOf, Answered, Failed, BackStep, AllRetried, Handled, CmdsProgress, QueryAnswered, Noticed, Inv,
          Holding, SlotTable.Valid, CompletedInOrder, Later, Calm, Brief;
      ghost var s := St();
      QueuedKnown(s, n, cmd);
      ghost var ends := Ends(n, cmd, r);
      Amend(n, cmd, cmds[cmd].slot, code);
      ghost var t := St();
      if ends {
        BriefSame(s, t, cmd, s.cmds[cmd].kind, IsSlotReply(r));
      }
      CallReply(n, cmd, r, rctx);
      if s.cmds[cmd].kind == SlotQuery && s.cmds[cmd].given && IsSlotReply(r) {
        AmendedRetried(s, t, St(), cmd);
        AmendedCmds(s, t, St(), n, cmd);
      } else {
        HandledFrom(s, t, St(), n, cmd);
      }
      if s.cmds[cmd].kind == SlotQuery && s.cmds[cmd].given {
        AmendedQuery(s, t, St(), cmd, r, rctx, s.pool[n].replyList[0] == cmd);
      }
      NoticedFrom(s, t, St(), Told(cmd, cmds[cmd].errorCode));
      LaterTrans(s, t, St());
      if ends {
        BackSame(s, t, St(), polite);
      }
    }

    ghost predicate Lands(n: string, error: R.Redirect)
      requires n in pool
      reads this, table
    {
      error.Moved? && 0 <= error.slot < SLOT_NUMBER && error.endpoint.Some? ==>
        Harmless(RedirectKey(n, error.endpoint.value))
    }

    /** An error reply: a redirection is followed, the command is tried again, or it fails. */
    method OnErrorReply(n: string, cmd: CmdId, error: R.Redirect, r: Option<Reply>, rctx: Option<Peer>, accepts: bool)
      requires Valid() && Rest(St()) && n in pool && cmd in pool[n].replyList && pool[n].InCallback() && cmd in cmds
      requires !IsSlotReply(r)
      modifies this, table, table.hosts
      ensures Valid() && Rest(St()) && Later(old(St()), St()) && cmd in cmds
      ensures old(Calm(St(), polite) && Lands(n, error)) && (polite || !error.ClusterDown?) ==>
        Unhurried(old(St()), St())
      ensures R.ForCaller(error) ==>
        && Answered(
             old(cmds[cmd]).(slot := if error.Moved? then old(Corrected(cmd, error.slot)) else old(cmds[cmd]).slot),
             cmds[cmd],
             if Failed(old(pool[n]), r) then HIREDIS else old(cmds[cmd]).errorCode)
        && old(completions) <= cmds[cmd].finishedAt
      ensures old(cmds[cmd]).kind != SlotQuery && flag == VALID ==> old(flag) == VALID
      ensures R.ForCaller(error) && old(cmds[cmd]).given && old(cmds[cmd]).kind == User ==>
        Noticed(old(St()), St(), Told(cmd, cmds[cmd].errorCode))
      ensures R.ForCaller(error) && old(cmds[cmd]).kind == SlotQuery && old(cmds[cmd]).given ==> flag == INVALID
      ensures error.ClusterDown? ==> Forgotten() && Spared(old(cmds), cmds, UpTo(old(pool[n]).replyList, cmd))
      ensures !error.ClusterDown? && !(error.Moved? && !R.ForCaller(error)) ==> Handled(old(St()), St(), n, cmd)
      ensures error.TryAgain? ==>
        && Redone(old(cmds[cmd]), cmds[cmd])
        && (old(pool[n]).replyList[0] == cmd ==> RetriedAs(old(St()), old(cmds[cmd]), cmds[cmd]))
      ensures error.Ask? && error.endpoint.Some? ==>
        var name := old(RedirectKey(n, error.endpoint.value)).name;
        && (cmds[cmd] == old(cmds[cmd]).(home := Asking(name)) || Redone(old(cmds[cmd]), cmds[cmd]))
        && (accepts && old(Ready(name)) ==> cmds[cmd] == old(cmds[cmd]).(home := Asking(name)))
      ensures error.Moved? && error.endpoint.Some? && 0 <= error.slot < SLOT_NUMBER ==>
        Followed(n, cmd, error.slot, old(RedirectKey(n, error.endpoint.value)), old(St()),
          old(Corrected(cmd, error.slot)))
    {
      hide Noticed, Inv, Holding, SlotTable.Valid, CompletedInOrder, Replay, Later, Onward, OnlyRemoved,
          EndpointNames.NameOf, Calm, Harmless, RetriedAs, Redone, Followed, Drained, Rebuilt, Handled, Spared,
          CmdsProgress, IndexOf;
      ghost var s := St();
      match error
      case Ask(endpoint) =>
        if endpoint.Some? {
          OnAsk(n, cmd, endpoint.value, accepts);
          OnwardFacts(s, St(), polite);
        } else {
          CallReply(n, cmd, r, rctx);
        }
      case Moved(slot, endpoint) =>
        OnMovedReply(n, cmd, slot, endpoint, r, rctx);
      case TryAgain =>
        PopAndRetry(n, cmd);
        OnwardFacts(s, St(), polite);
      case ClusterDown =>
        CallReply(n, cmd, r, rctx);
        ghost var t := St();
        Reset();
        HandledCmds(s, t, n, cmd);
        SparedBy(s.cmds, t.cmds, UpTo(s.pool[n].replyList, cmd));
        SparedTrans(s.cmds, t.cmds, cmds, UpTo(s.pool[n].replyList, cmd));
        LaterTrans(s, t, St());
        LaterNotices(t, St());
        NoticedStays(s, t, St(), Told(cmd, t.cmds[cmd].errorCode));
        DoneStays(t, St(), cmd);
      case Other =>
        CallReply(n, cmd, r, rctx);
    }

    /** The slot of a command after a MOVED reply: one that was computed is replaced. */
    function Corrected(cmd: CmdId, slot: int): int
      requires cmd in cmds
      reads this
    {
      if 0 <= slot < SLOT_NUMBER && cmds[cmd].slot >= 0 then slot else cmds[cmd].slot
    }

    /** Marks the slot table invalid. */
    method Invalidate()
      requires Valid() && Rest(St())
      modifies this`flag
      ensures Valid() && Rest(St()) && Later(old(St()), St()) && flag == INVALID
      ensures St() == old(St()).(flag := INVALID) && (Calm(old(St()), polite) ==> Calm(St(), polite))
    {
      hide Inv, Holding, SlotTable.Valid, Later, Calm;
      ghost var s := St();
      flag := INVALID;
      SweepSame(s, St());
      RestSame(s, St(), {}, {});
      LaterSame(s, St());
      CalmFrame(s, St(), polite);
    }

    /** A slot that was computed for a command is replaced by the one MOVED names. */
    method CorrectSlot(n: string, cmd: CmdId, slot: nat)
      requires Valid() && Rest(St()) && n in pool && cmd in pool[n].replyList && cmd in cmds && slot < SLOT_NUMBER
      modifies this`cmds
      ensures Valid() && Rest(St()) && Later(old(St()), St()) && cmd in cmds && old(cmds[cmd]).home == Queued(n)
      ensures cmds[cmd] == old(cmds[cmd]).(slot := old(Corrected(cmd, slot)))
      ensures St() == old(St()).(cmds := old(cmds)[cmd := cmds[cmd]])
      ensures Calm(old(St()), polite) ==> Calm(St(), polite)
      ensures CalmInit(old(St()), polite) ==> CalmInit(St(), polite)
    {
      hide Inv, Holding, SlotTable.Valid, Later, Calm;
      ghost var s := St();
      QueuedKnown(s, n, cmd);
      LaterSame(s, s);
      if cmds[cmd].slot >= 0 && cmds[cmd].slot != slot {
        Amend(n, cmd, slot, cmds[cmd].errorCode);
      }
    }

    /** A MOVED reply was followed from state s: the slot has a new master, and the command was retried with its
        slot corrected. */
    ghost predicate Followed(n: string, cmd: CmdId, slot: nat, key: Key, s: State, corrected: int)
      requires n in s.pool && s.pool[n].replyList != [] && cmd in s.cmds
      reads this, table
    {
      var v := s.cmds[cmd].(slot := corrected);
      && OnlyRemoved(s.history + [SlotTables.Moved(slot, key)], table.history)
      && Handled(Assigned(s, slot, key), St(), n, cmd)
      && cmd in cmds && Redone(v, cmds[cmd])
      && (s.pool[n].replyList[0] == cmd ==> RetriedAs(Assigned(s, slot, key), v, cmds[cmd]))
    }

    /** A MOVED reply: it is followed if it names a slot and an address. */
    method OnMovedReply(n: string, cmd: CmdId, slot: int, endpoint: Option<R.Endpoint>, r: Option<Reply>,
        rctx: Option<Peer>)
      requires Valid() && Rest(St()) && n in pool && cmd in pool[n].replyList && pool[n].InCallback() && cmd in cmds
      requires !IsSlotReply(r)
      modifies this, table, table.hosts
      ensures Valid() && Rest(St()) && Later(old(St()), St())
      ensures old(Calm(St(), polite) && Lands(n, R.Moved(slot, endpoint))) ==>
        Unhurried(old(St()), St())
      ensures cmd in cmds
      ensures 0 <= slot < SLOT_NUMBER && endpoint.None? && old(cmds[cmd]).kind != SlotQuery ==> flag != VALID
      ensures old(cmds[cmd]).kind != SlotQuery && flag == VALID ==> old(flag) == VALID
      ensures !(0 <= slot < SLOT_NUMBER) || endpoint.None? ==>
        old(cmds[cmd]).given && old(cmds[cmd]).kind == User ==> Noticed(old(St()), St(), Told(cmd, cmds[cmd].errorCode))
      ensures !(0 <= slot < SLOT_NUMBER) || endpoint.None? ==>
        && Answered(old(cmds[cmd]).(slot := old(Corrected(cmd, slot))), cmds[cmd],
             if Failed(old(pool[n]), r) then HIREDIS else old(cmds[cmd]).errorCode)
        && old(completions) <= cmds[cmd].finishedAt
      ensures !(0 <= slot < SLOT_NUMBER) || endpoint.None? ==>
        old(cmds[cmd]).kind == SlotQuery && old(cmds[cmd]).given ==> flag == INVALID
      ensures !(0 <= slot < SLOT_NUMBER) || endpoint.None? ==> Handled(old(St()), St(), n, cmd)
      ensures 0 <= slot < SLOT_NUMBER && endpoint.Some? ==>
        Followed(n, cmd, slot, old(RedirectKey(n, endpoint.value)), old(St()), old(Corrected(cmd, slot)))
    {
      hide Noticed, Failed, Drained, Rebuilt, Handled, CmdsProgress, IndexOf, Inv, Holding, SlotTable.Valid,
          CompletedInOrder, Later, Calm, CalmInit, Serving, Followed, Answered, EndpointNames.NameOf;
      ghost var s := St();
      if slot < 0 || slot >= SLOT_NUMBER {
        CallReply(n, cmd, r, rctx);
        return;
      }
      CorrectSlot(n, cmd, slot);
      ghost var t := St();
      if endpoint.Some? {
        Follow(n, cmd, slot, endpoint.value, s);
      } else {
        Unreadable(n, cmd, r, rctx, s);
      }
      LaterTrans(s, t, St());
    }

    /** The redirection is followed, with the slot of the command corrected since s. */
    method Follow(n: string, cmd: CmdId, slot: nat, endpoint: R.Endpoint, ghost s: State)
      requires Valid() && Rest(St()) && n in pool && cmd in pool[n].replyList && pool[n].InCallback() && cmd in cmds
      requires slot < SLOT_NUMBER && cmd in s.cmds && s.cmds[cmd].home == Queued(n)
      requires cmds[cmd] == s.cmds[cmd].(slot := cmds[cmd].slot) && St() == s.(cmds := s.cmds[cmd := cmds[cmd]])
      modifies this, table, table.hosts
      ensures Valid() && Rest(St()) && Later(old(St()), St())
      ensures old(Calm(St(), polite) && Harmless(RedirectKey(n, endpoint))) ==> Unhurried(old(St()), St())
      ensures flag == VALID ==> old(flag) == VALID
      ensures cmd in cmds && Followed(n, cmd, slot, old(RedirectKey(n, endpoint)), s, old(cmds[cmd]).slot)
    {
      hide RetriedAs, Redone, Handled, IndexOf, Inv, Holding, SlotTable.Valid, Later, OnlyRemoved, Calm, Harmless,
          EndpointNames.NameOf;
      ghost var t, key := St(), RedirectKey(n, endpoint);
      OnMoved(n, cmd, slot, endpoint);
      HandledFrom(Assigned(s, slot, key), Assigned(t, slot, key), St(), n, cmd);
      if s.pool[n].replyList[0] == cmd {
        RetriedSame(Assigned(s, slot, key), Assigned(t, slot, key), t.cmds[cmd], t.cmds[cmd], cmds[cmd]);
      }
    }

    /** The redirection cannot be read: the table is marked invalid, and the error delivered. */
    method Unreadable(n: string, cmd: CmdId, r: Option<Reply>, rctx: Option<Peer>, ghost s: State)
      requires Valid() && Rest(St()) && n in pool && cmd in pool[n].replyList && pool[n].InCallback() && cmd in cmds
      requires !IsSlotReply(r) && cmd in s.cmds && s.cmds[cmd].home == Queued(n) && Later(s, St())
      requires cmds[cmd] == s.cmds[cmd].(slot := cmds[cmd].slot) && St() == s.(cmds := s.cmds[cmd := cmds[cmd]])
      modifies this, table, table.hosts
      ensures Valid() && Rest(St()) && Later(old(St()), St())
      ensures Calm(old(St()), polite) ==> Unhurried(old(St()), St())
      ensures cmd in cmds && (old(cmds[cmd]).kind != SlotQuery ==> flag != VALID)
      ensures Answered(old(cmds[cmd]), cmds[cmd], if Failed(old(pool[n]), r) then HIREDIS else old(cmds[cmd]).errorCode)
      ensures old(completions) <= cmds[cmd].finishedAt
      ensures old(cmds[cmd]).kind == SlotQuery && old(cmds[cmd]).given ==> flag == INVALID
      ensures old(cmds[cmd]).given && old(cmds[cmd]).kind == User ==> Noticed(s, St(), Told(cmd, cmds[cmd].errorCode))
      ensures Handled(s, St(), n, cmd)
    {
      hide Noticed, Failed, Drained, Rebuilt, Handled, CmdsProgress, IndexOf, Inv, Holding, SlotTable.Valid,
          CompletedInOrder, Later, Calm, Answered;
      ghost var t := St();
      Invalidate();
      ghost var v := St();
      CallReply(n, cmd, r, rctx);
      HandledFrom(s, v, St(), n, cmd);
      LaterTrans(s, t, v);
      NoticedFrom(s, v, St(), Told(cmd, cmds[cmd].errorCode));
      LaterTrans(t, v, St());
    }

    /** The reply to ASKING is OK: the command may be sent to that connection. */
    predicate MayAsk(n: string, r: Option<Reply>)
      requires n in pool && pool[n].context.Some?
      reads this
    {
      && pool[n].context.value.err == NoError && r.Some?
      && (r.value.Text? || r.value.StatusLine? || r.value.ErrorLine?) && r.value.text.Some?
      && R.Begins(r.value.text.value, "OK")
    }

    /** A command whose ASKING was answered comes into hand. */
    method Unask(cmd: CmdId)
      requires Valid() && Rest(St()) && cmd in cmds && cmds[cmd].home.Asking?
      modifies this`cmds, this`inHand, this`asking
      ensures Valid() && Holding(St(), {cmd}, {}) && cmd in inHand && Later(old(St()), St())
      ensures St() == Asked(old(St()), cmd) && cmds[cmd] == old(cmds[cmd]).(home := InHand)
      ensures (old(Calm(St(), polite)) ==> Calm(St(), polite)) && Unhurried(old(St()), St())
    {
      hide Inv, SlotTable.Valid, Holding, Later, Calm, KindsKept;
      ghost var s := St();
      AskedKeeps(s, cmd);
      cmds := cmds[cmd := cmds[cmd].(home := InHand)];
      inHand := inHand + {cmd};
      asking := asking - {cmd};
      HandIn(St(), cmd);
      LaterOne(s, St(), cmd, cmds[cmd]);
      KindsOne(s.cmds, cmd, cmds[cmd]);
      CalmFrame(s, St(), polite);
    }

    /** hiredis answers an ASKING request. After OK the command is sent to that connection, unless it has
        to wait for the timer; after a network error it is retried anywhere; else it fails. */
    method OnReplyAsking(n: string, cmd: CmdId, r: Option<Reply>, rctx: Option<Peer>)
      requires Valid() && Rest(St()) && n in pool && pool[n].context.Some? && cmd in cmds && cmds[cmd].home == Asking(n)
      modifies this, table, table.hosts
      ensures Valid() && Rest(St()) && Later(old(St()), St()) && cmd in cmds
      ensures Calm(old(St()), polite) && Brief(old(St()), old(cmds[cmd]).kind, IsSlotReply(r)) ==>
        Unhurried(old(St()), St())
      ensures old(MayAsk(n, r)) ==> SentTo(old(St()), old(cmds[cmd]), cmds[cmd], n)
      ensures old(pool[n]).context.value.err in {Io, Eof} ==> RetriedAs(old(St()), old(cmds[cmd]), cmds[cmd])
      ensures !old(MayAsk(n, r)) && old(pool[n]).context.value.err !in {Io, Eof} ==>
        && Answered(old(cmds[cmd]), cmds[cmd], CONNECTION)
        && (old(cmds[cmd]).kind == SlotQuery && old(cmds[cmd]).given ==>
              TableTaken(Asked(old(St()), cmd), St(), r, rctx))
      // Nothing else is touched.
      ensures Progress(Asked(old(St()), cmd), St(), {cmd}, {})
        || (old(cmds[cmd]).kind == SlotQuery && old(cmds[cmd]).given && IsSlotReply(r)
            && CmdsProgress(old(cmds), cmds, {cmd} + set c <- old(slotPending)))
    {
      hide Progress, CmdsProgress, TableTaken, RetriedAs, SentTo, CString, R.Begins, Inv, SlotTable.Valid, Holding,
          R.Starts, Later, Brief, Calm;
      if pool[n].context.value.err in {Io, Eof} {
        RetryAsked(cmd, None);
        return;
      }
      var ok := false;
      if pool[n].context.value.err == NoError && r.Some?
        && (r.value.Text? || r.value.StatusLine? || r.value.ErrorLine?) && r.value.text.Some? {
        OkRead(n, r);
        ok := R.Starts(CString(r.value.text.value), "OK");
      }
      if ok {
        RetryAsked(cmd, Some(n));
      } else {
        FailAsked(cmd, r, rctx);
      }
    }

    lemma OkRead(n: string, r: Option<Reply>)
      requires n in pool && pool[n].context.Some? && r.Some?
      requires (r.value.Text? || r.value.StatusLine? || r.value.ErrorLine?) && r.value.text.Some?
      ensures R.Starts(CString(r.value.text.value), "OK") <==> R.Begins(r.value.text.value, "OK")
    {
      hide CString, R.Starts, R.Begins;
      R.StartsIs(CString(r.value.text.value), "OK");
      R.TextBegins(r.value.text.value, "OK");
    }

    /** A command whose ASKING was answered is retried. */
    method RetryAsked(cmd: CmdId, conn: Option<string>)
      requires Valid() && Rest(St()) && cmd in cmds && cmds[cmd].home.Asking? && (conn.Some? ==> conn.value in pool)
      modifies this, table, table.hosts
      ensures Valid() && Rest(St()) && Later(old(St()), St()) && cmd in cmds
      ensures Calm(old(St()), polite) ==> Unhurried(old(St()), St())
      ensures Progress(Asked(old(St()), cmd), St(), {cmd}, {})
      ensures conn.None? ==> RetriedAs(old(St()), old(cmds[cmd]), cmds[cmd])
      ensures conn.Some? ==> SentTo(old(St()), old(cmds[cmd]), cmds[cmd], conn.value)
    {
      hide Progress, RetriedAs, Inv, SlotTable.Valid, Holding, Later, Onward, Calm;
      ghost var s := St();
      Unask(cmd);
      ghost var t := St();
      RetryHeld(cmd, conn);
      OnwardFacts(t, St(), polite);
      LaterTrans(s, t, St());
      if conn.None? {
        RetriedSame(s, t, s.cmds[cmd], t.cmds[cmd], cmds[cmd]);
      }
    }

    /** A command whose ASKING was answered fails. */
    method FailAsked(cmd: CmdId, r: Option<Reply>, rctx: Option<Peer>)
      requires Valid() && Rest(St()) && cmd in cmds && cmds[cmd].home.Asking?
      modifies this, table, table.hosts
      ensures Valid() && Rest(St()) && Later(old(St()), St()) && cmd in cmds
      ensures Calm(old(St()), polite) && Brief(old(St()), old(cmds[cmd]).kind, IsSlotReply(r)) ==>
        Unhurried(old(St()), St())
      ensures old(cmds[cmd]).kind == SlotQuery && old(cmds[cmd]).given ==>
        TableTaken(Asked(old(St()), cmd), St(), r, rctx)
      ensures if old(cmds[cmd]).kind == SlotQuery && old(cmds[cmd]).given && IsSlotReply(r)
        then CmdsProgress(old(cmds), cmds, {cmd} + set c <- old(slotPending))
        else Progress(Asked(old(St()), cmd), St(), {cmd}, {})
      ensures Answered(old(cmds[cmd]), cmds[cmd], CONNECTION)
    {
      hide TableTaken, Progress, CmdsProgress, Inv, SlotTable.Valid, Holding, Later, Brief, Calm;
      ghost var s := St();
      Unask(cmd);
      ghost var t := St();
      if Brief(s, s.cmds[cmd].kind, IsSlotReply(r)) {
        BriefSame(s, t, cmd, s.cmds[cmd].kind, IsSlotReply(r));
      }
      AnswerHeld(cmd, CONNECTION, r, rctx);
      LaterTrans(s, t, St());
      AskingOkay(s, cmd);
      CmdsProgressFrom(s.cmds, t.cmds, cmds, cmd, set c <- s.slotPending);
    }

    // ---- Connection events.

    /** hiredis reports the end of a connection attempt, from inside its callback. */
    method OnConnected(n: string, ok: bool)
      requires Valid() && Rest(St()) && n in pool && pool[n].InCallback()
      modifies this, table, table.hosts
      ensures Valid() && Rest(St()) && Onward(old(St()), St(), polite)
      ensures ok && old(pool[n]).status == CONNECTING ==> n in pool && pool[n].status == CONNECTED
      ensures ok && old(pool[n]).status == CONNECTING ==> forall i :: 0 <= i < |timerConns| ==>
        timerConns[i].sequence != pool[n].sequence
      ensures AllReachable(old(St()), init.name) && (!ok || flag == INVALID) ==> AskedFor(old(St()), St())
      ensures old(notices) + [ConnectEnded(n, ok)] <= notices
      // A failed attempt is reported twice.
      ensures !ok && old(pool[n]).status == CONNECTING ==>
        exists i :: |old(notices)| < i < |notices| && notices[i] == ConnectEnded(n, false)
      // Nothing else is touched.
      ensures if ok then Elsewhere(old(St()), St(), n, {}) && n in pool && Advances(old(pool[n]), pool[n])
        else Progress(old(St()), St(), {}, {n})
      ensures !ok ==> CompletedInOrder(old(St()), St(), old(pool[n]).replyList, CONNECTION)
    {
      hide Elsewhere, Advances, Grown, OnlyRemoved, Inv, Progress, SlotTable.Valid, Holding, CompletedInOrder, Onward,
          CalmStep, SettledStep, BackStep, Trapped, AllReachable, AskedFor, Later;
      ghost var s := St();
      RestOpen(s, n);
      UserCallback(ConnectEnded(n, ok));
      ghost var s1 := St();
      StaysPooled(s, s1, n);
      RestKept(s, s1, {});
      BackCalm(s, s1, polite);
      ProgressOnward(s, s1, {}, polite);
      OnwardFacts(s, s1, polite);
      OnwardReachable(s, s1, polite, init.name);
      GrownStatus(s.pool[n], s1.pool[n]);
      if !ok || pool[n].status == DISCONNECTED {
        ConnectFailed(n);
        ProgressTrans(s, s1, St(), {}, {}, {}, {n});
        var none: set<CmdId>, one := {}, {n};
        assert none + none == none && {} + one == one;
        CompletedGrown(s, s1, St(), n, s.pool[n].replyList);
      } else {
        ConnectSucceeded(n);
        ProgressElsewhere(s, s1, n);
        ElsewhereTrans(s, s1, St(), n, {}, {});
        AdvancesAfter(s.pool[n], s1.pool[n], pool[n]);
      }
      OnwardFacts(s1, St(), polite);
      OnwardTrans(s, s1, St(), polite);
      if AskedFor(s1, St()) {
        AskedForSince(s, s, s1, St());
      }
    }

    /** The attempt has succeeded: the connection is connected, and the table asked for if it is invalid. */
    method ConnectSucceeded(n: string)
      requires Valid() && Rest(St()) && n in pool && pool[n].InCallback()
      modifies this, table, table.hosts
      ensures Valid() && Rest(St()) && Onward(old(St()), St(), polite)
      ensures Elsewhere(old(St()), St(), n, {}) && n in pool && Advances(old(pool[n]), pool[n])
      ensures old(pool[n]).status == CONNECTING ==>
        && n in pool && pool[n].status == CONNECTED
        && forall i :: 0 <= i < |timerConns| ==> timerConns[i].sequence != pool[n].sequence
      ensures AllReachable(old(St()), init.name) && flag == INVALID ==> AskedFor(old(St()), St())
    {
      hide Elsewhere, OnlyRemoved, Inv, Progress, SlotTable.Valid, Holding, Onward, AllReachable, AskedFor, Later;
      ghost var s := St();
      RestContext(s, n);
      SetConnected(n);
      ghost var t := St();
      OnwardFacts(s, t, polite);
      OnwardReachable(s, t, polite, init.name);
      ConnectedReload(n);
      ProgressElsewhere(t, St(), n);
      ElsewhereTrans(s, t, St(), n, {}, {});
      OnwardTrans(s, t, St(), polite);
      if AskedFor(t, St()) {
        AskedForSince(s, s, t, St());
      }
    }

    /** The attempt has failed: the connection is released, and the table asked for. */
    method ConnectFailed(n: string)
      requires Valid() && Rest(St()) && n in pool
      modifies this, table, table.hosts
      ensures Valid() && Rest(St()) && Onward(old(St()), St(), polite)
      ensures AllReachable(old(St()), init.name) ==> AskedFor(old(St()), St())
      ensures Progress(old(St()), St(), {}, {n})
      ensures old(pool[n]).status == CONNECTING ==> Noticed(old(St()), St(), ConnectEnded(n, false))
      ensures CompletedInOrder(old(St()), St(), old(pool[n]).replyList, CONNECTION)
    {
      hide Inv, Progress, SlotTable.Valid, Holding, CompletedInOrder, Onward, Calm, Mild,
          SettledStep, Trapped, AllReachable, AskedFor, Later;
      ghost var s := St();
      RestOpen(s, n);
      if Calm(s, polite) {
        OpenIsGentle(s, n, polite);
      }
      var found := ReleaseConnection(n, false);
      ghost var t := St();
      RestKept(s, t, {n});
      ReleaseOnward(s, t, n, polite);
      OnwardFacts(s, t, polite);
      OnwardReachable(s, t, polite, init.name);
      var asked, query := ReloadSlots();
      RestKept(t, St(), {});
      ProgressOnward(t, St(), {}, polite);
      OnwardFacts(t, St(), polite);
      ThenProgress(s, t, St(), {}, {n});
      NoticedStays(s, t, St(), ConnectEnded(n, false));
      CompletedStays(s, t, St(), s.pool[n].replyList, CONNECTION);
      OnwardTrans(s, t, St(), polite);
      if AskedFor(t, St()) {
        OnwardFacts(s, t, polite);
        AskedForSince(s, s, t, St());
      }
    }

    /** Asks for the slot table once a connection is there; that connection stays. */
    method ConnectedReload(n: string)
      requires Valid() && Rest(St()) && n in pool && pool[n].InCallback()
      modifies this, table, table.hosts
      ensures Valid() && Rest(St()) && Onward(old(St()), St(), polite)
      ensures AllReachable(old(St()), init.name) && flag == INVALID ==> AskedFor(old(St()), St())
      ensures old(flag) != INVALID ==> St() == old(St())
      ensures Progress(old(St()), St(), {}, {})
      ensures n in pool && Grown(old(pool[n]), pool[n])
      ensures pool[n].status == CONNECTED ==> forall i :: 0 <= i < |timerConns| ==>
        timerConns[i].sequence != pool[n].sequence
    {
      hide Inv, Progress, SlotTable.Valid, Holding, Onward, CalmStep, Trapped, AllReachable,
          AskedFor;
      ghost var s := St();
      if flag == INVALID {
        var asked, query := ReloadSlots();
      } else {
        ProgressRefl(s);
        UnhurriedCalm(s, s, polite);
      }
      StaysPooled(s, St(), n);
      RestKept(s, St(), {});
      ProgressOnward(s, St(), {}, polite);
      if pool[n].status == CONNECTED {
        ConnectedSafe(St(), n);
      }
    }

    /** A connecting connection is connected; the new sequence disarms its connect timeout. */
    method SetConnected(n: string)
      requires Valid() && Rest(St()) && n in pool
      modifies this`pool, this`seqAlloc
      ensures Valid() && Rest(St()) && Onward(old(St()), St(), polite)
      ensures Elsewhere(old(St()), St(), n, {})
      ensures n in pool && pool[n].InCallback() == old(pool[n]).InCallback()
      ensures if old(pool[n]).status == CONNECTING && old(pool[n]).context.Some?
        then St() == Connected(old(St()), n, pool[n].sequence, seqAlloc) && old(seqAlloc) <= pool[n].sequence
        else St() == old(St())
    {
      hide Inv, SlotTable.Valid, Holding, Onward, Elsewhere;
      ghost var s := St();
      if pool[n].status != CONNECTING || pool[n].context.None? {
        OnwardSame(s, s, polite);
        ElsewhereRefl(s, n, {});
        return;
      }
      var sequence, next := MakeSequence(seqAlloc);
      ConnectedKeeps(s, n, sequence, next);
      pool := pool[n := pool[n].(status := CONNECTED, sequence := sequence)];
      seqAlloc := next;
      ConnectedElsewhere(s, n, sequence, next);
      ConnectedOnward(s, n, sequence, next, polite);
    }

    /** hiredis reports that a connection was closed, for an error or not. */
    method OnDisconnected(n: string, ok: bool)
      requires Valid() && Rest(St()) && n in pool
      modifies this, table, table.hosts
      ensures Valid() && Rest(St()) && n !in pool && Later(old(St()), St()) && Progress(old(St()), St(), {}, {n})
      ensures CompletedInOrder(old(St()), St(), old(pool[n]).replyList, CONNECTION)
      ensures OnlyRemoved(old(table.history) + (if ok then [] else [Remove(n)]), table.history)
      ensures old(pool[n]).status == CONNECTED ==> Noticed(old(St()), St(), ConnectionLost(n))
      ensures polite || CalmBut(old(St()), if ok then {} else {n}, polite) ==> Unhurried(old(St()), St())
      ensures budget <= old(budget)
      ensures ok && old(pool[n]).replyList == [] ==> Frozen(old(St())) ==> Frozen(St()) && Unhurried(old(St()), St())
    {
      hide Inv, Progress, SlotTable.Valid, Holding, CompletedInOrder, Later, Onward, OnlyRemoved, Calm, CalmInit,
          Sheltered, Mild, Frozen;
      ghost var s := St();
      RestOpen(s, n);
      ProgressRefl(s);
      if !ok {
        RemoveConnectionKey(n);
        ForgotCalm(s, St(), n, polite);
      }
      ghost var t := St();
      if Calm(t, polite) {
        OpenIsGentle(t, n, polite);
      }
      RestSame(s, t, {}, {});
      LaterSame(s, t);
      var found := ReleaseConnection(n, false);
      RestKept(t, St(), {n});
      ProgressLater(t, St(), {}, {n});
      ProgressRemoved(t, St(), {}, {n});
      LaterTrans(s, t, St());
      CompletedFrom(s, t, St(), s.pool[n].replyList, CONNECTION);
      ProgressTrans(s, t, St(), {}, {}, if ok then {} else {n}, {n});
      var none: set<CmdId>, one := {}, {n};
      assert none + none == none && one + one == one;
      CalmButNone(s, polite);
      assert old(table.history) + [] == old(table.history);
    }

    // ---- Reset.

    /** Closes a context. hiredis reports the disconnection at once, as one for an error if the context carries
        one, if it is idle: in no callback and with nothing left to answer. */
    method Disconnect(n: string, ghost s: State, ghost but: set<string>)
      requires Valid() && Rest(St()) && n in pool && pool[n].context.Some?
      requires Inv(s) && Resetting(s, St(), but, 0, 0)
      modifies this, table, table.hosts
      ensures Valid() && Rest(St()) && Resetting(s, St(), but - {n}, 0, 0)
      ensures Later(old(St()), St()) && LullStep(old(St()), St(), polite, n != init.name)
      ensures n !in pool && old(pool[n]).context.value.err != NoError ==>
        OnlyRemoved(old(table.history) + [Remove(n)], table.history)
      ensures budget <= old(budget) && Spared(old(cmds), cmds, {})
    {
      hide Inv, Progress, SlotTable.Valid, Holding, Resetting, Later, Onward, Frozen, LullStep, CalmBut, OnlyRemoved,
          Spared, CmdsProgress;
      ghost var t := St();
      ContextKeeps(t, n, pool[n].context.value.(disconnecting := true));
      pool := pool[n := pool[n].(context := Some(pool[n].context.value.(disconnecting := true)))];
      ghost var u := St();
      ResettingCloses(s, t, n, but);
      LaterSame(t, u);
      SparedRefl(cmds);
      LullCloses(t, u, n, pool[n].context.value, polite);
      var pending: bool := *;
      if !pool[n].InCallback() && pool[n].replyList == [] && !pending {
        ghost var ok := pool[n].context.value.err == NoError;
        OnDisconnected(n, pool[n].context.value.err == NoError);
        ResettingKept(s, u, St(), but - {n}, 0, 0, {n});
        LaterTrans(t, u, St());
        ProgressCmds(u, St(), {}, {n});
        SparedBy(u.cmds, cmds, {});
        LullReleases(u, St(), n, if ok then {} else {n}, polite);
        LullTrans(t, u, St(), polite, n != init.name);
      }
    }

    method DisconnectAll(ghost s: State)
      requires Valid() && Rest(St()) && Inv(s) && Resetting(s, St(), s.pool.Keys, 0, 0) && pool == s.pool
      modifies this, table, table.hosts
      ensures Valid() && Rest(St()) && Resetting(s, St(), {}, 0, 0)
      ensures Later(old(St()), St()) && LullStep(old(St()), St(), polite, init.name !in s.pool)
      ensures budget <= old(budget) && Spared(old(cmds), cmds, {})
    {
      hide Inv, SlotTable.Valid, Holding, Resetting, Later, LullStep, Spared;
      ghost var t := St();
      LaterSame(t, t);
      SparedRefl(cmds);
      ghost var alone := init.name !in s.pool;
      LullSame(t, t, polite, alone);
      var names := pool.Keys;
      while names != {}
        invariant Valid() && Rest(St()) && Resetting(s, St(), names, 0, 0)
        invariant Later(t, St()) && LullStep(t, St(), polite, alone) && budget <= t.budget && names <= s.pool.Keys
        invariant Spared(t.cmds, cmds, {})
        decreases names
      {
        var n :| n in names;
        ghost var u := St();
        if n in pool {
          RestContext(u, n);
          Disconnect(n, s, names);
          LaterTrans(t, u, St());
          SparedTrans(t.cmds, u.cmds, cmds, {});
          LullLess(u, St(), polite, n != init.name, alone);
          LullTrans(t, u, St(), polite, alone);
        } else {
          ResettingGone(s, u, n, names);
        }
        names := names - {n};
      }
    }

    /** Fails the oldest parked command. */
    method FailParked(ghost s: State, ghost k: nat)
      requires Valid() && Rest(St()) && slotPending != []
      requires Inv(s) && Resetting(s, St(), {}, k, 0)
      modifies this, table, table.hosts
      ensures Valid() && Rest(St()) && Resetting(s, St(), {}, if k < |s.slotPending| then k + 1 else k, 0)
      ensures Later(old(St()), St()) && LullStep(old(St()), St(), polite, true)
      ensures budget <= old(budget) && Spared(old(cmds), cmds, {})
      ensures budget == old(budget) ==> |slotPending| < |old(slotPending)|
    {
      hide Inv, Progress, SlotTable.Valid, Holding, Resetting, Later, Onward, Refusing,
          SettledStep, LullStep, FrozenStep, Calm, Spared;
      ghost var t := St();
      var c := TakeParked();
      ghost var v := St();
      HandOne(t, v, c);
      LaterOne(t, v, c, cmds[c]);
      FailHeld(c, SLOT_UNAVAILABLE);
      OnwardFacts(v, St(), polite);
      LaterTrans(t, v, St());
      SparedNext(t, v, St(), c);
      LullFails(t, v, St(), c, polite, true);
      ResettingParked(s, t, St(), {}, k, 0);
    }

    method FailAllParked(ghost s: State)
      requires Valid() && Rest(St()) && Inv(s) && Resetting(s, St(), {}, 0, 0)
      modifies this, table, table.hosts
      ensures Valid() && Rest(St()) && Resetting(s, St(), {}, |s.slotPending|, 0) && slotPending == []
      ensures Later(old(St()), St()) && LullStep(old(St()), St(), polite, true)
      ensures budget <= old(budget) && Spared(old(cmds), cmds, {})
    {
      hide Inv, SlotTable.Valid, Holding, Resetting, Later, LullStep, Spared;
      ghost var t := St();
      LaterSame(t, t);
      SparedRefl(cmds);
      LullSame(t, t, polite, true);
      ghost var k := 0;
      while slotPending != []
        invariant Valid() && Rest(St()) && Resetting(s, St(), {}, k, 0)
        invariant Later(t, St()) && LullStep(t, St(), polite, true) && budget <= t.budget
        invariant Spared(t.cmds, cmds, {})
        decreases budget, |slotPending|
      {
        ghost var u := St();
        FailParked(s, k);
        LaterTrans(t, u, St());
        SparedTrans(t.cmds, u.cmds, cmds, {});
        LullTrans(t, u, St(), polite, true);
        k := if k < |s.slotPending| then k + 1 else k;
      }
      ResettingParkedAll(s, St(), {}, k, 0);
    }

    /** Fails the oldest delayed command. */
    method FailDelayed(ghost s: State, ghost k: nat, ghost m: nat)
      requires Valid() && Rest(St()) && timerPending != []
      requires Inv(s) && Resetting(s, St(), {}, k, m)
      modifies this, table, table.hosts
      ensures Valid() && Rest(St()) && Resetting(s, St(), {}, k, if m < |s.timerPending| then m + 1 else m)
      ensures Later(old(St()), St()) && LullStep(old(St()), St(), polite, true)
      ensures OnlyRemoved(old(table.history), table.history)
      ensures budget <= old(budget) && Spared(old(cmds), cmds, {})
      ensures budget == old(budget) ==> |timerPending| < |old(timerPending)| && slotPending == old(slotPending)
    {
      hide Inv, Progress, SlotTable.Valid, Holding, Resetting, Later, Onward, Refusing,
          SettledStep, LullStep, FrozenStep, Calm, OnlyRemoved, Spared;
      ghost var t := St();
      var c := TakeDelayed();
      ghost var v := St();
      OnwardFacts(t, v, polite);
      FailHeld(c, TIMEOUT);
      OnwardFacts(v, St(), polite);
      LaterTrans(t, v, St());
      SparedNext(t, v, St(), c);
      LullFails(t, v, St(), c, polite, true);
      ResettingDelayed(s, t, St(), {}, k, m);
    }

    method FailAllDelayed(ghost s: State, ghost k: nat) returns (ghost m: nat)
      requires Valid() && Rest(St()) && Inv(s) && Resetting(s, St(), {}, k, 0)
      modifies this, table, table.hosts
      ensures Valid() && Rest(St()) && timerPending == []
      ensures Resetting(s, St(), {}, k, m)
      ensures Later(old(St()), St()) && LullStep(old(St()), St(), polite, true)
      ensures OnlyRemoved(old(table.history), table.history)
      ensures Spared(old(cmds), cmds, {})
      ensures budget <= old(budget) && (budget == old(budget) ==> slotPending == old(slotPending))
    {
      hide Inv, SlotTable.Valid, Holding, Resetting, Later, LullStep, OnlyRemoved, Spared;
      ghost var t := St();
      LaterSame(t, t);
      SparedRefl(cmds);
      LullSame(t, t, polite, true);
      NothingRemoved(t.history);
      m := 0;
      while timerPending != []
        invariant Valid() && Rest(St()) && Resetting(s, St(), {}, k, m)
        invariant Later(t, St()) && LullStep(t, St(), polite, true) && OnlyRemoved(t.history, table.history)
        invariant budget <= t.budget && (budget == t.budget ==> slotPending == t.slotPending)
        invariant Spared(t.cmds, cmds, {})
        decreases budget, |timerPending|
      {
        ghost var u := St();
        FailDelayed(s, k, m);
        LaterTrans(t, u, St());
        SparedTrans(t.cmds, u.cmds, cmds, {});
        LullTrans(t, u, St(), polite, true);
        OnlyRemovedTrans(t.history, u.history, table.history);
        m := if m < |s.timerPending| then m + 1 else m;
      }
    }

    /** Closes every connection, fails every waiting command, oldest first, and forgets the slot table,
        the connect timeouts and the clock. */
    method Reset()
      requires Valid() && Rest(St())
      modifies this, table, table.hosts
      ensures Valid() && Rest(St())
      ensures Later(old(St()), St())
      ensures polite || Frozen(old(St()).(flag := UPDATING)) || init.name !in old(pool) ==> Unhurried(old(St()), St())
      ensures CompletedInOrder(old(St()), St(), old(slotPending), SLOT_UNAVAILABLE)
      ensures CompletedInOrder(old(St()), St(), TimerCmds(old(timerPending)), TIMEOUT)
      ensures Closed(old(pool), pool, {})
      ensures Forgotten()
      // Only what waits is failed.
      ensures Spared(old(cmds), cmds, {})
      // Called from inside a callback of the initial endpoint, it leaves the client in a trap.
      ensures init.name in old(pool) && init.name in pool && pool[init.name].InCallback() ==>
        pool[init.name].sequence == old(pool[init.name]).sequence ==> Trapped(St())
      ensures budget == old(budget) ==> slotPending == []
    {
      hide Closed, Inv, SlotTable.Valid, Holding, Resetting, CompletedInOrder, Replay, Later, OnlyRemoved,
          Trapped, LullStep, Frozen, CmdsAged, Spared;
      ghost var s := St();
      FailWaiting();
      ghost var t, cleared := St(), table.history;
      ClearTable();
      ghost var u := St();
      ResettingSame(s, t, u, {}, |s.slotPending|, 0);
      ghost var m := FailAllDelayed(s, |s.slotPending|);
      ResettingDone(s, St(), m);
      ghost var v := St();
      SparedTrans(s.cmds, u.cmds, v.cmds, {});
      LullEnds(s.(flag := UPDATING), t, u, v, polite);
      timerConns, now, flag := [], Time(0, 0), INVALID;
      ForgetKeeps(v, St());
      ResetEnds(s, t, u, v, St());
      TableCleared(cleared);
      if init.name in s.pool && init.name in pool && pool[init.name].InCallback() {
        if pool[init.name].sequence == s.pool[init.name].sequence {
          ResetTraps(s.pool, St());
        }
      }
    }

    /** Closes every connection and fails every parked command. */
    method FailWaiting()
      requires Valid() && Rest(St())
      modifies this, table, table.hosts
      ensures Valid() && Rest(St()) && Resetting(old(St()), St(), {}, |old(slotPending)|, 0) && slotPending == []
      ensures Inv(old(St())) && Later(old(St()), St())
      ensures LullStep(old(St()).(flag := UPDATING), St(), polite, Aloof(old(St())))
      ensures budget <= old(budget) && Spared(old(cmds), cmds, {})
    {
      hide Inv, SlotTable.Valid, Holding, Resetting, Later, Sweep, LullStep, Spared;
      ghost var s := St();
      flag := UPDATING;
      SweepSame(s, St());
      RestSame(s, St(), {}, {});
      ResettingBegins(s);
      ResettingSame(s, s, St(), s.pool.Keys, 0, 0);
      LaterSame(s, St());
      ghost var t := St();
      DisconnectAll(s);
      ghost var u := St();
      LaterTrans(s, t, u);
      FailAllParked(s);
      LaterTrans(s, u, St());
      SparedTrans(s.cmds, u.cmds, cmds, {});
      LullLess(u, St(), polite, true, Aloof(s));
      LullTrans(t, u, St(), polite, Aloof(s));
    }

    method ClearTable()
      requires Valid() && Rest(St())
      modifies table, table.hosts
      ensures Valid() && Rest(St()) && Later(old(St()), St())
      ensures St() == old(St()).(history := old(table.history) + [Clear])
    {
      hide Inv, Holding, Later;
      ghost var t := St();
      table.Clear();
      SweepSame(t, St());
      RestSame(t, St(), {}, {});
      LaterSame(t, St());
    }

    lemma TableCleared(h: seq<Edit>)
      requires table.Valid() && OnlyRemoved(h + [Clear], table.history)
      ensures forall i :: 0 <= i < SLOT_NUMBER ==> table.hosts[i] == []
      ensures forall i :: 0 <= i < SLOT_NUMBER ==> Replay(table.history, i) == []
    {
      forall i: int ensures Replay(table.history, i) == [] {
        ClearedStays(h, table.history, i);
      }
    }

    // ---- The timer.

    /** The first delayed command comes into hand. */
    method TakeDelayed() returns (c: CmdId)
      requires Valid() && Rest(St()) && timerPending != []
      modifies this`timerPending, this`cmds, this`inHand
      ensures c == old(timerPending)[0].cmd && c in old(cmds) && old(cmds[c]).home == Delayed
      ensures c in cmds && c in inHand
      ensures Valid() && St() == Undelay(old(St())) && cmds[c] == old(cmds[c]).(home := InHand)
      ensures Holding(St(), {c}, {}) && Onward(old(St()), St(), polite)
    {
      hide Inv, SlotTable.Valid, Holding, Onward;
      ghost var t := St();
      UndelayKeeps(t);
      c := timerPending[0].cmd;
      timerPending := timerPending[1..];
      cmds := cmds[c := cmds[c].(home := InHand)];
      inHand := inHand + {c};
      HandOne(t, St(), c);
      OnwardOne(t, St(), c, cmds[c], polite);
    }

    /** Fires the first delayed command. */
    method FireFirst() returns (c: CmdId)
      requires Valid() && Rest(St()) && timerPending != []
      modifies this, table, table.hosts
      ensures c == old(timerPending)[0].cmd && c in old(cmds) && old(cmds[timerPending[0].cmd]).home == Delayed
      ensures Valid() && Rest(St()) && Progress(Undelay(old(St())), St(), {c}, {})
      ensures c in cmds
      ensures Executed(old(St()), old(cmds[timerPending[0].cmd]), cmds[c])
      ensures HeldStep(Undelay(old(St())), St(), c)
      ensures Onward(old(St()), St(), polite)
    {
      hide Executed, HeldStep, AllReachable, AskedFor, Inv, Progress, SlotTable.Valid, Holding, Onward,
          CalmStep, SettledStep, Trapped;
      ghost var t := St();
      c := TakeDelayed();
      ghost var v := St();
      var kept := Exec(c);
      ExecutedSame(t, v, t.cmds[c], v.cmds[c], cmds[c]);
      RestProgress(v, St(), c);
      ProgressOnward(v, St(), {c}, polite);
      OnwardTrans(t, v, St(), polite);
    }

    /** Looks at the first connect timeout, which has passed. A connection is released for it only if it is
        in the connecting phase the timeout was set for. */
    method ExpireFirst(ghost s: State, ghost pending: seq<Delay>, ghost j: nat, ghost dropped: set<string>)
      returns (ghost drop: set<string>)
      requires Valid() && Rest(St()) && now == s.now && timerConns != [] && timerConns[0].timeout <= now.sec
      requires Inv(s) && Expiring(s, St(), pending, j, dropped) && forall n <- s.pool :: !s.pool[n].InCallback()
      requires Later(s, St()) && AllEnded(s, St(), dropped)
      modifies this, table, table.hosts
      ensures Valid() && Rest(St()) && Expiring(s, St(), pending, j + 1, dropped + drop)
      ensures AllEnded(s, St(), dropped + drop) && CmdsProgress(old(cmds), cmds, {})
      ensures Later(old(St()), St()) && (Timely(s, polite) ==> Unhurried(old(St()), St()))
    {
      hide Inv, Progress, SlotTable.Valid, Holding, TimedOut, Expiring, Later, Timely, Mild, CmdsAged, CmdsProgress,
          AllEnded, Ended, CompletedInOrder, Noticed;
      ghost var t := St();
      ExpiredKnown(s, t, pending, j, dropped);
      var e := timerConns[0];
      drop := {};
      ProgressRefl(t);
      if e.name in pool && pool[e.name].sequence == e.sequence {
        assert pool[e.name].status == CONNECTING && pool[e.name].context.Some? && !pool[e.name].InCallback();
        drop := {e.name};
        LaterAges(s, t);
        if Timely(s, polite) {
          TimelyGentle(s, t, pending, j, dropped, e.name, polite);
        }
        var found := ReleaseConnection(e.name, true);
        EndedIs(s, t, dropped, St(), e.name);
      }
      ghost var u := St();
      RestKept(t, u, drop);
      ProgressLater(t, u, {}, drop);
      DropTimeoutKeeps(t, u, drop);
      ProgressCmds(t, u, {}, drop);
      AllEndedNext(s, t, u, dropped, drop);
      timerConns := timerConns[1..];
      ExpiringNext(s, t, u, pending, j, dropped, drop);
      RestSame(u, St(), {}, {});
      LaterSame(u, St());
      AllEndedSame(s, u, St(), dropped + drop);
      LaterTrans(t, u, St());
    }

    /** The timer ticks: fires the delayed commands that are due, in the order of their deadlines, then
        releases the connections that were connecting for too long. */
    method Proc(t: Time) returns (ret: nat, ghost fired: seq<CmdId>, ghost dropped: set<string>)
      requires Valid() && Rest(St()) && AtMost(now, t)
      requires TimerAvailable() && interval.sec >= 0 && interval.usec >= 0
      requires forall n <- pool :: !pool[n].InCallback()
      modifies this, table, table.hosts
      ensures Valid() && Rest(St()) && now == t
      ensures Later(old(St()), St())
      ensures Timely(old(St()).(now := t), polite) ==> Unhurried(old(St()), St())
      ensures forall i :: 0 <= i < |old(timerPending)| ==> (i < ret <==> AtMost(old(timerPending)[i].at, t))
      ensures ret <= |old(timerPending)| && fired == TimerCmds(old(timerPending)[..ret])
      // They are executed.
      ensures Fired(old(St()).(now := t), St(), ret)
      ensures old(timerPending)[ret..] <= timerPending
      ensures forall i :: 0 <= i < |timerPending| ==> !AtMost(timerPending[i].at, t)
      ensures timerConns == [] || t.sec < timerConns[0].timeout
      ensures forall i :: Passed(old(timerConns), i, t.sec) ==> Outlived(pool, old(timerConns)[i])
      // Just those that were connecting in the phase of a passed timeout are released for it.
      ensures forall i :: Passed(old(timerConns), i, t.sec) && Awaited(old(pool), old(timerConns)[i]) ==>
        old(timerConns)[i].name in dropped
      ensures forall n <- dropped :: TimedOut(old(St()).(now := t), n) && Ended(old(St()).(now := t), St(), n)
      // Nothing else is touched.
      ensures PoolProgress(old(pool), old(seqAlloc), pool, dropped)
      ensures TableProgress(old(pool), old(table.history), table.history, dropped)
      ensures CmdsProgress(old(cmds), cmds, set c <- fired)
    {
      hide Outlived, Inv, Progress, PoolProgress, SlotTable.Valid, Holding, TimedOut, Firing, Expiring,
          Onward, Later, Calm, Timely, Fired, Ended, CmdsProgress, CmdsAged, Awaited, Fate, TableProgress;
      ghost var s0 := St();
      ClockKeeps(s0, t);
      now := t;
      ghost var s := St();
      LaterSame(s0, s);
      if Timely(s, polite) {
        TimelyCalm(s, polite);
      }
      ret, fired := FireDue(s);
      OnwardFacts(s, St(), polite);
      ExpiringBegins(s, St(), ret);
      ghost var m := St();
      AllEndedBegins(s, m, ret);
      dropped := ExpireDue(s, timerPending);
      LaterAges(m, St());
      CmdsProgressOn(s.cmds, m.cmds, cmds, set c <- fired);
      FiredKept(s, m, St(), ret);
      AllEndedFacts(s, St(), dropped);
      forall i | Passed(s.timerConns, i, t.sec) && Awaited(s.pool, s.timerConns[i])
        ensures s.timerConns[i].name in dropped
      {
        AwaitedDropped(s.pool, s.seqAlloc, pool, dropped, s.timerConns[i]);
      }
      LaterTrans(s0, s, St());
    }

    /** Fires the delayed commands that are due. */
    method FireDue(ghost s: State) returns (ret: nat, ghost fired: seq<CmdId>)
      requires Valid() && Rest(St()) && St() == s
      requires TimerAvailable() && interval.sec >= 0 && interval.usec >= 0
      modifies this, table, table.hosts
      ensures Valid() && Rest(St()) && Onward(s, St(), polite) && Firing(s, St(), ret)
      ensures Burning(s, St(), ret) && CmdsProgress(s.cmds, cmds, set c <- fired)
      ensures ret <= |s.timerPending| && fired == TimerCmds(s.timerPending[..ret])
      ensures forall i :: 0 <= i < |s.timerPending| ==> (i < ret <==> AtMost(s.timerPending[i].at, s.now))
      ensures s.timerPending[ret..] <= timerPending
      ensures forall i :: 0 <= i < |timerPending| ==> !AtMost(timerPending[i].at, s.now)
      ensures now == s.now
    {
      hide Inv, Progress, SlotTable.Valid, Holding, Firing, Burning, Executed, HeldStep, CmdsProgress, Onward;
      FiringBegins(s);
      BurningBegins(s);
      NothingFired(s.cmds);
      OnwardSame(s, s, polite);
      ret, fired := 0, [];
      while timerPending != [] && AtMost(timerPending[0].at, now)
        invariant Valid() && Rest(St()) && now == s.now && Firing(s, St(), ret) && Onward(s, St(), polite)
        invariant Burning(s, St(), ret) && CmdsProgress(s.cmds, cmds, set c <- fired)
        invariant ret <= |s.timerPending| && fired == TimerCmds(s.timerPending[..ret])
        decreases |s.timerPending| - ret
      {
        ghost var u := St();
        var c := FireFirst();
        FiringNext(s, u, St(), ret);
        BurningNext(s, u, St(), ret);
        OnwardTrans(s, u, St(), polite);
        assert s.timerPending[..ret + 1] == s.timerPending[..ret] + [s.timerPending[ret]];
        FiredProgress(s, u, St(), fired, c);
        fired := fired + [c];
        ret := ret + 1;
        FiringNow(s, St(), ret);
      }
      FiringEnds(s, St(), ret);
    }

    /** Deals with the connect timeouts that have passed. */
    method ExpireDue(ghost s: State, ghost pending: seq<Delay>) returns (ghost dropped: set<string>)
      requires Valid() && Rest(St()) && Inv(s) && Expiring(s, St(), pending, 0, {}) && Later(s, St())
      requires Timely(s, polite) ==> Unhurried(s, St())
      requires AllEnded(s, St(), {})
      requires now == s.now && interval == s.env.interval && TimerAvailable() && interval.sec >= 0 && interval.usec >= 0
      requires forall n <- s.pool :: !s.pool[n].InCallback()
      requires forall i :: 0 <= i < |pending| ==> !AtMost(pending[i].at, s.now)
      modifies this, table, table.hosts
      ensures Valid() && Rest(St()) && Later(s, St()) && now == s.now
      ensures Timely(s, polite) ==> Unhurried(s, St())
      ensures AllEnded(s, St(), dropped) && CmdsProgress(old(cmds), cmds, {}) && Later(old(St()), St())
      ensures pending <= timerPending && forall i :: 0 <= i < |timerPending| ==> !AtMost(timerPending[i].at, s.now)
      ensures timerConns == [] || now.sec < timerConns[0].timeout
      ensures forall i :: Passed(s.timerConns, i, s.now.sec) ==> Outlived(pool, s.timerConns[i])
      ensures TableProgress(s.pool, s.history, table.history, dropped)
      ensures PoolProgress(s.pool, s.seqAlloc, pool, dropped) && forall n <- dropped :: TimedOut(s, n)
    {
      hide Outlived, Inv, PoolProgress, TableProgress, SlotTable.Valid, Holding, TimedOut, Expiring, Later, Timely,
          AllEnded, CmdsProgress;
      dropped := {};
      ghost var m := St();
      LaterSame(m, m);
      CmdsProgressRefl(cmds);
      ghost var j := 0;
      ExpiringNow(s, St(), pending, j, dropped);
      while timerConns != [] && timerConns[0].timeout <= now.sec
        invariant Valid() && Rest(St()) && now == s.now && j <= |s.timerConns| && Expiring(s, St(), pending, j, dropped)
        invariant AllEnded(s, St(), dropped) && CmdsProgress(m.cmds, cmds, {}) && Later(m, St())
        invariant Later(s, St()) && (Timely(s, polite) ==> Unhurried(s, St()))
        decreases |s.timerConns| - j
      {
        ghost var u := St();
        ExpiringMore(s, u, pending, j, dropped);
        ghost var drop := ExpireFirst(s, pending, j, dropped);
        LaterTrans(s, u, St());
        LaterTrans(m, u, St());
        CmdsProgressTrans(m.cmds, u.cmds, cmds);
        dropped, j := dropped + drop, j + 1;
        ExpiringNow(s, St(), pending, j, dropped);
      }
      ExpiringNow(s, St(), pending, j, dropped);
      ExpiringTable(s, St(), pending, j, dropped);
      forall i | Passed(s.timerConns, i, s.now.sec) ensures Outlived(pool, s.timerConns[i]) {
        ExpiringEnds(s, St(), pending, j, dropped, i);
      }
    }

    // ---- Runs.

    /** The environment moves: hiredis changes what is read of a context, other endpoints can be reached,
        callbacks are ready to submit more commands. */
    method Environment()
      requires Valid() && Rest(St())
      modifies this`pool, this`reachable, this`budget, this`fuel
      ensures Valid() && Rest(St()) && Later(old(St()), St()) && halted == old(halted)
    {
      hide Inv, SlotTable.Valid, Holding, Later;
      ghost var s := St();
      reachable, budget, fuel := *, *, *;
      AllowancesFree(s, St());
      LaterSame(s, St());
      var n: string, ctx: Context := *, *;
      if n in pool {
        ghost var t := St();
        ChangeContext(n, ctx);
        LaterTrans(s, t, St());
      }
    }

    method ChangeContext(n: string, ctx: Context)
      requires Valid() && Rest(St()) && n in pool
      modifies this`pool
      ensures Valid() && Rest(St()) && Later(old(St()), St())
    {
      hide Inv, SlotTable.Valid, Holding, Later;
      ghost var s := St();
      ContextKeeps(s, n, ctx);
      pool := pool[n := pool[n].(context := Some(ctx))];
      LaterSame(s, St());
    }

    /** Anything that can happen to the client happens once. */
    method Event()
      requires Valid() && Rest(St())
      modifies this, table, table.hosts
      ensures Valid() && Rest(St()) && Later(old(St()), St())
    {
      hide Inv, Holding, SlotTable.Valid, Later, Onward, OnlyRemoved, CompletedInOrder, Progress,
          PoolProgress, Replay;
      ghost var s := St();
      var event: nat, n: string, cmd: CmdId, ok: bool, t: Time := *, *, *, *, *;
      var key: Option<seq<Crc16.Byte>>, r: Option<Reply>, rctx: Option<Peer> := *, *, *;
      if event == 0 {
        var c, kept := ExecKey(key, ok);
        OnwardFacts(s, St(), polite);
      } else if event == 1 {
        Start();
        OnwardFacts(s, St(), polite);
      } else if event == 2 && n in pool && cmd in cmds && cmd in pool[n].replyList && pool[n].InCallback() {
        OnReply(n, cmd, r, rctx, ok);
      } else if event == 3 && n in pool && pool[n].context.Some? && cmd in cmds && cmds[cmd].home == Asking(n) {
        OnReplyAsking(n, cmd, r, rctx);
      } else if event == 4 && n in pool && pool[n].InCallback() {
        OnConnected(n, ok);
        OnwardFacts(s, St(), polite);
      } else if event == 5 && n in pool {
        OnDisconnected(n, ok);
      } else if event == 6 && AtMost(now, t) && TimerAvailable() && interval.sec >= 0 && interval.usec >= 0
                && forall m <- pool :: !pool[m].InCallback() {
        var ret, fired, dropped := Proc(t);
      } else if event == 7 {
        Reset();
      } else {
        Environment();
      }
    }

    /** However long the client runs and whatever happens to it, it is safe: no command is forgotten or
        answered twice, and every command has exactly one holder or is done. */
    method Run(events: nat)
      requires Valid() && Rest(St())
      modifies this, table, table.hosts
      ensures Valid() && Rest(St()) && Later(old(St()), St()) && Safe(St())
    {
      hide Inv, Holding, SlotTable.Valid, Later, Safe;
      ghost var s := St();
      LaterSame(s, s);
      for i := 0 to events
        invariant Valid() && Rest(St()) && Later(s, St())
      {
        if halted {
          break;
        }
        ghost var t := St();
        Event();
        LaterTrans(s, t, St());
      }
      AlwaysSafe(St());
    }
  }
}
