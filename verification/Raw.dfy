/** The client of a single server. */
module Raws {
  import opened Types
  import opened Connections
  import opened Timers
  import opened Ledger
  import opened Endings
  import L = Ledger
  import opened Sweeps
  import opened Accounts
  import opened Replies
  import EndpointNames

  /** What becomes of a command that is executed: it is submitted to the server if there is a connection or can
      be, else it fails. */
  predicate Served(n: string, v: CmdState, w: CmdState, there: bool) {
    if v.ttl == 0 then Answered(v, w, Code.TTL)
    else if there then v.submits + [n] <= w.submits
    else Answered(v, w, CONNECTION)
  }

  lemma ServedKept(n: string, v: CmdState, w: CmdState, x: CmdState, there: bool)
    requires Served(n, v, w, there) && (x == w || Lost(w, x))
    ensures Served(n, v, x, there)
  {
  }

  /** Where the command was does not matter. */
  lemma ServedFrom(n: string, v: CmdState, v': CmdState, w: CmdState, there: bool)
    requires v == v'.(home := v.home) && Served(n, v', w, there)
    ensures Served(n, v, w, there)
  {
  }

  /** There is a connection that takes commands. */
  predicate Up(s: State) {
    s.env.init in s.pool && !s.pool[s.env.init].Refusing()
  }

  /** What has become of the delayed command at position i: it was executed. */
  ghost predicate RawFate(s: State, t: State, i: nat)
    requires i < |s.timerPending|
  {
    var c, n := s.timerPending[i].cmd, s.env.init;
    && c in s.cmds && c in t.cmds
    && (Served(n, s.cmds[c], t.cmds[c], true) || Served(n, s.cmds[c], t.cmds[c], false))
    && (Up(s) || n in s.env.reachable ==> Served(n, s.cmds[c], t.cmds[c], true))
    && (n !in s.pool && n !in s.env.reachable ==> Served(n, s.cmds[c], t.cmds[c], false))
  }

  ghost predicate RawFired(s: State, t: State, k: nat) {
    forall i :: 0 <= i < k && i < |s.timerPending| ==> RawFate(s, t, i)
  }

  /** In the course of firing, apart from the lists. */
  ghost predicate RawBurning(s: State, t: State, k: nat) {
    && QueuedKept(s.cmds, t.cmds) && StillDelayed(s, t, k) && RawFired(s, t, k) && t.env == s.env
    && (Up(s) ==> Up(t)) && (s.env.init !in s.pool && s.env.init !in s.env.reachable ==> s.env.init !in t.pool)
  }

  lemma RawBurningBegins(s: State)
    requires Inv(s)
    ensures RawBurning(s, s, 0)
  {
    hide InvParked, InvQueued, InvHands, InvOk, InvPool, InvTold, InvTimer;
  }

  lemma RawFateKept(s: State, t: State, u: State, i: nat)
    requires i < |s.timerPending| && RawFate(s, t, i)
    requires var c := s.timerPending[i].cmd; c in u.cmds && (u.cmds[c] == t.cmds[c] || Lost(t.cmds[c], u.cmds[c]))
    ensures RawFate(s, u, i)
  {
    hide Served;
    var c, n := s.timerPending[i].cmd, s.env.init;
    if Served(n, s.cmds[c], t.cmds[c], true) {
      ServedKept(n, s.cmds[c], t.cmds[c], u.cmds[c], true);
    }
    if Served(n, s.cmds[c], t.cmds[c], false) {
      ServedKept(n, s.cmds[c], t.cmds[c], u.cmds[c], false);
    }
  }

  lemma RawFiredKept(s: State, t: State, u: State, k: nat)
    requires RawFired(s, t, k) && CmdsProgress(t.cmds, u.cmds, {})
    ensures RawFired(s, u, k)
  {
    hide Served;
    forall i | 0 <= i < k && i < |s.timerPending| ensures RawFate(s, u, i) {
      assert RawFate(s, t, i);
      RawFateKept(s, t, u, i);
    }
  }

  /** The next delayed command is executed. */
  lemma RawBurningNext(s: State, t: State, u: State, k: nat)
    requires Inv(s) && RawBurning(s, t, k) && k < |s.timerPending| && t.timerPending != []
    requires t.timerPending[0].cmd == s.timerPending[k].cmd && t.timerPending[0].cmd in t.cmds
    requires Progress(Undelay(t), u, {t.timerPending[0].cmd}, {})
    requires var c, n := t.timerPending[0].cmd, s.env.init;
      c in u.cmds && Served(n, t.cmds[c], u.cmds[c], n in t.pool || n in t.env.reachable)
    ensures RawBurning(s, u, k + 1)
  {
    hide Inv, Progress, Served, QueuedKept, StillDelayed;
    DelayedKeep(s, t, u, k);
    StaysUp(Undelay(t), u, t.timerPending[0].cmd);
    StillDelayedAt(s, t, k);
    forall i | 0 <= i < k + 1 ensures RawFate(s, u, i) {
      if i < k {
        assert RawFate(s, t, i);
        RawFateKept(s, t, u, i);
      }
    }
  }

  lemma StillDelayedAt(s: State, t: State, k: nat)
    requires StillDelayed(s, t, k) && k < |s.timerPending|
    ensures var c := s.timerPending[k].cmd; c in s.cmds && c in t.cmds && t.cmds[c] == s.cmds[c]
  {
  }

  lemma StaysUp(s: State, t: State, c: CmdId)
    requires Progress(s, t, {c}, {})
    ensures t.env == s.env && (Up(s) ==> Up(t))
    ensures s.env.init !in s.pool && s.env.init !in s.env.reachable ==> s.env.init !in t.pool
  {
    hide ListsProgress, TableProgress, CmdsProgress, CmdsAged;
  }

  class Raw {
    const init: Key
    const interval: Time
    const connTimeout: int
    const auth: bool

    var conn: Option<ConnState>
    var now: Time
    var timerPending: seq<Delay>
    var seqAlloc: nat

    // The connect timeout: the sequence it concerns and when it passes, 0 for none.
    var timeoutSequence: nat
    var timeoutAt: int

    // Every command ever created, and how many were completed.
    var cmds: Cmds
    var nextCmd: nat
    var completions: nat
    ghost var notices: seq<Notice>
    ghost var inHand: set<CmdId>
    ghost var dying: set<CmdId>

    // The environment: whether a connection can be opened, and how many commands the callbacks will
    // still submit.
    var reachable: bool
    var budget: nat

    ghost function Connected(): Pool
      reads this
    {
      if conn.Some? then map[init.name := conn.value] else map[]
    }

    /** The state as one value: that of a cluster client with one endpoint and no slots. */
    ghost function St(): State
      reads this
    {
      State(VALID, [], Connected(), now, timerPending, [], seqAlloc, [], budget, 0, false,
            Env(interval, if reachable then {init.name} else {}, init.name, false),
            cmds, nextCmd, inHand, dying, {}, completions, notices)
    }

    /** The connect timeout matches the connection only while that is in the connecting phase the timeout
        was set for, or is being released out of it. */
    ghost predicate TimeoutOk()
      reads this
    {
      && timeoutSequence <= seqAlloc
      && (timeoutSequence != 0 ==> timeoutSequence < seqAlloc)
      && (conn.Some? && conn.value.sequence == timeoutSequence ==>
            conn.value.status == CONNECTING || (conn.value.status == DISCONNECTED && conn.value.context.Some?))
    }

    ghost predicate Valid()
      reads this
    {
      Inv(St()) && TimeoutOk() && (conn.Some? ==> conn.value.key == init) && EndpointNames.Named(init)
    }

    predicate TimerAvailable() {
      interval.sec > 0 || interval.usec > 0
    }

    predicate TimerActive()
      reads this
    {
      (now.sec != 0 || now.usec != 0) && TimerAvailable()
    }

    /** A connection that took commands is still there, with the connect timeout as it was. */
    ghost predicate Steady(was: Option<ConnState>, sequence: nat, at: int)
      reads this
    {
      was.Some? && !was.value.Refusing() ==>
        conn.Some? && !conn.value.Refusing() && timeoutSequence == sequence && timeoutAt == at
    }

    predicate Closing()
      reads this
    {
      conn.Some? && conn.value.Refusing()
    }

    constructor (ip: string, port: nat, interval: Time, connTimeout: int, auth: bool, budget: nat)
      ensures init == Key(EndpointNames.NameOf(ip, port), ip, port) && Valid() && Rest(St())
    {
      init := EndpointNames.SetKey(ip, port);
      this.interval, this.connTimeout, this.auth, this.budget := interval, connTimeout, auth, budget;
      conn, now, timerPending, seqAlloc, reachable := None, Time(0, 0), [], 0, false;
      timeoutSequence, timeoutAt := 0, 0;
      cmds, nextCmd, inHand, dying, completions, notices := map[], 0, {}, {}, 0, [];
    }

    // ---- Completing a command.

    method NewCommand(kind: Kind, given: bool) returns (c: CmdId)
      requires Valid()
      modifies this`cmds, this`nextCmd, this`inHand
      ensures Valid() && c == old(nextCmd) && St() == L.Create(old(St()), NewCmd(kind, given))
    {
      hide Inv;
      CreateKeeps(St(), NewCmd(kind, given));
      c := nextCmd;
      cmds, nextCmd := cmds[c := NewCmd(kind, given)], nextCmd + 1;
      inHand := inHand + {c};
    }

    /** The user is told something, and may submit any number of commands before returning. */
    method UserCallback(x: Notice)
      requires Valid() && Tellable(St(), x)
      modifies this
      ensures Valid() && Progress(old(St()), St(), {}, {}) && budget <= old(budget)
      ensures old(notices) + [x] <= notices
      ensures budget == old(budget) ==> St() == old(St()).(notices := old(notices) + [x])
      ensures Steady(old(conn), old(timeoutSequence), old(timeoutAt))
      decreases budget, 0, 1
    {
      hide Inv, Progress;
      ghost var s := St();
      NoticeKeeps(s, x);
      notices := notices + [x];
      ghost var t := St();
      Submissions();
      ProgressThen(s, t, St(), {}, {});
      NoticesGrow(t, St(), {}, {});
    }

    /** What a callback submits. */
    method Submissions()
      requires Valid()
      modifies this
      ensures Valid() && Progress(old(St()), St(), {}, {}) && budget <= old(budget)
      ensures budget == old(budget) ==> St() == old(St())
      ensures Steady(old(conn), old(timeoutSequence), old(timeoutAt))
      decreases budget, 0, 0
    {
      hide Inv, Progress;
      ghost var s := St();
      ProgressRefl(s);
      var submits: bool, given: bool := *, *;
      if !submits || budget == 0 {
        return;
      }
      budget := budget - 1;
      ghost var t := St();
      AllowanceKeeps(s, t);
      var c := NewCommand(User, given);
      ghost var u := St();
      var kept := Exec(c);
      CreateProgress(t, u.cmds[c], St());
      ProgressThen(s, t, St(), {}, {});
      ghost var v := St();
      AllowancesShrink(u, v, {c}, {});
      Submissions();
      ProgressThen(s, v, St(), {}, {});
    }

    /** Takes the callback of a command in hand out, so that it cannot be called again; `fire` tells
        whether there was one to call. */
    method CallCmd(cmd: CmdId, code: Code) returns (fire: bool)
      requires Valid() && cmd in inHand
      modifies this`cmds, this`completions, this`inHand, this`dying
      ensures cmd in old(cmds) && fire == old(cmds[cmd]).callback
      ensures Valid() && St() == L.Complete(old(St()), cmd, code)
    {
      hide Inv;
      CompleteKeeps(St(), cmd, code);
      fire := cmds[cmd].callback;
      cmds := cmds[cmd := cmds[cmd].Completed(code, completions)];
      completions := completions + 1;
      inHand, dying := inHand - {cmd}, dying + {cmd};
    }

    method DestroyCmd(cmd: CmdId)
      requires Valid() && cmd in dying && ToldOf(St(), cmd)
      modifies this`cmds, this`dying
      ensures cmd in old(cmds) && Valid() && St() == L.Destroy(old(St()), cmd)
    {
      hide Inv;
      DestroyKeeps(St(), cmd);
      cmds := cmds[cmd := cmds[cmd].(destroyed := true)];
      dying := dying - {cmd};
    }

    /** Calls a command back with a code and destroys it. Only a user's callback does more. */
    method Finish(cmd: CmdId, code: Code)
      requires Valid() && cmd in inHand
      modifies this
      ensures Valid() && Progress(old(St()), St(), {cmd}, {})
      ensures cmd in old(cmds) && cmd in cmds && old(completions) < completions
      ensures cmds[cmd] == old(cmds[cmd]).Completed(code, old(completions)).(destroyed := true)
      ensures old(cmds[cmd]).callback && old(cmds[cmd]).kind == User ==> old(notices) + [Told(cmd, code)] <= notices
      ensures !(old(cmds[cmd]).callback && old(cmds[cmd]).kind == User) ==> notices == old(notices)
      ensures budget <= old(budget) && (budget == old(budget) ==> timerPending == old(timerPending))
      ensures Steady(old(conn), old(timeoutSequence), old(timeoutAt))
      decreases budget, 0, 2
    {
      hide Inv, Progress, Tellable, ToldOf;
      ghost var s := St();
      CompleteTells(s, cmd, code) by {
        Held(s, cmd);
      }
      var fire := CallCmd(cmd, code);
      ProgressRefl(St());
      if fire && cmds[cmd].kind == User {
        UserCallback(Told(cmd, code));
      }
      FinishProgress(s, cmd, code, St());
      FinishTells(s, cmd, code, St());
      DestroyCmd(cmd);
    }

    // ---- Releasing the connection.

    method TakeFirst()
      requires Valid() && conn.Some? && conn.value.replyList != []
      modifies this`conn, this`cmds, this`inHand
      ensures conn.Some? && old(conn.value).replyList[0] in old(cmds) && Valid()
      ensures St() == Dequeue(old(St()), init.name)
      ensures old(cmds[conn.value.replyList[0]]).home == Queued(init.name)
    {
      hide Inv;
      DequeueKeeps(St(), init.name);
      var c := conn.value.replyList[0];
      conn := Some(conn.value.(replyList := conn.value.replyList[1..]));
      cmds := cmds[c := cmds[c].(home := InHand)];
      inHand := inHand + {c};
      assert Connected() == old(Connected())[init.name := conn.value];
    }

    /** Takes the oldest command off the reply list and completes it. */
    method DropFirst(code: Code)
      requires Valid() && conn.Some? && conn.value.replyList != [] && !MayGo(conn.value)
      modifies this
      ensures Valid() && Dropped(old(St()), St(), init.name, code) && conn.Some?
      ensures budget <= old(budget)
      decreases budget, 0, 3
    {
      hide Inv, Progress, Dropped;
      ghost var s := St();
      var c := conn.value.replyList[0];
      TakeFirst();
      Finish(c, code);
      DequeueProgress(s, init.name, code, St());
      DroppedPooled(s, St(), init.name, code);
    }

    lemma DroppedPooled(s: State, t: State, n: string, code: Code)
      requires Dropped(s, t, n, code)
      ensures n in t.pool
    {
    }

    /** Ends the connection: its status is changed first, so that it takes no command that a callback
        submits meanwhile; then every queued command is completed, oldest first. */
    method SetDisconnected(closeFd: bool) returns (was: Status)
      requires Valid() && conn.Some?
      modifies this
      ensures Valid() && conn.Some? && was == old(conn.value).status
      ensures was == DISCONNECTED ==> St() == old(St())
      ensures was != DISCONNECTED ==>
        && conn.value.status == DISCONNECTED && conn.value.context.None? && conn.value.replyList == []
        && Elsewhere(old(St()), St(), init.name, set c <- old(conn.value).replyList)
        && CompletedInOrder(old(St()), St(), old(conn.value).replyList, CONNECTION)
      ensures budget <= old(budget)
      decreases budget, 0, 5
    {
      hide Inv, Elsewhere, CompletedInOrder, CmdsAged;
      was := conn.value.status;
      if was == DISCONNECTED {
        return;
      }
      ghost var s, n := St(), init.name;
      ghost var list := conn.value.replyList;
      OpenContext(s, n);
      BeginReleaseKeeps(s, n, closeFd);
      conn := Some(Disconnecting(conn.value, closeFd));
      assert Connected() == s.pool[n := conn.value];
      DrainList(s, list);
      ghost var t := St();
      var sequence, next := MakeSequence(seqAlloc);
      EndReleaseKeeps(t, n, sequence, next);
      conn, seqAlloc := Some(conn.value.(context := None, sequence := sequence)), next;
      assert Connected() == t.pool[n := conn.value];
      AgedRefl(t.cmds);
      CompletedKept(s, t, St(), list, CONNECTION);
      ElsewhereTrans(s, t, St(), n, set c <- list, {});
    }

    method DrainList(ghost s: State, ghost list: seq<CmdId>)
      requires Valid() && conn.Some? && conn.value.status == DISCONNECTED && conn.value.replyList == list
      requires init.name in s.pool && s.pool[init.name].replyList == list && Inv(s)
      requires Elsewhere(s, St(), init.name, {}) && cmds == s.cmds && completions == s.completions
      modifies this
      ensures Valid() && conn == Some(old(conn.value).(replyList := []))
      ensures Elsewhere(s, St(), init.name, set c <- list) && CompletedInOrder(s, St(), list, CONNECTION)
      ensures budget <= old(budget)
      decreases budget, 0, 4
    {
      hide Inv, Emptying, Elsewhere;
      ghost var k, n := 0, init.name;
      EmptyingBegins(s, St(), n, |list|, CONNECTION);
      while conn.value.replyList != []
        invariant Valid() && conn.Some? && k <= |list|
        invariant conn.value == old(conn.value).(replyList := list[k..])
        invariant Emptying(s, St(), n, list, |list|, k, CONNECTION)
        invariant budget <= old(budget)
        decreases |conn.value.replyList|
      {
        ghost var t := St();
        DropFirst(CONNECTION);
        EmptyingNext(s, t, St(), n, list, |list|, k, CONNECTION);
        k := k + 1;
      }
      EmptyingEnds(s, St(), n, list, CONNECTION);
    }

    /** Ends the connection and forgets it; one that is being released already is left to that. */
    method ReleaseConnection(closeFd: bool) returns (found: bool)
      requires Valid()
      modifies this
      ensures Valid() && found == old(conn).Some?
      ensures old(conn).None? || old(conn.value).status == DISCONNECTED ==> St() == old(St())
      ensures old(conn).Some? && old(conn.value).status != DISCONNECTED ==>
        && conn.None? && Progress(old(St()), St(), {}, {init.name})
        && CompletedInOrder(old(St()), St(), old(conn.value).replyList, CONNECTION)
        && timeoutSequence == 0 && timeoutAt == 0
      ensures old(conn).Some? && old(conn.value).status != DISCONNECTED ==> Noticed(old(St()), St(),
        if old(conn.value).status == CONNECTING then ConnectEnded(init.name, false) else ConnectionLost(init.name))
      ensures budget <= old(budget)
      decreases budget, 0, 6
    {
      hide Inv, Progress, Elsewhere, CompletedInOrder;
      found := conn.Some?;
      if !found {
        return;
      }
      ghost var s, list := St(), conn.value.replyList;
      QueueFacts(s, init.name);
      var was := SetDisconnected(closeFd);
      if was == DISCONNECTED {
        return;
      }
      ghost var t := St();
      var x := if was == CONNECTING then ConnectEnded(init.name, false) else ConnectionLost(init.name);
      UserCallback(x);
      ElsewhereNotices(s, t, init.name, set c <- list);
      NoticedNext(s, t, St(), x);
      ReleaseProgress(s, t, St(), init.name, list);
      assert map[] == Connected() - {init.name};
      conn, timeoutSequence, timeoutAt := None, 0, 0;
    }

    // ---- Submitting and retrying. No call can recurse for ever: every further attempt costs ttl, and a
    // connection that was just opened does not refuse commands.

    /** The command once a further attempt has cost it ttl. */
    function Spent(cmd: CmdId): CmdState
      requires cmd in cmds && cmds[cmd].ttl > 0
      reads this
    {
      cmds[cmd].(ttl := cmds[cmd].ttl - 1, attempts := cmds[cmd].attempts + 1)
    }

    /** Submits a command to the connection, if there is one. */
    method ExecOn(there: bool, cmd: CmdId) returns (kept: bool)
      requires Valid() && cmd in inHand && cmd in cmds && (there ==> conn.Some?)
      modifies this
      ensures Valid() && Progress(old(St()), St(), {cmd}, {}) && cmd in cmds
      ensures old(cmds[cmd]).ttl == 0 ==> Answered(old(cmds[cmd]), cmds[cmd], Code.TTL)
      ensures old(cmds[cmd]).ttl > 0 && there ==> old(cmds[cmd]).submits + [init.name] <= cmds[cmd].submits
      ensures old(cmds[cmd]).ttl > 0 && !there ==> Answered(old(Spent(cmd)), cmds[cmd], CONNECTION)
      ensures kept <==> cmds[cmd].home != Done
      ensures Steady(old(conn), old(timeoutSequence), old(timeoutAt))
      decreases budget, 1, if Closing() then cmds[cmd].ttl + 1 else 0, 2
    {
      hide Inv, Progress;
      ghost var s := St();
      Held(s, cmd);
      if cmds[cmd].ttl == 0 {
        Finish(cmd, Code.TTL);
        return false;
      }
      ghost var w := cmds[cmd].(ttl := cmds[cmd].ttl - 1, attempts := cmds[cmd].attempts + 1);
      ReworkKeeps(s, cmd, w);
      cmds := cmds[cmd := cmds[cmd].(ttl := cmds[cmd].ttl - 1, attempts := cmds[cmd].attempts + 1)];
      if there {
        kept := Attempt(cmd);
      } else {
        Finish(cmd, CONNECTION);
        kept := false;
      }
      ReworkProgress(s, cmd, w, St(), {});
    }

    /** Hands a command to hiredis, which may refuse it for reasons of its own. */
    method RedisCmd(cmd: CmdId) returns (res: Code)
      requires Valid() && cmd in inHand && conn.Some?
      requires cmd in cmds && |cmds[cmd].submits| < cmds[cmd].attempts
      modifies this`cmds, this`conn, this`inHand
      ensures Valid() && conn.Some? && St() == L.Submit(old(St()), cmd, init.name, res == OK)
      ensures res == old(conn.value).Accepts(res == OK) && (res != OK ==> conn == old(conn))
      ensures conn.value == old(conn.value).(replyList := conn.value.replyList)
    {
      hide Inv, Progress;
      ghost var s := St();
      Held(s, cmd);
      var accepts: bool := *;
      res := if conn.value.context.None? then CREATE
        else if conn.value.status == DISCONNECTED then CONNECTION
        else if conn.value.context.value.disconnecting || conn.value.context.value.freeing || !accepts then HIREDIS
        else OK;
      if res == OK {
        SubmitKeeps(s, cmd, init.name);
        cmds := cmds[cmd := cmds[cmd].(submits := cmds[cmd].submits + [init.name], home := Queued(init.name))];
        conn := Some(conn.value.(replyList := conn.value.replyList + [cmd]));
        inHand := inHand - {cmd};
        assert Connected() == s.pool[init.name := conn.value];
      } else {
        cmds := cmds[cmd := cmds[cmd].(submits := cmds[cmd].submits + [init.name])];
        ReworkKeeps(s, cmd, cmds[cmd]);
      }
    }

    /** Hands a command to the connection, and deals with a refusal. */
    method Attempt(cmd: CmdId) returns (kept: bool)
      requires Valid() && cmd in inHand && conn.Some?
      requires cmd in cmds && |cmds[cmd].submits| < cmds[cmd].attempts
      modifies this
      ensures Valid() && Progress(old(St()), St(), {cmd}, {}) && cmd in cmds
      ensures old(cmds[cmd]).submits + [init.name] <= cmds[cmd].submits
      ensures kept <==> cmds[cmd].home != Done
      ensures Steady(old(conn), old(timeoutSequence), old(timeoutAt))
      decreases budget, 1, if Closing() then cmds[cmd].ttl + 2 else 0, 1
    {
      hide Inv, Progress;
      ghost var s := St();
      Held(s, cmd);
      var res := RedisCmd(cmd);
      ghost var t := St();
      if res == OK {
        SubmitKeeps(s, cmd, init.name);
        return true;
      }
      kept := Refused(cmd);
      ReworkProgress(s, cmd, t.cmds[cmd], St(), {});
      AgedHeld(t, St(), cmd);
    }

    /** Deals with a command that was refused: it is retried if the connection is closing, else it fails. */
    method Refused(cmd: CmdId) returns (kept: bool)
      requires Valid() && cmd in inHand && conn.Some? && cmd in cmds
      modifies this
      ensures Valid() && Progress(old(St()), St(), {cmd}, {}) && cmd in cmds
      ensures !old(Closing()) ==>
        Answered(old(cmds[cmd]), cmds[cmd], if old(conn.value).context.None? then CONNECTION else HIREDIS)
      ensures old(Closing()) && !Hasty(old(St()), old(cmds[cmd]).ttl) ==>
        cmds[cmd] == old(cmds[cmd]).(home := Delayed)
      ensures old(Closing()) && Hasty(old(St()), old(cmds[cmd]).ttl) && old(cmds[cmd]).ttl > 0 ==>
        old(conn.value).InCallback() || old(reachable) ==> |old(cmds[cmd]).submits| < |cmds[cmd].submits|
      ensures MayGo(old(conn.value)) ==> conn.None? || old(seqAlloc) <= conn.value.sequence
      ensures kept <==> cmds[cmd].home != Done
      ensures Steady(old(conn), old(timeoutSequence), old(timeoutAt))
      decreases budget, 1, if Closing() then cmds[cmd].ttl + 2 else 0, 0
    {
      hide Inv, Progress;
      ghost var s := St();
      Held(s, cmd);
      if !conn.value.Refusing() {
        Finish(cmd, if conn.value.context.None? then CONNECTION else HIREDIS);
        return false;
      }
      ProgressRefl(s);
      assert reachable <==> init.name in s.env.reachable;
      if !conn.value.InCallback() {
        var found := ReleaseConnection(false);
        if s.pool[init.name].status != DISCONNECTED {
          MayGoProgress(s, St(), init.name);
        }
      }
      ghost var t := St();
      HandKept(s, t, cmd, {});
      AllowancesShrink(s, t, {}, {});
      ProgressLater(s, t, {}, {});
      ReachableKept(s, t, {}, {});
      kept := Retry(cmd, false);
      FreshSequence(t, St(), {cmd}, init.name);
      ProgressThen(s, t, St(), {cmd}, {});
    }

    /** Retries a command: at once while the timer is not running or more than half of the ttl is left,
        else after a delay. */
    method Retry(cmd: CmdId, there: bool) returns (kept: bool)
      requires Valid() && cmd in inHand && cmd in cmds && (there ==> conn.Some?)
      modifies this
      ensures Valid() && Progress(old(St()), St(), {cmd}, {}) && cmd in cmds
      ensures !Hasty(old(St()), old(cmds[cmd]).ttl) ==> kept && St() == L.Defer(old(St()), cmd)
      ensures Hasty(old(St()), old(cmds[cmd]).ttl) ==>
        Served(init.name, old(cmds[cmd]), cmds[cmd], old(conn).Some? || old(reachable))
      ensures Steady(old(conn), old(timeoutSequence), old(timeoutAt))
      ensures kept <==> cmds[cmd].home != Done
      decreases budget, 1, cmds[cmd].ttl + 1, 5
    {
      hide Inv, Progress;
      if !TimerActive() || cmds[cmd].ttl > TTL_MAX / 2 {
        if there {
          kept := ExecOn(true, cmd);
        } else {
          kept := Exec(cmd);
        }
        return;
      }
      // An active timer is available, so the command is never refused here.
      assert TimerAvailable();
      kept := AddTimerCmd(cmd);
    }

    /** Delays a command until the timer fires; without a running timer it is executed at once. */
    method AddTimerCmd(cmd: CmdId) returns (kept: bool)
      requires Valid() && cmd in inHand && cmd in cmds
      modifies this
      ensures Valid() && Progress(old(St()), St(), {cmd}, {}) && cmd in cmds
      ensures old(TimerActive()) ==> kept && St() == L.Defer(old(St()), cmd)
      ensures !TimerAvailable() ==> Answered(old(cmds[cmd]), cmds[cmd], TIMER_NOT_AVAILABLE)
      ensures TimerAvailable() && !old(TimerActive()) ==>
        Served(init.name, old(cmds[cmd]), cmds[cmd], old(conn).Some? || old(reachable))
      ensures Steady(old(conn), old(timeoutSequence), old(timeoutAt))
      ensures kept <==> cmds[cmd].home != Done
      decreases budget, 1, cmds[cmd].ttl + 1, 4
    {
      hide Inv, Progress;
      ghost var s := St();
      Held(s, cmd);
      if !TimerAvailable() {
        Finish(cmd, TIMER_NOT_AVAILABLE);
        return false;
      }
      if TimerActive() {
        DeferKeeps(s, cmd);
        timerPending := timerPending + [Delay(Deadline(now, interval), cmd)];
        cmds := cmds[cmd := cmds[cmd].(home := Delayed)];
        inHand := inHand - {cmd};
        return true;
      }
      kept := Exec(cmd);
    }

    /** Executes a command, on a new connection if there is none. */
    method Exec(cmd: CmdId) returns (kept: bool)
      requires Valid() && cmd in inHand && cmd in cmds
      modifies this
      ensures Valid() && Progress(old(St()), St(), {cmd}, {}) && cmd in cmds
      ensures Served(init.name, old(cmds[cmd]), cmds[cmd], old(conn).Some? || old(reachable))
      ensures Steady(old(conn), old(timeoutSequence), old(timeoutAt))
      ensures kept <==> cmds[cmd].home != Done
      decreases budget, 1, cmds[cmd].ttl + 1, 3
    {
      hide Inv, Progress;
      ghost var s := St();
      Held(s, cmd);
      if cmds[cmd].ttl == 0 {
        Finish(cmd, Code.TTL);
        return false;
      }
      ProgressRefl(s);
      if conn.None? {
        var made := MakeConnection();
      }
      ghost var t := St();
      HandKept(s, t, cmd, {});
      AllowancesShrink(s, t, {}, {});
      if conn.Some? {
        kept := ExecOn(true, cmd);
      } else {
        Finish(cmd, CONNECTION);
        kept := false;
      }
      ProgressThen(s, t, St(), {cmd}, {});
    }

    /** Opens a connection, with a connect timeout while the timer runs, unless there is one. */
    method MakeConnection() returns (made: bool)
      requires Valid()
      modifies this
      ensures Valid() && Progress(old(St()), St(), {}, {})
      ensures made == (old(conn).None? && old(reachable)) && conn.Some? == (made || old(conn).Some?)
      ensures !made ==> St() == old(St())
      ensures made ==> Noticed(old(St()), St(), ConnectBegan(init.name))
      ensures made && auth ==>
        old(nextCmd) in cmds && cmds[old(nextCmd)].kind == Auth && [init.name] <= cmds[old(nextCmd)].submits
      ensures made && !auth && budget == old(budget) ==> nextCmd == old(nextCmd)
      ensures Steady(old(conn), old(timeoutSequence), old(timeoutAt))
      decreases budget, 1, 0, 4
    {
      hide Inv, Progress;
      ghost var s := St();
      ProgressRefl(s);
      if conn.Some? || !reachable {
        return false;
      }
      OpenConnection();
      ghost var t := St();
      Authenticate();
      ghost var v := St();
      StaysPooled(t, v, init.name);
      ProgressThen(s, t, v, {}, {});
      AllowancesShrink(s, v, {}, {});
      UserCallback(ConnectBegan(init.name));
      NoticesGrow(s, v, {}, {});
      NoticedNext(s, v, St(), ConnectBegan(init.name));
      AdvancesOn(v, St(), s.nextCmd);
      StaysPooled(v, St(), init.name);
      ProgressThen(s, v, St(), {}, {});
      made := true;
    }

    method Authenticate()
      requires Valid() && conn.Some? && !Closing()
      modifies this
      ensures Valid() && Progress(old(St()), St(), {}, {})
      ensures auth ==>
        old(nextCmd) in cmds && cmds[old(nextCmd)].kind == Auth && [init.name] <= cmds[old(nextCmd)].submits
      ensures !auth ==> St() == old(St())
      ensures Steady(old(conn), old(timeoutSequence), old(timeoutAt))
      decreases budget, 1, 0, 3
    {
      hide Inv, Progress;
      ghost var s := St();
      ProgressRefl(s);
      if auth {
        var c := NewCommand(Auth, true);
        ghost var t := St();
        var kept := ExecOn(true, c);
        AgedHeld(t, St(), c);
        CreateProgress(s, t.cmds[c], St());
      }
    }

    method OpenConnection()
      requires Valid() && conn.None? && reachable
      modifies this`conn, this`seqAlloc, this`timeoutSequence, this`timeoutAt
      ensures Valid() && Progress(old(St()), St(), {}, {})
      ensures conn.Some? && conn.value.status == CONNECTING && !conn.value.Refusing() && conn.value.replyList == []
      ensures nextCmd == old(nextCmd)
      ensures if connTimeout > 0 && TimerActive()
        then timeoutSequence == conn.value.sequence && timeoutAt == now.sec + connTimeout
        else timeoutSequence == old(timeoutSequence) && timeoutAt == old(timeoutAt)
    {
      hide EndpointNames.Named, Inv, Progress;
      ghost var s := St();
      var drawn, sequence, next;
      drawn, next := MakeSequence(seqAlloc);
      sequence, next := MakeSequence(next);
      var id: nat := *;
      var v := ConnState(init, CONNECTING, Some(Context(id, false, false, false, NoError)), sequence, []);
      OpenKeeps(s, init.name, v, next, false, 0);
      conn, seqAlloc := Some(v), next;
      assert Connected() == s.pool[init.name := v];
      if connTimeout > 0 && TimerActive() {
        timeoutSequence, timeoutAt := sequence, now.sec + connTimeout;
      }
    }

    // ---- Entries.

    /** The user executes a command. */
    method ExecUser(given: bool) returns (c: CmdId, kept: bool)
      requires Valid() && Rest(St())
      modifies this
      ensures Valid() && Rest(St()) && Later(old(St()), St())
      ensures Progress(old(St()), St(), {}, {})
      ensures c !in old(cmds) && c in cmds && (kept <==> cmds[c].home != Done)
      ensures Served(init.name, NewCmd(User, given), cmds[c], old(conn).Some? || old(reachable))
    {
      hide Inv, Progress, Holding, Later, Onward;
      ghost var s := St();
      c := NewCommand(User, given);
      ghost var t := St();
      kept := Exec(c);
      CreateProgress(s, t.cmds[c], St());
      AlwaysCalm(t, St());
      SubmitProgress(s, t, c, St(), false);
      OnwardFacts(s, St(), false);
    }

    lemma AlwaysCalm(s: State, t: State)
      requires s.fuel == t.fuel && s.halted == t.halted
      ensures CalmStep(s, t, false)
    {
    }

    /** At rest, fails or retries the one command in hand. */
    method Settle(cmd: CmdId, retry: bool, code: Code)
      requires Valid() && Holding(St(), {cmd}, {}) && cmd in inHand && cmd in cmds
      modifies this
      ensures Valid() && Rest(St()) && Later(old(St()), St()) && Progress(old(St()), St(), {cmd}, {}) && cmd in cmds
      ensures !retry ==>
        && old(completions) < completions && budget <= old(budget)
        && cmds[cmd] == old(cmds[cmd]).Completed(code, old(completions)).(destroyed := true)
        && (budget == old(budget) ==> timerPending == old(timerPending))
      ensures !retry && old(cmds[cmd]).callback && old(cmds[cmd]).kind == User ==>
        old(notices) + [Told(cmd, code)] <= notices
      ensures retry ==>
        if Hasty(old(St()), old(cmds[cmd]).ttl)
        then Served(init.name, old(cmds[cmd]), cmds[cmd], old(conn).Some? || old(reachable))
        else cmds[cmd] == old(cmds[cmd]).(home := Delayed)
    {
      hide Inv, Progress, Holding, Later;
      ghost var s := St();
      if retry {
        var kept := Retry(cmd, false);
      } else {
        Finish(cmd, code);
      }
      RestProgress(s, St(), cmd);
      ProgressLater(s, St(), {cmd}, {});
    }

    /** Takes a command off the reply list of the open connection. Those ahead of it were never answered;
        they time out, oldest first. */
    method PopReply(cmd: CmdId) returns (ghost mid: State)
      requires Valid() && Rest(St()) && conn.Some? && cmd in conn.value.replyList && conn.value.InCallback()
      modifies this
      ensures Valid() && Holding(St(), {cmd}, {}) && cmd in inHand && Later(old(St()), St())
      ensures cmd in old(cmds) && cmd in cmds && cmds[cmd] == old(cmds[cmd]).(home := InHand)
      ensures old(cmds[cmd]).home == Queued(init.name) && conn.Some? && old(completions) <= completions
      ensures InFront(old(St()), mid, init.name, cmd) && St() == Dequeue(mid, init.name)
      ensures now == old(now) && reachable == old(reachable) && old(notices) <= notices
      ensures var list := old(conn.value).replyList; var i := IndexOf(list, cmd);
        && CompletedInOrder(old(St()), St(), list[..i], TIMEOUT)
        && Grown(old(conn.value).(replyList := list[i + 1..]), conn.value)
    {
      hide Inv, Elsewhere, CompletedInOrder, Holding, Later, Onward, IndexOf, Grown;
      ghost var s, n, list := St(), init.name, conn.value.replyList;
      ghost var at := IndexOf(list, cmd);
      RestOpen(s, n);
      ExpireAhead(cmd);
      mid := St();
      GrownShape(s.pool[n], mid.pool[n], list[at..]);
      TakeFirst();
      QueuedKnown(mid, n, cmd);
      TakeFacts(s, mid, n, cmd, list[..at]);
      TakeOnward(s, mid, n, (set c <- list[..at]), false);
      OnwardFacts(s, St(), false);
      OnwardEnv(s, St(), false);
      GrownFront(s.pool[n], mid.pool[n], list, at);
      assert conn.value == St().pool[n] == mid.pool[n].(replyList := mid.pool[n].replyList[1..]);
    }

    /** Times out the commands ahead of a queued one, oldest first. */
    method ExpireAhead(cmd: CmdId)
      requires Valid() && conn.Some? && cmd in conn.value.replyList && !MayGo(conn.value)
      modifies this
      ensures Valid() && conn.Some? && now == old(now)
      ensures var list := old(conn.value).replyList; var i := IndexOf(list, cmd);
        && Elsewhere(old(St()), St(), init.name, set c <- list[..i])
        && CompletedInOrder(old(St()), St(), list[..i], TIMEOUT)
        && conn.value.replyList != [] && conn.value.replyList[0] == cmd
        && cmd in old(cmds) && cmd in cmds && cmds[cmd] == old(cmds[cmd])
        && Grown(old(conn.value).(replyList := list[i..]), conn.value)
    {
      hide Inv, Emptying, Elsewhere, CompletedInOrder, IndexOf, Grown;
      ghost var s, n, list := St(), init.name, conn.value.replyList;
      ghost var at, k := IndexOf(list, cmd), 0;
      GrownRefl(conn.value, list);
      ElsewhereRefl(s, n, {});
      EmptyingBegins(s, s, n, at, TIMEOUT);
      while conn.value.replyList[0] != cmd
        invariant Valid() && conn.Some? && k <= at && now == s.now
        invariant Grown(s.pool[n].(replyList := list[k..]), conn.value)
        invariant conn.value.replyList != [] && conn.value.replyList[0] == list[k]
        invariant Emptying(s, St(), n, list, at, k, TIMEOUT)
        decreases at - k
      {
        ExpireFront(s, list, at, k);
        k := k + 1;
      }
      NoDupAt(list, k, at);
      EmptyingFacts(s, St(), n, list, at, at, TIMEOUT);
    }

    /** Times out the oldest queued command, the one at position k of the list at the start. */
    method ExpireFront(ghost s: State, ghost list: seq<CmdId>, ghost at: nat, ghost k: nat)
      requires Valid() && conn.Some? && init.name in s.pool && !MayGo(s.pool[init.name])
      requires k < at < |list| && NoDup(list)
      requires Grown(s.pool[init.name].(replyList := list[k..]), conn.value)
      requires Emptying(s, St(), init.name, list, at, k, TIMEOUT)
      modifies this
      ensures Valid() && conn.Some? && Grown(s.pool[init.name].(replyList := list[k + 1..]), conn.value)
      ensures conn.value.replyList != [] && conn.value.replyList[0] == list[k + 1] && now == old(now)
      ensures Emptying(s, St(), init.name, list, at, k + 1, TIMEOUT)
    {
      hide Inv, Emptying, Elsewhere;
      ghost var t := St();
      DropFirst(TIMEOUT);
      DroppedNow(t, St(), init.name, TIMEOUT);
      EmptyingNext(s, t, St(), init.name, list, at, k, TIMEOUT);
    }

    lemma GrownShape(v: ConnState, w: ConnState, list: seq<CmdId>)
      requires Grown(v.(replyList := list), w)
      ensures w == v.(replyList := w.replyList)
    {
    }

    lemma GrownFront(v: ConnState, w: ConnState, list: seq<CmdId>, at: nat)
      requires at < |list| && Grown(v.(replyList := list[at..]), w) && w.replyList != []
      ensures Grown(v.(replyList := list[at + 1..]), w.(replyList := w.replyList[1..]))
    {
      assert list[at..][1..] == list[at + 1..];
    }

    lemma DroppedNow(s: State, t: State, n: string, code: Code)
      requires Dropped(s, t, n, code)
      ensures t.now == s.now
    {
    }

    /** The reply goes to the callback of the command: only a network error is tried again. */
    predicate Delivered()
      requires conn.Some? && conn.value.context.Some?
      reads this
    {
      conn.value.context.value.disconnecting || conn.value.context.value.err !in {Io, Eof}
    }

    /** The code a reply is delivered with. */
    static method ReplyCode(ctx: Context, r: Option<Reply>, carried: Code) returns (code: Code)
      ensures code == if ctx.err != NoError || (r.Some? && r.value.ErrorLine?) then HIREDIS
        else if ctx.disconnecting then CONNECTION else carried
    {
      code := if ctx.disconnecting then CONNECTION else carried;
      if ctx.err != NoError {
        code := HIREDIS;
      } else if r.Some? && r.value.ErrorLine? {
        code := HIREDIS;
      }
    }

    /** hiredis answers a command of the open connection, from inside its callback. */
    method OnReply(cmd: CmdId, r: Option<Reply>)
      requires Valid() && Rest(St()) && conn.Some? && cmd in conn.value.replyList && conn.value.InCallback()
      requires cmd in cmds
      modifies this
      ensures Valid() && Rest(St()) && Later(old(St()), St())
      ensures Handled(old(St()), St(), init.name, cmd)
      ensures cmd in cmds && old(cmds[cmd]).home == Queued(init.name)
      ensures old(Delivered()) ==>
        && old(completions) <= cmds[cmd].finishedAt
        && Answered(old(cmds[cmd]), cmds[cmd],
             if old(conn.value).context.value.err != NoError || (r.Some? && r.value.ErrorLine?) then HIREDIS
             else if old(conn.value).context.value.disconnecting then CONNECTION
             else old(cmds[cmd]).errorCode)
      ensures old(Delivered()) && old(cmds[cmd]).given && old(cmds[cmd]).kind == User ==>
        Noticed(old(St()), St(), Told(cmd, cmds[cmd].errorCode))
      ensures !old(Delivered()) ==>
        if Hasty(old(St()), old(cmds[cmd]).ttl) then Served(init.name, old(cmds[cmd]), cmds[cmd], true)
        else cmds[cmd] == old(cmds[cmd]).(home := Delayed)
    {
      hide Inv, Holding, Later, CompletedInOrder, Progress, Hasty, InFront, Handled, IndexOf, Grown, Served;
      ghost var s := St();
      var ctx := conn.value.context.value;
      var deliver := ctx.disconnecting || (ctx.err != Io && ctx.err != Eof);
      var code := ReplyCode(ctx, r, cmds[cmd].errorCode);
      ghost var mid := PopReply(cmd);
      ghost var t := St();
      if deliver {
        QueuedKnown(s, init.name, cmd);
        Settle(cmd, false, code);
        if s.cmds[cmd].given && s.cmds[cmd].kind == User {
          NoticedNext(s, t, St(), Told(cmd, code));
        }
      } else {
        Settle(cmd, true, code);
        HastySame(s, t, s.cmds[cmd].ttl);
        if Hasty(t, t.cmds[cmd].ttl) {
          ServedFrom(init.name, s.cmds[cmd], t.cmds[cmd], cmds[cmd], true);
        }
      }
      HandledBy(s, mid, init.name, cmd, St());
      LaterTrans(s, t, St());
    }

    /** hiredis reports the end of a connection attempt, from inside its callback. */
    method OnConnected(ok: bool)
      requires Valid() && Rest(St()) && conn.Some? && conn.value.InCallback()
      modifies this
      ensures Valid() && Rest(St()) && Later(old(St()), St())
      ensures ok && old(conn.value).status == CONNECTING ==>
        conn.Some? && conn.value.status == CONNECTED && conn.value.sequence != timeoutSequence
      ensures old(notices) + [ConnectEnded(init.name, ok)] <= notices
      // A failed attempt is reported twice.
      ensures !ok && old(conn.value).status == CONNECTING ==>
        exists i :: |old(notices)| < i < |notices| && notices[i] == ConnectEnded(init.name, false)
      // Nothing else is touched.
      ensures if ok
        then Elsewhere(old(St()), St(), init.name, {}) && conn.Some? && Advances(old(conn.value), conn.value)
        else Progress(old(St()), St(), {}, {init.name})
      ensures !ok ==> conn.None? && CompletedInOrder(old(St()), St(), old(conn.value).replyList, CONNECTION)
    {
      hide Inv, Progress, Holding, CompletedInOrder, Later, Elsewhere, Advances, Grown;
      ghost var s, n := St(), init.name;
      RestOpen(s, n);
      UserCallback(ConnectEnded(init.name, ok));
      ghost var t := St();
      StaysPooled(s, t, n);
      RestKept(s, t, {});
      ProgressLater(s, t, {}, {});
      GrownStatus(s.pool[n], t.pool[n]);
      if !ok || conn.value.status == DISCONNECTED {
        var found := ReleaseConnection(false);
        ProgressTrans(s, t, St(), {}, {}, {}, {n});
        var none: set<CmdId>, one := {}, {n};
        assert none + none == none && {} + one == one;
        CompletedGrown(s, t, St(), n, s.pool[n].replyList);
        RestKept(t, St(), {n});
        NoticesGrow(t, St(), {}, {n});
        ProgressLater(t, St(), {}, {n});
      } else {
        SetConnected();
        ProgressElsewhere(s, t, n);
        ElsewhereTrans(s, t, St(), n, {}, {});
        AdvancesAfter(s.pool[n], t.pool[n], conn.value);
      }
      LaterTrans(s, t, St());
    }

    /** The connecting connection is connected; the new sequence disarms its connect timeout. */
    method SetConnected()
      requires Valid() && Rest(St()) && conn.Some?
      modifies this`conn, this`seqAlloc
      ensures Valid() && Rest(St()) && Later(old(St()), St()) && conn.Some?
      ensures Elsewhere(old(St()), St(), init.name, {}) && Advances(old(conn.value), conn.value)
      ensures old(conn.value).status == CONNECTING ==>
        && conn.value == old(conn.value).(status := CONNECTED, sequence := conn.value.sequence)
        && old(seqAlloc) <= conn.value.sequence && conn.value.sequence != timeoutSequence
      ensures old(conn.value).status != CONNECTING ==> conn == old(conn)
    {
      hide Inv, Holding, Later, Elsewhere;
      ghost var s, n := St(), init.name;
      RestContext(s, n);
      if conn.value.status != CONNECTING || conn.value.context.None? {
        LaterSame(s, s);
        ElsewhereRefl(s, n, {});
        return;
      }
      var sequence, next := MakeSequence(seqAlloc);
      ConnectedElsewhere(s, n, sequence, next);
      ConnectedKeeps(s, n, sequence, next);
      conn, seqAlloc := Some(conn.value.(status := CONNECTED, sequence := sequence)), next;
      assert Connected() == s.pool[n := conn.value];
      LaterSame(s, St());
    }

    /** hiredis reports that the connection was closed. */
    method OnDisconnected()
      requires Valid() && Rest(St()) && conn.Some?
      modifies this
      ensures Valid() && Rest(St()) && Later(old(St()), St()) && conn.None?
      ensures Progress(old(St()), St(), {}, {init.name})
      ensures old(conn.value).status == CONNECTED ==> Noticed(old(St()), St(), ConnectionLost(init.name))
      ensures CompletedInOrder(old(St()), St(), old(conn.value).replyList, CONNECTION)
    {
      hide Inv, Progress, Holding, CompletedInOrder, Later;
      ghost var s := St();
      RestOpen(s, init.name);
      var found := ReleaseConnection(false);
      RestKept(s, St(), {init.name});
      ProgressLater(s, St(), {}, {init.name});
    }

    // ---- Reset.

    /** Closes the context. hiredis reports the disconnection at once if the context is idle: in no callback
        and with nothing left to answer. */
    method Disconnect(ghost s: State)
      requires Valid() && Rest(St()) && conn.Some? && Inv(s) && Resetting(s, St(), {init.name}, 0, 0)
      modifies this
      ensures Valid() && Rest(St()) && Later(old(St()), St()) && Resetting(s, St(), {}, 0, 0)
      ensures Spared(old(cmds), cmds, {})
    {
      hide Inv, Progress, Holding, Resetting, Later, Spared, CmdsProgress;
      ghost var t, n := St(), init.name;
      RestContext(t, n);
      RestOpen(t, n);
      ContextKeeps(t, n, conn.value.context.value.(disconnecting := true));
      ResettingCloses(s, t, n, {n});
      conn := Some(conn.value.(context := Some(conn.value.context.value.(disconnecting := true))));
      assert Connected() == t.pool[n := conn.value];
      assert {n} - {n} == {};
      ghost var u := St();
      LaterSame(t, u);
      SparedRefl(cmds);
      var pending: bool := *;
      if !conn.value.InCallback() && conn.value.replyList == [] && !pending {
        var found := ReleaseConnection(false);
        RestKept(u, St(), {n});
        ResettingKept(s, u, St(), {}, 0, 0, {n});
        ProgressLater(u, St(), {}, {n});
        LaterTrans(t, u, St());
        ProgressCmds(u, St(), {}, {n});
        SparedBy(u.cmds, cmds, {});
      }
    }

    /** Closes the connection, fails every delayed command, oldest first, and forgets the connect timeout
        and the clock. */
    method Reset()
      requires Valid() && Rest(St())
      modifies this
      ensures Valid() && Rest(St()) && Later(old(St()), St())
      ensures CompletedInOrder(old(St()), St(), TimerCmds(old(timerPending)), TIMEOUT)
      ensures Closed(old(Connected()), Connected(), {})
      // Only what waits is failed.
      ensures Spared(old(cmds), cmds, {})
      ensures timerPending == [] && now == Time(0, 0) && timeoutSequence == 0 && timeoutAt == 0
    {
      hide Inv, Holding, Resetting, CompletedInOrder, Later, Closed, Spared;
      ghost var s := St();
      ResettingBegins(s);
      LaterSame(s, s);
      SparedRefl(cmds);
      if conn.Some? {
        assert s.pool.Keys == {init.name};
        Disconnect(s);
      } else {
        assert s.pool.Keys == {};
      }
      ghost var m := 0;
      while timerPending != []
        invariant Valid() && Rest(St()) && Resetting(s, St(), {}, 0, m) && Later(s, St())
        invariant Spared(s.cmds, cmds, {})
        decreases budget, |timerPending|
      {
        ghost var t := St();
        FailDelayed(s, m);
        LaterTrans(s, t, St());
        SparedTrans(s.cmds, t.cmds, cmds, {});
        m := if m < |s.timerPending| then m + 1 else m;
      }
      ResettingDone(s, St(), m);
      ghost var t := St();
      Numbered();
      now, timeoutSequence, timeoutAt := Time(0, 0), 0, 0;
      ForgetKeeps(t, St());
      LaterSame(t, St());
      LaterTrans(s, t, St());
      CompletedStays(s, t, St(), TimerCmds(s.timerPending), TIMEOUT);
    }

    /** The oldest delayed command comes into hand. */
    method TakeDelayed() returns (c: CmdId)
      requires Valid() && Rest(St()) && timerPending != []
      modifies this`timerPending, this`cmds, this`inHand
      ensures c == old(timerPending)[0].cmd && c in old(cmds) && old(cmds[c]).home == Delayed
      ensures c in cmds && c in inHand
      ensures Valid() && St() == Undelay(old(St())) && Holding(St(), {c}, {}) && Later(old(St()), St())
    {
      hide Inv, Holding, Later;
      ghost var t := St();
      UndelayKeeps(t);
      c := timerPending[0].cmd;
      timerPending := timerPending[1..];
      cmds := cmds[c := cmds[c].(home := InHand)];
      inHand := inHand + {c};
      HandOne(t, St(), c);
      LaterOne(t, St(), c, cmds[c]);
    }

    method FailDelayed(ghost s: State, ghost m: nat)
      requires Valid() && Rest(St()) && timerPending != [] && Inv(s) && Resetting(s, St(), {}, 0, m)
      modifies this
      ensures Valid() && Rest(St()) && Resetting(s, St(), {}, 0, if m < |s.timerPending| then m + 1 else m)
      ensures Later(old(St()), St()) && budget <= old(budget) && Spared(old(cmds), cmds, {})
      ensures budget == old(budget) ==> |timerPending| < |old(timerPending)|
    {
      hide Inv, Progress, Holding, Resetting, Later, Spared;
      ghost var t := St();
      var c := TakeDelayed();
      ghost var u := St();
      Settle(c, false, TIMEOUT);
      LaterTrans(t, u, St());
      SparedNext(t, u, St(), c);
      ResettingDelayed(s, t, St(), {}, 0, m);
    }

    // ---- The timer.

    /** Fires the first delayed command. */
    method FireFirst() returns (c: CmdId)
      requires Valid() && Rest(St()) && timerPending != []
      modifies this
      ensures c == old(timerPending)[0].cmd && c in old(cmds) && c in cmds
      ensures Valid() && Rest(St()) && Progress(Undelay(old(St())), St(), {c}, {}) && Later(old(St()), St())
      ensures old(cmds[timerPending[0].cmd]).home == Delayed
      ensures Served(init.name, old(cmds[timerPending[0].cmd]), cmds[c], old(conn).Some? || old(reachable))
      ensures Steady(old(conn), old(timeoutSequence), old(timeoutAt))
    {
      hide Inv, Progress, Holding, Later;
      ghost var t := St();
      c := TakeDelayed();
      ghost var u := St();
      var kept := Exec(c);
      RestProgress(u, St(), c);
      ProgressLater(u, St(), {c}, {});
      LaterTrans(t, u, St());
    }

    /** The timer ticks: fires the delayed commands that are due, in the order of their deadlines, then
        ends the connection if it was connecting for too long. */
    method Proc(t: Time) returns (ret: nat, ghost fired: seq<CmdId>)
      requires Valid() && Rest(St()) && AtMost(now, t)
      requires TimerAvailable() && interval.sec >= 0 && interval.usec >= 0
      requires conn.Some? ==> !conn.value.InCallback()
      modifies this
      ensures Valid() && Rest(St()) && now == t && Later(old(St()), St())
      ensures forall i :: 0 <= i < |old(timerPending)| ==> (i < ret <==> AtMost(old(timerPending)[i].at, t))
      ensures ret <= |old(timerPending)| && fired == TimerCmds(old(timerPending)[..ret])
      // They are executed, and no other command is touched.
      ensures CmdsProgress(old(cmds), cmds, set c <- fired)
      ensures RawFired(old(St()), St(), ret)
      ensures old(timerPending)[ret..] <= timerPending
      ensures forall i :: 0 <= i < |timerPending| ==> !AtMost(timerPending[i].at, t)
      ensures timeoutAt == 0 || t.sec < timeoutAt
      // A connection that was connecting in the phase of a passed timeout is ended.
      ensures old(conn).Some? && !old(conn.value).Refusing() && old(conn.value).sequence == old(timeoutSequence) ==>
        old(timeoutAt) != 0 && t.sec >= old(timeoutAt) ==> conn.None? && Ended(old(St()), St(), init.name)
      // A connection that is up and takes commands stays.
      ensures old(conn).Some? && old(conn.value).status == CONNECTED && !old(conn.value).Refusing() ==>
        conn.Some? && Grown(old(conn.value), conn.value)
    {
      hide Inv, Progress, Holding, Firing, Later, RawFired, RawFate, CmdsProgress, Ended, QueuedKept, Grown;
      ghost var s0 := St();
      ClockKeeps(s0, t);
      now := t;
      ghost var s := St();
      LaterSame(s0, s);
      ret, fired := FireDue(s);
      ghost var m := St();
      var released := ExpireDue(m);
      CmdsProgressOn(s.cmds, m.cmds, cmds, set c <- fired);
      RawFiredKept(s, m, St(), ret);
      RawFiredSame(s0, s, St(), ret);
      LaterTrans(s0, s, m);
      LaterTrans(s0, m, St());
      if Up(s) {
        FiringUp(s, m, ret);
        if released {
          QueuedInv(m);
          EndedNow(s, m, St(), init.name);
          EndedSame(s0, s, St(), init.name);
        }
      }
    }

    lemma RawFiredSame(s0: State, s: State, t: State, k: nat)
      requires RawFired(s, t, k) && s == s0.(now := s.now)
      ensures RawFired(s0, t, k)
    {
      hide Served;
      forall i | 0 <= i < k && i < |s0.timerPending| ensures RawFate(s0, t, i) {
        assert RawFate(s, t, i);
      }
    }

    lemma EndedSame(s0: State, s: State, t: State, n: string)
      requires Ended(s, t, n) && s == s0.(now := s.now)
      ensures Ended(s0, t, n)
    {
    }

    /** A connection that takes commands stays, as it is but for further commands. */
    lemma FiringUp(s: State, t: State, k: nat)
      requires Firing(s, t, k) && Up(s)
      ensures s.env.init in t.pool && Grown(s.pool[s.env.init], t.pool[s.env.init])
    {
    }

    /** Fires the delayed commands that are due. */
    method FireDue(ghost s: State) returns (ret: nat, ghost fired: seq<CmdId>)
      requires Valid() && Rest(St()) && St() == s
      requires TimerAvailable() && interval.sec >= 0 && interval.usec >= 0
      modifies this
      ensures Valid() && Rest(St()) && now == s.now && Later(s, St()) && Firing(s, St(), ret)
      ensures CmdsProgress(s.cmds, cmds, set c <- fired)
      ensures QueuedKept(s.cmds, cmds) && RawFired(s, St(), ret)
      ensures Steady(old(conn), old(timeoutSequence), old(timeoutAt))
      ensures ret <= |s.timerPending| && fired == TimerCmds(s.timerPending[..ret])
      ensures forall i :: 0 <= i < |s.timerPending| ==> (i < ret <==> AtMost(s.timerPending[i].at, s.now))
      ensures s.timerPending[ret..] <= timerPending
      ensures forall i :: 0 <= i < |timerPending| ==> !AtMost(timerPending[i].at, s.now)
    {
      hide Inv, Progress, Holding, Firing, Later, RawBurning, Served, CmdsProgress;
      LaterSame(s, s);
      FiringBegins(s);
      RawBurningBegins(s);
      NothingFired(s.cmds);
      ret, fired := 0, [];
      while timerPending != [] && AtMost(timerPending[0].at, now)
        invariant Valid() && Rest(St()) && now == s.now && Firing(s, St(), ret) && Later(s, St())
        invariant CmdsProgress(s.cmds, cmds, set c <- fired)
        invariant RawBurning(s, St(), ret) && Steady(old(conn), old(timeoutSequence), old(timeoutAt))
        invariant ret <= |s.timerPending| && fired == TimerCmds(s.timerPending[..ret])
        decreases |s.timerPending| - ret
      {
        ghost var u := St();
        var c := FireFirst();
        LaterTrans(s, u, St());
        FiringNext(s, u, St(), ret);
        RawBurningNext(s, u, St(), ret);
        assert s.timerPending[..ret + 1] == s.timerPending[..ret] + [s.timerPending[ret]];
        FiredProgress(s, u, St(), fired, c);
        fired := fired + [c];
        ret := ret + 1;
        FiringNow(s, St(), ret);
      }
      FiringEnds(s, St(), ret);
      RawBurningFacts(s, St(), ret);
    }

    lemma RawBurningFacts(s: State, t: State, k: nat)
      requires RawBurning(s, t, k)
      ensures QueuedKept(s.cmds, t.cmds) && RawFired(s, t, k)
    {
    }

    /** The connect timeout has passed, and the connection is still in the phase that it was set for. */
    predicate Overdue()
      reads this
    {
      timeoutAt != 0 && now.sec >= timeoutAt && conn.Some? && conn.value.sequence == timeoutSequence
    }

    /** Deals with the connect timeout if it has passed. */
    method ExpireDue(ghost m: State) returns (released: bool)
      requires Valid() && Rest(St()) && St() == m
      modifies this
      ensures Valid() && Rest(St()) && now == m.now && Later(m, St()) && CmdsProgress(m.cmds, cmds, {})
      ensures m.timerPending <= timerPending && (timeoutAt == 0 || now.sec < timeoutAt)
      ensures forall i :: |m.timerPending| <= i < |timerPending| ==> timerPending[i].at == Deadline(now, interval)
      ensures released == old(Overdue())
      ensures released ==>
        && old(conn.value).status == CONNECTING && conn.None?
        && CompletedInOrder(m, St(), old(conn.value).replyList, CONNECTION)
        && Noticed(m, St(), ConnectEnded(init.name, false))
      ensures !released ==> conn == old(conn)
    {
      hide Inv, Holding, Later, CompletedInOrder, Noticed, CmdsProgress;
      released := false;
      LaterSame(m, m);
      CmdsProgressRefl(cmds);
      while timeoutAt != 0 && now.sec >= timeoutAt
        invariant Valid() && Rest(St()) && now == m.now
        invariant timeoutAt == 0 || (St() == m && !released && conn == old(conn))
        invariant timeoutAt == 0 || (timeoutAt == old(timeoutAt) && timeoutSequence == old(timeoutSequence))
        invariant Later(m, St()) && CmdsProgress(m.cmds, cmds, {}) && m.timerPending <= timerPending
        invariant forall i :: |m.timerPending| <= i < |timerPending| ==> timerPending[i].at == Deadline(now, interval)
        invariant timeoutAt == 0 ==> released == old(Overdue())
        invariant released ==>
          && old(conn.value).status == CONNECTING && conn.None?
          && CompletedInOrder(m, St(), old(conn.value).replyList, CONNECTION)
          && Noticed(m, St(), ConnectEnded(init.name, false))
        invariant !released ==> conn == old(conn)
        decreases if timeoutAt != 0 then 1 else 0
      {
        released := ExpireConnection();
      }
    }

    /** Deals with a connect timeout that has passed. The connection is ended only if it is in the connecting
        phase the timeout was set for. */
    method ExpireConnection() returns (released: bool)
      requires Valid() && Rest(St())
      modifies this
      ensures Valid() && Rest(St()) && Later(old(St()), St()) && timeoutAt == 0 && timeoutSequence == 0
      ensures now == old(now)
      ensures released == (old(conn).Some? && old(conn.value).sequence == old(timeoutSequence))
      ensures released ==>
        && old(conn.value).status == CONNECTING && old(conn.value).context.Some? && conn.None?
        && CompletedInOrder(old(St()), St(), old(conn.value).replyList, CONNECTION)
      ensures released ==> Noticed(old(St()), St(), ConnectEnded(init.name, false))
      ensures CmdsProgress(old(cmds), cmds, {})
      ensures !released ==> conn == old(conn) && cmds == old(cmds)
      ensures old(timerPending) <= timerPending
      ensures forall i :: |old(timerPending)| <= i < |timerPending| ==> timerPending[i].at == Deadline(now, interval)
    {
      hide Inv, Progress, Holding, CompletedInOrder, Later, CmdsProgress, Noticed;
      ghost var s := St();
      LaterSame(s, s);
      CmdsProgressRefl(cmds);
      released := conn.Some? && conn.value.sequence == timeoutSequence;
      if released {
        RestOpen(s, init.name);
        RestContext(s, init.name);
        var found := ReleaseConnection(true);
        RestKept(s, St(), {init.name});
        ProgressLater(s, St(), {}, {init.name});
        ProgressCmds(s, St(), {}, {init.name});
        ProgressDelays(s, St(), {}, {init.name});
      }
      Numbered();
      timeoutAt, timeoutSequence := 0, 0;
    }

    /** No sequence is 0. */
    lemma Numbered()
      requires Valid()
      ensures conn.Some? ==> conn.value.sequence > 0
    {
      assert conn.Some? ==> Connected()[init.name].sequence > 0;
    }

    // ---- Runs.

    /** Anything that can happen to the client happens once, or the environment moves. */
    method Event()
      requires Valid() && Rest(St())
      modifies this
      ensures Valid() && Rest(St()) && Later(old(St()), St())
    {
      hide Inv, Holding, Later, CompletedInOrder;
      ghost var s := St();
      var event: nat, cmd: CmdId, ok: bool, t: Time, r: Option<Reply> := *, *, *, *, *;
      if event == 0 {
        var c, kept := ExecUser(ok);
      } else if event == 1 && conn.Some? && cmd in cmds && cmd in conn.value.replyList && conn.value.InCallback() {
        OnReply(cmd, r);
      } else if event == 2 && conn.Some? && conn.value.InCallback() {
        OnConnected(ok);
      } else if event == 3 && conn.Some? {
        OnDisconnected();
      } else if event == 4 && AtMost(now, t) && TimerAvailable() && interval.sec >= 0 && interval.usec >= 0
                && (conn.Some? ==> !conn.value.InCallback()) {
        var ret, fired := Proc(t);
      } else if event == 5 {
        Reset();
      } else {
        Environment();
      }
    }

    method Environment()
      requires Valid() && Rest(St())
      modifies this`conn, this`reachable, this`budget
      ensures Valid() && Rest(St()) && Later(old(St()), St())
    {
      hide Inv, Holding, Later;
      ghost var s := St();
      reachable, budget := *, *;
      AllowancesFree(s, St());
      ghost var t := St();
      var ctx: Context := *;
      if conn.Some? {
        ContextKeeps(t, init.name, ctx);
        conn := Some(conn.value.(context := Some(ctx)));
        assert Connected() == t.pool[init.name := conn.value];
      }
      LaterSame(s, St());
    }

    /** However long the client runs and whatever happens to it, it is safe. */
    method Run(events: nat)
      requires Valid() && Rest(St())
      modifies this
      ensures Valid() && Rest(St()) && Later(old(St()), St()) && Safe(St())
    {
      hide Inv, Holding, Later, Safe;
      ghost var s := St();
      LaterSame(s, s);
      for i := 0 to events
        invariant Valid() && Rest(St()) && Later(s, St())
      {
        ghost var t := St();
        Event();
        LaterTrans(s, t, St());
      }
      AlwaysSafe(St());
    }

    /** What a submission of a command in hand is built on: the command only advances. */
    lemma AgedHeld(s: State, t: State, c: CmdId)
      requires Progress(s, t, {c}, {}) && c in s.cmds
      ensures c in t.cmds && Advanced(s.cmds[c], t.cmds[c])
    {
      hide ListsProgress, TableProgress, CmdsProgress, CountersProgress, PoolProgress;
    }
  }
}
