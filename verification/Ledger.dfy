/** The state of a cluster client as one value: what holds of it whenever control can leave the client,
    how far one call may change it, and the elementary changes the client makes. */
module Ledger {
  import opened Types
  import opened Connections
  import opened Timers
  import opened SlotTables
  import opened EndpointNames

  datatype SlotFlag = INVALID | UPDATING | VALID

  type Cmds = map<CmdId, CmdState>
  type Pool = map<string, ConnState>

  /** What a call cannot change: the interval of the timer, the endpoints that a connection can be opened to,
      the initial endpoint, and whether the random slot is one all of whose hosts refuse if there is one. */
  datatype Env = Env(interval: Time, reachable: set<string>, init: string, unlucky: bool)

  datatype State = State(
    flag: SlotFlag,
    slotPending: seq<CmdId>,
    pool: Pool,
    now: Time,
    timerPending: seq<Delay>,
    timerConns: seq<ConnTimeout>,
    seqAlloc: nat,
    history: seq<Edit>,
    budget: nat, fuel: nat, halted: bool, env: Env,
    cmds: Cmds, nextCmd: nat,
    inHand: set<CmdId>, dying: set<CmdId>, asking: set<CmdId>,
    completions: nat, notices: seq<Notice>)

  // ---- What holds.

  /** The pool is indexed by the names of its endpoints, and an open connection has a context. Sequences are
      unique and not zero. A connect timeout matches a connection only while that is still in the connecting
      phase the timeout was set for, or is being released out of it. */
  ghost predicate InvPool(pool: Pool, timerConns: seq<ConnTimeout>, seqAlloc: nat) {
    && (forall n <- pool ::
          && pool[n].key.name == n && Named(pool[n].key)
          && 0 < pool[n].sequence < seqAlloc
          && (pool[n].status != DISCONNECTED ==> pool[n].context.Some?))
    && (forall m, n :: m in pool && n in pool && m != n ==> pool[m].sequence != pool[n].sequence)
    && (forall i :: 0 <= i < |timerConns| ==> timerConns[i].sequence < seqAlloc)
    && (forall i, n :: 0 <= i < |timerConns| && n in pool && timerConns[i].sequence == pool[n].sequence ==>
          pool[n].status == CONNECTING || (pool[n].status == DISCONNECTED && pool[n].context.Some?))
  }

  /** The slot-pending list holds each parked command once and nothing else. */
  ghost predicate InvParked(slotPending: seq<CmdId>, cmds: Cmds) {
    && NoDup(slotPending)
    && (forall c <- slotPending :: c in cmds && cmds[c].home == Parked)
    && (forall c <- cmds :: cmds[c].home == Parked ==> c in slotPending)
  }

  predicate OnTimer(c: CmdId, timerPending: seq<Delay>) {
    exists i :: 0 <= i < |timerPending| && timerPending[i].cmd == c
  }

  /** The timer list holds each delayed command once and nothing else. */
  ghost predicate InvDelayed(timerPending: seq<Delay>, cmds: Cmds) {
    && (forall i, j :: 0 <= i < j < |timerPending| ==> timerPending[i].cmd != timerPending[j].cmd)
    && (forall i :: 0 <= i < |timerPending| ==>
          timerPending[i].cmd in cmds && cmds[timerPending[i].cmd].home == Delayed)
    && (forall c <- cmds :: cmds[c].home == Delayed ==> OnTimer(c, timerPending))
  }

  /** A reply list holds each command queued on its connection once and nothing else. */
  ghost predicate InvQueued(pool: Pool, cmds: Cmds) {
    && (forall n <- pool :: NoDup(pool[n].replyList))
    && (forall n <- pool :: forall c <- pool[n].replyList :: c in cmds && cmds[c].home == Queued(n))
    && (forall c <- cmds :: cmds[c].home.Queued? ==>
          cmds[c].home.name in pool && c in pool[cmds[c].home.name].replyList)
  }

  /** The commands held by running functions, called back but not yet destroyed, and in flight. */
  ghost predicate InvHands(inHand: set<CmdId>, dying: set<CmdId>, asking: set<CmdId>, cmds: Cmds) {
    && inHand <= cmds.Keys && dying <= cmds.Keys && asking <= cmds.Keys
    && forall c <- cmds ::
        && (c in inHand <==> cmds[c].home == InHand)
        && (c in dying <==> cmds[c].home == Done && !cmds[c].destroyed)
        && (c in asking <==> cmds[c].home.Asking?)
  }

  ghost predicate InvOk(cmds: Cmds, nextCmd: nat, completions: nat) {
    forall c <- cmds :: c < nextCmd && cmds[c].Ok() && (cmds[c].home == Done ==> cmds[c].finishedAt < completions)
  }

  /** Delayed commands are sorted by deadline, and none is due later than one delayed now. */
  ghost predicate InvTimer(timerPending: seq<Delay>, now: Time, interval: Time) {
    && (forall i, j :: 0 <= i < j < |timerPending| ==> AtMost(timerPending[i].at, timerPending[j].at))
    && (forall i :: 0 <= i < |timerPending| ==> AtMost(timerPending[i].at, Deadline(now, interval)))
  }

  /** A user is told of every command of his that is done, once and with the code it carries, and of no
      other; while it is not yet destroyed he may still have to be told. */
  ghost predicate InvTold(notices: seq<Notice>, cmds: Cmds) {
    && (forall i :: 0 <= i < |notices| && notices[i].Told? ==>
          var c := notices[i].cmd;
          c in cmds && cmds[c].Rings() && cmds[c].home == Done && cmds[c].errorCode == notices[i].code)
    && (forall i, j :: 0 <= i < j < |notices| && notices[i].Told? && notices[j].Told? ==>
          notices[i].cmd != notices[j].cmd)
    && (forall c <- cmds :: cmds[c].Rings() && cmds[c].destroyed ==> Told(c, cmds[c].errorCode) in notices)
  }

  ghost predicate Inv(s: State) {
    && InvPool(s.pool, s.timerConns, s.seqAlloc)
    && InvParked(s.slotPending, s.cmds)
    && InvDelayed(s.timerPending, s.cmds)
    && InvQueued(s.pool, s.cmds)
    && InvHands(s.inHand, s.dying, s.asking, s.cmds)
    && InvOk(s.cmds, s.nextCmd, s.completions)
    && InvTimer(s.timerPending, s.now, s.env.interval)
    && InvTold(s.notices, s.cmds)
  }

  /** The pooled connections whose context refuses commands. */
  ghost function Refusing(pool: Pool): set<string> {
    set n | n in pool && pool[n].Refusing()
  }

  /** A connection that refuses commands but cannot be released now: it runs a hiredis callback, or
      is being released already. */
  predicate Stuck(v: ConnState) {
    v.Refusing() && (v.InCallback() || v.status == DISCONNECTED)
  }

  // ---- How far one call may change the state.

  /** Clocks and counters only advance, the environment's allowances are only used up, and what lies
      in other hands stays there. */
  ghost predicate CountersProgress(s: State, t: State, take: set<CmdId>) {
    && t.budget <= s.budget && t.fuel <= s.fuel && (s.halted ==> t.halted) && (t.halted ==> s.halted || t.fuel == 0)
    && s.notices <= t.notices
    && t.env == s.env && t.now == s.now && t.pool.Keys <= s.pool.Keys + s.env.reachable
    && s.seqAlloc <= t.seqAlloc && s.completions <= t.completions
    && s.nextCmd <= t.nextCmd && t.dying == s.dying && t.asking == s.asking
    && s.inHand - take <= t.inHand && (t.halted || t.inHand == s.inHand - take)
  }

  /** Every list only grows, and the slot table is not put in force. */
  ghost predicate ListsProgress(s: State, t: State) {
    && (t.flag == VALID ==> s.flag == VALID)
    && s.slotPending <= t.slotPending
    && s.timerPending <= t.timerPending
    && (forall i :: |s.timerPending| <= i < |t.timerPending| ==>
          t.timerPending[i].at == Deadline(s.now, s.env.interval))
    && s.timerConns <= t.timerConns
    && (forall i :: |s.timerConns| <= i < |t.timerConns| ==> s.now.sec < t.timerConns[i].timeout)
  }

  /** The slot table only loses leaders, and only hosts whose connections refused commands at the start, or
      that are in `drop`. */
  ghost predicate TableProgress(pool: Pool, h: seq<Edit>, h': seq<Edit>, drop: set<string>) {
    && OnlyRemoved(h, h')
    && forall i :: |h| <= i < |h'| ==> h'[i].name in drop || (h'[i].name in pool && pool[h'[i].name].Refusing())
  }

  /** A queued command whose connection was lost has been told so, once, and is done. */
  predicate Lost(v: CmdState, w: CmdState) {
    v.home.Queued? && w == v.Completed(CONNECTION, w.finishedAt).(destroyed := true)
  }

  /** A command that is not handed over stays as it is, unless it loses its connection. */
  ghost predicate CmdsProgress(cmds: Cmds, cmds': Cmds, take: set<CmdId>) {
    && cmds.Keys <= cmds'.Keys
    && forall c <- cmds :: c !in take ==> cmds'[c] == cmds[c] || Lost(cmds[c], cmds'[c])
  }

  /** How a command changes while it passes through the client: it is submitted further times, and
      every time costs ttl. */
  predicate Advanced(v: CmdState, w: CmdState) {
    w.kind == v.kind && w.given == v.given && v.submits <= w.submits && w.ttl <= v.ttl
  }

  /** A command only advances, and once it is done it does not change any more. */
  predicate Aged(v: CmdState, w: CmdState) {
    Advanced(v, w) && (v.home == Done ==> w == v.(destroyed := w.destroyed) && (v.destroyed ==> w.destroyed))
  }

  /** No command is forgotten, and all of them have aged. */
  ghost predicate CmdsAged(cmds: Cmds, cmds': Cmds) {
    cmds.Keys <= cmds'.Keys && forall c <- cmds :: Aged(cmds[c], cmds'[c])
  }

  lemma AgedTrans(cmds: Cmds, cmds': Cmds, cmds'': Cmds)
    requires CmdsAged(cmds, cmds') && CmdsAged(cmds', cmds'')
    ensures CmdsAged(cmds, cmds'')
  {
    forall c <- cmds ensures Aged(cmds[c], cmds''[c]) {
      assert Aged(cmds[c], cmds'[c]) && Aged(cmds'[c], cmds''[c]);
    }
  }

  lemma AgedOne(cmds: Cmds, c: CmdId, w: CmdState)
    requires c in cmds ==> Aged(cmds[c], w)
    ensures CmdsAged(cmds, cmds[c := w])
  {
  }

  lemma AgedRefl(cmds: Cmds)
    ensures CmdsAged(cmds, cmds)
  {
  }

  /** An open connection keeps everything but its reply list, which only grows; one that refuses commands
      or is being released is frozen. */
  predicate Grown(v: ConnState, w: ConnState) {
    if v.status == DISCONNECTED || v.Refusing() then w == v
    else w == v.(replyList := w.replyList) && v.replyList <= w.replyList
  }

  lemma GrownRefl(v: ConnState, list: seq<CmdId>)
    requires v.replyList == list
    ensures Grown(v.(replyList := list[0..]), v)
  {
    assert list[0..] == list;
  }

  /** Only a connection that refuses commands outside a callback may be released. */
  predicate MayGo(v: ConnState) {
    v.Refusing() && !v.InCallback() && v.status != DISCONNECTED
  }

  /** Connections only grow, those in `drop` and those that may go are released, and new ones are open,
      take commands and have new sequences. */
  ghost predicate PoolProgress(pool: Pool, alloc: nat, pool': Pool, drop: set<string>) {
    && (forall n <- pool' ::
          (n in pool && Grown(pool[n], pool'[n])) || (alloc <= pool'[n].sequence && !pool'[n].Refusing()))
    && (forall n <- pool :: n !in drop && !MayGo(pool[n]) ==> n in pool' && Grown(pool[n], pool'[n]))
    && (forall n <- pool' :: pool'[n].status == DISCONNECTED ==> n in pool && pool'[n] == pool[n])
  }

  /** The commands in `take` are handed over to the call and the connections in `drop` are released by
      it; everything else is only added to. */
  ghost predicate Progress(s: State, t: State, take: set<CmdId>, drop: set<string>) {
    && CountersProgress(s, t, take)
    && ListsProgress(s, t)
    && CmdsProgress(s.cmds, t.cmds, take)
    && CmdsAged(s.cmds, t.cmds)
    && PoolProgress(s.pool, s.seqAlloc, t.pool, drop)
    && TableProgress(s.pool, s.history, t.history, drop)
  }

  lemma ProgressRefl(s: State)
    ensures Progress(s, s, {}, {})
  {
  }

  lemma ListsProgressTrans(s: State, t: State, u: State)
    requires s.now == t.now && s.env.interval == t.env.interval
    requires ListsProgress(s, t) && ListsProgress(t, u)
    ensures ListsProgress(s, u)
  {
    forall i | |s.timerConns| <= i < |u.timerConns| ensures s.now.sec < u.timerConns[i].timeout {
      if i < |t.timerConns| {
        assert u.timerConns[i] == t.timerConns[i];
      }
    }
    forall i | |s.timerPending| <= i < |u.timerPending|
      ensures u.timerPending[i].at == Deadline(s.now, s.env.interval)
    {
      if i < |t.timerPending| {
        assert u.timerPending[i] == t.timerPending[i];
      }
    }
  }

  lemma PoolProgressTrans(r: Pool, alloc: nat, s: Pool, alloc': nat, t: Pool, drop: set<string>, drop': set<string>)
    requires PoolProgress(r, alloc, s, drop) && PoolProgress(s, alloc', t, drop') && alloc <= alloc'
    ensures PoolProgress(r, alloc, t, drop + drop')
  {
    hide Refusing;
  }

  lemma TableProgressTrans(r: Pool, alloc: nat, s: Pool, h: seq<Edit>, h': seq<Edit>, h'': seq<Edit>, drop: set<string>,
      drop': set<string>)
    requires PoolProgress(r, alloc, s, drop) && TableProgress(r, h, h', drop) && TableProgress(s, h', h'', drop')
    ensures TableProgress(r, h, h'', drop + drop')
  {
    OnlyRemovedTrans(h, h', h'');
    forall i | |h| <= i < |h''|
      ensures h''[i].name in drop + drop' || (h''[i].name in r && r[h''[i].name].Refusing())
    {
      if i < |h'| {
        assert h''[i] == h'[i];
      }
    }
  }

  lemma ProgressTrans(s: State, t: State, u: State, take: set<CmdId>, take': set<CmdId>,
      drop: set<string>, drop': set<string>)
    requires Progress(s, t, take, drop) && Progress(t, u, take', drop')
    ensures Progress(s, u, take + take', drop + drop')
  {
    hide ListsProgress, PoolProgress, CmdsAged, TableProgress;
    ListsProgressTrans(s, t, u);
    AgedTrans(s.cmds, t.cmds, u.cmds);
    PoolProgressTrans(s.pool, s.seqAlloc, t.pool, t.seqAlloc, u.pool, drop, drop');
    TableProgressTrans(s.pool, s.seqAlloc, t.pool, s.history, t.history, u.history, drop, drop');
  }

  /** A call that hands nothing over, followed by any call. */
  lemma ProgressThen(s: State, t: State, u: State, take: set<CmdId>, drop: set<string>)
    requires Progress(s, t, {}, {}) && Progress(t, u, take, drop)
    ensures Progress(s, u, take, drop)
  {
    hide Progress;
    ProgressTrans(s, t, u, {}, take, {}, drop);
    assert {} + take == take && {} + drop == drop;
  }

  /** Any call, followed by one that hands nothing over. */
  lemma ThenProgress(s: State, t: State, u: State, take: set<CmdId>, drop: set<string>)
    requires Progress(s, t, take, drop) && Progress(t, u, {}, {})
    ensures Progress(s, u, take, drop)
  {
    hide Progress;
    ProgressTrans(s, t, u, take, {}, drop, {});
    assert take + {} == take && drop + {} == drop;
  }

  /** Lists that are equal at the start, or at the end, may be exchanged. */
  lemma ListsSame(s: State, s': State, t: State, t': State)
    requires ListsProgress(s, t)
    requires s'.slotPending == s.slotPending && s'.timerPending == s.timerPending && s'.timerConns == s.timerConns
    requires s'.history == s.history && s'.now == s.now && s'.env == s.env && s'.flag == s.flag
    requires t'.slotPending == t.slotPending && t'.timerPending == t.timerPending && t'.timerConns == t.timerConns
    requires t'.history == t.history && t'.flag == t.flag
    ensures ListsProgress(s', t')
  {
  }

  lemma SameLists(s: State, t: State)
    requires t.slotPending == s.slotPending && t.timerPending == s.timerPending && t.timerConns == s.timerConns
    requires t.history == s.history && t.flag == s.flag
    ensures ListsProgress(s, t)
  {
  }

  lemma SameTable(pool: Pool, h: seq<Edit>)
    ensures TableProgress(pool, h, h, {})
  {
  }

  lemma SamePool(pool: Pool, alloc: nat)
    ensures PoolProgress(pool, alloc, pool, {})
  {
  }

  // ---- A command that changes without entering or leaving a list.

  lemma ParkedFrame(list: seq<CmdId>, cmds: Cmds, c: CmdId, w: CmdState)
    requires InvParked(list, cmds)
    requires (c in cmds ==> cmds[c].home != Parked) && w.home != Parked
    ensures InvParked(list, cmds[c := w])
  {
  }

  lemma DelayedFrame(list: seq<Delay>, cmds: Cmds, c: CmdId, w: CmdState)
    requires InvDelayed(list, cmds)
    requires (c in cmds ==> cmds[c].home != Delayed) && w.home != Delayed
    ensures InvDelayed(list, cmds[c := w])
  {
  }

  lemma QueuedFrame(pool: Pool, cmds: Cmds, c: CmdId, w: CmdState)
    requires InvQueued(pool, cmds)
    requires (c in cmds ==> !cmds[c].home.Queued?) && !w.home.Queued?
    ensures InvQueued(pool, cmds[c := w])
  {
  }

  /** The reply lists when a connection is added or changes without touching its list. */
  lemma QueuedPoolFrame(pool: Pool, cmds: Cmds, n: string, w: ConnState)
    requires InvQueued(pool, cmds)
    requires w.replyList == if n in pool then pool[n].replyList else []
    ensures InvQueued(pool[n := w], cmds)
  {
  }

  /** Nothing is to be told when a command changes that is not done before. */
  lemma ToldFrame(notices: seq<Notice>, cmds: Cmds, c: CmdId, w: CmdState)
    requires InvTold(notices, cmds) && (c in cmds ==> cmds[c].home != Done) && !w.destroyed
    ensures InvTold(notices, cmds[c := w])
  {
  }

  predicate Listed(home: Home) {
    home == Parked || home == Delayed || home.Queued?
  }

  lemma ListsFrame(s: State, c: CmdId, w: CmdState)
    requires Inv(s) && (c in s.cmds ==> !Listed(s.cmds[c].home)) && !Listed(w.home)
    ensures InvParked(s.slotPending, s.cmds[c := w])
    ensures InvDelayed(s.timerPending, s.cmds[c := w])
    ensures InvQueued(s.pool, s.cmds[c := w])
  {
    hide InvParked, InvDelayed, InvQueued, InvPool, InvHands, InvOk, InvTimer, InvTold;
    ParkedFrame(s.slotPending, s.cmds, c, w);
    DelayedFrame(s.timerPending, s.cmds, c, w);
    QueuedFrame(s.pool, s.cmds, c, w);
  }

  /** What is known of a command in hand. */
  lemma Held(s: State, c: CmdId)
    requires Inv(s) && c in s.inHand
    ensures c in s.cmds && s.cmds[c].Ok() && s.cmds[c].home == InHand
  {
  }

  // ---- The elementary changes.

  /** A new command comes into hand. */
  function Create(s: State, v: CmdState): State {
    s.(cmds := s.cmds[s.nextCmd := v], nextCmd := s.nextCmd + 1, inHand := s.inHand + {s.nextCmd})
  }

  lemma CreateKeeps(s: State, v: CmdState)
    requires Inv(s) && v.Ok() && v.home == InHand
    ensures s.nextCmd !in s.cmds && Inv(Create(s, v))
  {
    hide InvParked, InvDelayed, InvQueued, InvPool, InvTimer, InvTold;
    ListsFrame(s, s.nextCmd, v);
    ToldFrame(s.notices, s.cmds, s.nextCmd, v);
  }

  /** A command created, handed over and settled within one call leaves no trace in hand. */
  lemma CreateProgress(s: State, v: CmdState, t: State)
    requires Inv(s) && Progress(Create(s, v), t, {s.nextCmd}, {})
    ensures Progress(s, t, {}, {})
  {
    hide InvParked, InvDelayed, InvQueued, InvPool, InvTimer, PoolProgress, ListsProgress, TableProgress, CmdsAged,
        InvTold;
    var u := Create(s, v);
    ListsSame(u, s, t, t);
    AgedOne(s.cmds, s.nextCmd, v);
    AgedTrans(s.cmds, u.cmds, t.cmds);
    assert s.inHand == u.inHand - {s.nextCmd};
  }

  /** The callback of a command in hand is taken out and called. */
  function Complete(s: State, c: CmdId, code: Code): State
    requires c in s.cmds
  {
    s.(cmds := s.cmds[c := s.cmds[c].Completed(code, s.completions)],
       inHand := s.inHand - {c}, dying := s.dying + {c}, completions := s.completions + 1)
  }

  lemma CompleteKeeps(s: State, c: CmdId, code: Code)
    requires Inv(s) && c in s.inHand
    ensures c in s.cmds && Inv(Complete(s, c, code))
  {
    hide InvParked, InvDelayed, InvQueued, InvPool, InvTimer, InvHands, InvOk, InvTold;
    Held(s, c);
    ListsFrame(s, c, s.cmds[c].Completed(code, s.completions));
    ToldFrame(s.notices, s.cmds, c, s.cmds[c].Completed(code, s.completions));
    CompleteHands(s, c, code);
    CompleteOk(s, c, code);
  }

  lemma CompleteHands(s: State, c: CmdId, code: Code)
    requires InvHands(s.inHand, s.dying, s.asking, s.cmds) && c in s.cmds && s.cmds[c].home == InHand
    requires !s.cmds[c].destroyed
    ensures var t := Complete(s, c, code); InvHands(t.inHand, t.dying, t.asking, t.cmds)
  {
  }

  lemma CompleteOk(s: State, c: CmdId, code: Code)
    requires InvOk(s.cmds, s.nextCmd, s.completions) && c in s.cmds && s.cmds[c].home == InHand
    ensures var t := Complete(s, c, code); InvOk(t.cmds, t.nextCmd, t.completions)
  {
  }

  function Destroy(s: State, c: CmdId): State
    requires c in s.cmds
  {
    s.(cmds := s.cmds[c := s.cmds[c].(destroyed := true)], dying := s.dying - {c})
  }

  /** The user has been told of the command, if it is his. */
  ghost predicate ToldOf(s: State, c: CmdId) {
    c in s.cmds && (s.cmds[c].Rings() ==> Told(c, s.cmds[c].errorCode) in s.notices)
  }

  lemma ToldDestroy(notices: seq<Notice>, cmds: Cmds, c: CmdId)
    requires InvTold(notices, cmds) && c in cmds && (cmds[c].Rings() ==> Told(c, cmds[c].errorCode) in notices)
    ensures InvTold(notices, cmds[c := cmds[c].(destroyed := true)])
  {
  }

  /** The user may be told of a command of his that is done, has the code and was not told of before. */
  ghost predicate Tellable(s: State, x: Notice) {
    x.Told? ==>
      && x.cmd in s.cmds && s.cmds[x.cmd].Rings() && s.cmds[x.cmd].home == Done && s.cmds[x.cmd].errorCode == x.code
      && forall i :: 0 <= i < |s.notices| && s.notices[i].Told? ==> s.notices[i].cmd != x.cmd
  }

  /** When the callback of a user's command is taken out to be called, he may be told. */
  lemma CompleteTells(s: State, c: CmdId, code: Code)
    requires Inv(s) && c in s.inHand && c in s.cmds
    ensures s.cmds[c].callback && s.cmds[c].kind == User ==> Tellable(Complete(s, c, code), Told(c, code))
    ensures s.cmds[c].Rings() <==> s.cmds[c].callback && s.cmds[c].kind == User
    ensures s.cmds[c].Rings() ==> Complete(s, c, code).cmds[c].errorCode == code
  {
    hide InvPool, InvParked, InvDelayed, InvQueued, InvHands, InvOk, InvTimer;
    Held(s, c);
  }

  lemma DestroyKeeps(s: State, c: CmdId)
    requires Inv(s) && c in s.dying
    requires ToldOf(s, c)
    ensures c in s.cmds && Inv(Destroy(s, c))
  {
    hide InvParked, InvDelayed, InvQueued, InvPool, InvTimer, InvTold;
    ListsFrame(s, c, s.cmds[c].(destroyed := true));
    ToldDestroy(s.notices, s.cmds, c);
  }

  /** The commands, from the call of a callback to the destruction of its command. */
  lemma FinishedCmds(cmds: Cmds, c: CmdId, w: CmdState, cmds': Cmds, take: set<CmdId>)
    requires c in cmds && c !in take && w.home == Done && Aged(cmds[c], w)
    requires CmdsProgress(cmds[c := w], cmds', take) && CmdsAged(cmds[c := w], cmds')
    ensures c in cmds' && cmds'[c] == w
    ensures CmdsProgress(cmds, cmds'[c := w.(destroyed := true)], {c} + take)
    ensures CmdsAged(cmds, cmds'[c := w.(destroyed := true)])
  {
    hide Aged, CmdsAged;
    assert cmds[c := w][c] == w;
    DestroyAges(w);
    AgedOne(cmds, c, w);
    AgedTrans(cmds, cmds[c := w], cmds');
    AgedOne(cmds', c, w.(destroyed := true));
    AgedTrans(cmds, cmds', cmds'[c := w.(destroyed := true)]);
  }

  lemma DestroyAges(v: CmdState)
    ensures Aged(v, v.(destroyed := true))
  {
  }

  lemma CompletedAges(v: CmdState, code: Code, when: nat)
    requires v.home != Done
    ensures Aged(v, v.Completed(code, when)) && v.Completed(code, when).home == Done
  {
  }

  lemma FinishedCounters(s: State, c: CmdId, code: Code, t: State, take: set<CmdId>)
    requires Inv(s) && c in s.inHand && c in s.cmds && c in t.cmds && CountersProgress(Complete(s, c, code), t, take)
    ensures CountersProgress(s, Destroy(t, c), {c} + take) && c in t.dying && s.completions < t.completions
  {
    hide InvParked, InvDelayed, InvQueued, InvPool, InvTimer, InvOk, InvTold;
    assert c !in s.dying;
  }

  /** From the call of a command's callback to its destruction, with anything the callback did between. */
  lemma FinishProgress(s: State, c: CmdId, code: Code, t: State)
    requires Inv(s) && c in s.inHand && c in s.cmds
    requires Inv(t) && Progress(Complete(s, c, code), t, {}, {})
    ensures c in t.dying && c in t.cmds && t.cmds[c] == Complete(s, c, code).cmds[c]
    ensures Progress(s, Destroy(t, c), {c}, {}) && s.completions < t.completions
    ensures Destroy(t, c).cmds[c] == s.cmds[c].Completed(code, s.completions).(destroyed := true)
  {
    hide Inv, PoolProgress, ListsProgress, TableProgress, CmdsProgress, CmdsAged, Aged;
    var u := Complete(s, c, code);
    Held(s, c);
    CompletedAges(s.cmds[c], code, s.completions);
    FinishedCmds(s.cmds, c, u.cmds[c], t.cmds, {});
    FinishedCounters(s, c, code, t, {});
    assert {c} + {} == {c};
    ListsSame(u, s, t, Destroy(t, c));
  }

  /** A command in hand is changed and stays in hand: its ttl is spent, or its slot is forgotten. */
  function Rework(s: State, c: CmdId, w: CmdState): State {
    s.(cmds := s.cmds[c := w])
  }

  lemma ReworkKeeps(s: State, c: CmdId, w: CmdState)
    requires Inv(s) && c in s.inHand && w.Ok() && w.home == InHand
    ensures Inv(Rework(s, c, w))
  {
    hide InvParked, InvDelayed, InvQueued, InvPool, InvTimer, InvTold;
    ListsFrame(s, c, w);
    ToldFrame(s.notices, s.cmds, c, w);
  }

  lemma ReworkProgress(s: State, c: CmdId, w: CmdState, t: State, drop: set<string>)
    requires c in s.cmds && s.cmds[c].home == InHand && Advanced(s.cmds[c], w)
    requires Progress(Rework(s, c, w), t, {c}, drop)
    ensures Progress(s, t, {c}, drop)
  {
    hide PoolProgress, ListsProgress, TableProgress, CmdsAged;
    ListsSame(Rework(s, c, w), s, t, t);
    AgedOne(s.cmds, c, w);
    AgedTrans(s.cmds, Rework(s, c, w).cmds, t.cmds);
  }

  /** A command in hand joins the slot-pending list. */
  function Park(s: State, c: CmdId): State
    requires c in s.cmds
  {
    s.(cmds := s.cmds[c := s.cmds[c].(home := Parked)], inHand := s.inHand - {c}, slotPending := s.slotPending + [c])
  }

  lemma ParkKeeps(s: State, c: CmdId)
    requires Inv(s) && c in s.inHand && c in s.cmds && s.cmds[c].ttl > 0
    ensures c in s.cmds && Inv(Park(s, c)) && Progress(s, Park(s, c), {c}, {})
  {
    hide InvDelayed, InvQueued, InvPool, InvTimer, PoolProgress, CmdsAged, InvParked, InvTold;
    var w := s.cmds[c].(home := Parked);
    ParkedAppend(s.slotPending, s.cmds, c, w);
    DelayedFrame(s.timerPending, s.cmds, c, w);
    QueuedFrame(s.pool, s.cmds, c, w);
    ToldFrame(s.notices, s.cmds, c, w);
    SamePool(s.pool, s.seqAlloc);
    AgedOne(s.cmds, c, w);
  }

  lemma ParkedAppend(list: seq<CmdId>, cmds: Cmds, c: CmdId, w: CmdState)
    requires InvParked(list, cmds) && c in cmds && cmds[c].home != Parked && w.home == Parked
    ensures InvParked(list + [c], cmds[c := w])
  {
    assert (list + [c])[|list|] == c;
  }

  /** A command in hand joins the timer list. */
  function Defer(s: State, c: CmdId): State
    requires c in s.cmds
  {
    s.(cmds := s.cmds[c := s.cmds[c].(home := Delayed)], inHand := s.inHand - {c},
       timerPending := s.timerPending + [Delay(Deadline(s.now, s.env.interval), c)])
  }

  lemma DeferKeeps(s: State, c: CmdId)
    requires Inv(s) && c in s.inHand
    ensures c in s.cmds && Inv(Defer(s, c)) && Progress(s, Defer(s, c), {c}, {})
  {
    hide InvParked, InvDelayed, InvQueued, InvPool, PoolProgress, CmdsAged, InvTold;
    var w := s.cmds[c].(home := Delayed);
    ParkedFrame(s.slotPending, s.cmds, c, w);
    QueuedFrame(s.pool, s.cmds, c, w);
    ToldFrame(s.notices, s.cmds, c, w);
    DelayedAppend(s.timerPending, s.cmds, c, w, Deadline(s.now, s.env.interval));
    SamePool(s.pool, s.seqAlloc);
    AgedOne(s.cmds, c, w);
  }

  lemma DelayedAppend(list: seq<Delay>, cmds: Cmds, c: CmdId, w: CmdState, at: Time)
    requires InvDelayed(list, cmds) && c in cmds && cmds[c].home != Delayed && w.home == Delayed
    ensures InvDelayed(list + [Delay(at, c)], cmds[c := w])
  {
    var list' := list + [Delay(at, c)];
    assert list'[|list|].cmd == c;
    forall b <- cmds[c := w] | cmds[c := w][b].home == Delayed ensures OnTimer(b, list') {
      if b != c {
        var i :| 0 <= i < |list| && list[i].cmd == b;
        assert list'[i].cmd == b;
      }
    }
  }

  /** A command in hand is handed to a connection, which takes it or not. */
  function Submit(s: State, c: CmdId, n: string, ok: bool): State
    requires c in s.cmds && n in s.pool
  {
    var v := s.cmds[c].(submits := s.cmds[c].submits + [n]);
    if ok
    then s.(cmds := s.cmds[c := v.(home := Queued(n))], inHand := s.inHand - {c},
            pool := s.pool[n := s.pool[n].(replyList := s.pool[n].replyList + [c])])
    else Rework(s, c, v)
  }

  lemma SubmitKeeps(s: State, c: CmdId, n: string)
    requires Inv(s) && c in s.inHand && n in s.pool && s.pool[n].status != DISCONNECTED && !s.pool[n].Refusing()
    requires c in s.cmds && |s.cmds[c].submits| < s.cmds[c].attempts
    ensures Inv(Submit(s, c, n, true)) && Progress(s, Submit(s, c, n, true), {c}, {})
  {
    hide InvParked, InvDelayed, InvTimer, InvPool, InvQueued, ListsProgress, TableProgress, PoolProgress, CmdsAged,
        InvTold;
    var t := Submit(s, c, n, true);
    Held(s, c);
    ParkedFrame(s.slotPending, s.cmds, c, t.cmds[c]);
    DelayedFrame(s.timerPending, s.cmds, c, t.cmds[c]);
    ToldFrame(s.notices, s.cmds, c, t.cmds[c]);
    QueuedAppend(s.pool, s.cmds, c, n, t.cmds[c]);
    PoolAppend(s, n, c);
    PoolAppends(s.pool, s.seqAlloc, n, c);
    SameLists(s, t);
    SameTable(s.pool, s.history);
    AgedOne(s.cmds, c, t.cmds[c]);
  }

  lemma QueuedAppend(pool: Pool, cmds: Cmds, c: CmdId, n: string, w: CmdState)
    requires InvQueued(pool, cmds) && c in cmds && !cmds[c].home.Queued? && n in pool && w.home == Queued(n)
    ensures InvQueued(pool[n := pool[n].(replyList := pool[n].replyList + [c])], cmds[c := w])
  {
  }

  lemma PoolAppend(s: State, n: string, c: CmdId)
    requires InvPool(s.pool, s.timerConns, s.seqAlloc) && n in s.pool && s.pool[n].status != DISCONNECTED
    ensures InvPool(s.pool[n := s.pool[n].(replyList := s.pool[n].replyList + [c])], s.timerConns, s.seqAlloc)
  {
  }

  lemma PoolAppends(pool: Pool, alloc: nat, n: string, c: CmdId)
    requires n in pool && pool[n].status != DISCONNECTED && !pool[n].Refusing()
    ensures PoolProgress(pool, alloc, pool[n := pool[n].(replyList := pool[n].replyList + [c])], {})
  {
  }

  /** A new connection joins the pool, with a connect timeout if `timed`. */
  function Open(s: State, n: string, v: ConnState, next: nat, timed: bool, timeout: int): State {
    s.(pool := s.pool[n := v], seqAlloc := next,
       timerConns := if timed then s.timerConns + [ConnTimeout(n, v.sequence, timeout)] else s.timerConns)
  }

  lemma OpenKeeps(s: State, n: string, v: ConnState, next: nat, timed: bool, timeout: int)
    requires Inv(s) && n !in s.pool && n in s.env.reachable && v.key.name == n && Named(v.key)
    requires v.status == CONNECTING && v.context.Some? && !v.Refusing() && v.replyList == []
    requires s.seqAlloc <= v.sequence < next && 0 < v.sequence && (timed ==> s.now.sec < timeout)
    ensures Inv(Open(s, n, v, next, timed, timeout)) && Progress(s, Open(s, n, v, next, timed, timeout), {}, {})
  {
    hide InvParked, InvDelayed, InvTimer, InvQueued, InvHands, InvOk, InvPool, PoolProgress, CmdsAged, InvTold;
    QueuedPoolFrame(s.pool, s.cmds, n, v);
    OpenPool(s, n, v, next, timed, timeout);
    PoolGrows(s.pool, s.seqAlloc, n, v);
    AgedRefl(s.cmds);
  }

  lemma OpenPool(s: State, n: string, v: ConnState, next: nat, timed: bool, timeout: int)
    requires InvPool(s.pool, s.timerConns, s.seqAlloc) && n !in s.pool && v.key.name == n && Named(v.key)
    requires v.status == CONNECTING && v.context.Some? && s.seqAlloc <= v.sequence < next && 0 < v.sequence
    ensures var t := Open(s, n, v, next, timed, timeout); InvPool(t.pool, t.timerConns, t.seqAlloc)
  {
  }

  lemma PoolGrows(pool: Pool, alloc: nat, n: string, v: ConnState)
    requires n !in pool && v.status != DISCONNECTED && !v.Refusing() && alloc <= v.sequence
    ensures PoolProgress(pool, alloc, pool[n := v], {})
  {
  }

  // ---- Releasing a connection, and taking a command off a reply list.

  /** Progress of everything but connection n and the commands in `take`. */
  ghost predicate Elsewhere(s: State, t: State, n: string, take: set<CmdId>) {
    && CountersProgress(s, t, {})
    && ListsProgress(s, t)
    && CmdsProgress(s.cmds, t.cmds, take)
    && CmdsAged(s.cmds, t.cmds)
    && PoolProgress(s.pool - {n}, s.seqAlloc, t.pool - {n}, {})
    && TableProgress(s.pool, s.history, t.history, {n})
  }

  lemma PoolWithout(pool: Pool, alloc: nat, pool': Pool, n: string)
    requires PoolProgress(pool, alloc, pool', {})
    ensures PoolProgress(pool - {n}, alloc, pool' - {n}, {})
  {
  }

  lemma TableElsewhere(pool: Pool, alloc: nat, pool': Pool, h: seq<Edit>, h': seq<Edit>, h'': seq<Edit>, n: string)
    requires PoolProgress(pool - {n}, alloc, pool' - {n}, {})
    requires TableProgress(pool, h, h', {n}) && TableProgress(pool', h', h'', {n})
    ensures TableProgress(pool, h, h'', {n})
  {
    OnlyRemovedTrans(h, h', h'');
    forall i | |h| <= i < |h''|
      ensures h''[i].name == n || (h''[i].name in pool && pool[h''[i].name].Refusing())
    {
      if i < |h'| {
        assert h''[i] == h'[i];
      } else if h''[i].name != n {
        assert h''[i].name in pool' - {n};
      }
    }
  }

  lemma TableWeaken(pool: Pool, h: seq<Edit>, h': seq<Edit>, drop: set<string>)
    requires TableProgress(pool, h, h', {})
    ensures TableProgress(pool, h, h', drop)
  {
  }

  /** A connection that refuses commands need not be counted apart. */
  lemma TableRefusing(pool: Pool, h: seq<Edit>, h': seq<Edit>, n: string)
    requires TableProgress(pool, h, h', {n}) && n in pool && pool[n].Refusing()
    ensures TableProgress(pool, h, h', {})
  {
  }

  /** The lists of the connections do not matter. */
  lemma TableSame(pool: Pool, pool': Pool, h: seq<Edit>, h': seq<Edit>)
    requires TableProgress(pool, h, h', {})
    requires forall n <- pool | pool[n].Refusing() :: n in pool' && pool'[n].Refusing()
    ensures TableProgress(pool', h, h', {})
  {
  }

  lemma ElsewhereTrans(s: State, t: State, u: State, n: string, take: set<CmdId>, take': set<CmdId>)
    requires Elsewhere(s, t, n, take) && Elsewhere(t, u, n, take') && take' <= take
    ensures Elsewhere(s, u, n, take)
  {
    hide ListsProgress, TableProgress, PoolProgress, CmdsAged;
    ListsProgressTrans(s, t, u);
    AgedTrans(s.cmds, t.cmds, u.cmds);
    PoolProgressTrans(s.pool - {n}, s.seqAlloc, t.pool - {n}, t.seqAlloc, u.pool - {n}, {}, {});
    TableElsewhere(s.pool, s.seqAlloc, t.pool, s.history, t.history, u.history, n);
    var none: set<string> := {};
    assert none + none == none;
  }

  lemma ElsewhereWeaken(s: State, t: State, n: string, take: set<CmdId>)
    requires Elsewhere(s, t, n, {})
    ensures Elsewhere(s, t, n, take)
  {
    hide ListsProgress, TableProgress, PoolProgress, CmdsAged;
  }

  lemma ElsewhereMore(s: State, t: State, n: string, take: set<CmdId>, take': set<CmdId>)
    requires Elsewhere(s, t, n, take) && take <= take'
    ensures Elsewhere(s, t, n, take')
  {
    hide ListsProgress, TableProgress, PoolProgress, CmdsAged;
  }

  lemma ElsewhereRefl(s: State, n: string, take: set<CmdId>)
    ensures Elsewhere(s, s, n, take)
  {
    SamePool(s.pool - {n}, s.seqAlloc);
  }

  /** What is known of a reply list. */
  lemma QueueFacts(s: State, n: string)
    requires Inv(s) && n in s.pool
    ensures NoDup(s.pool[n].replyList)
    ensures forall c <- s.pool[n].replyList :: c in s.cmds && s.cmds[c].home == Queued(n)
  {
    hide InvParked, InvDelayed, InvTimer, InvPool, InvHands, InvOk, InvTold;
  }

  lemma ProgressElsewhere(s: State, t: State, n: string)
    requires Progress(s, t, {}, {})
    ensures Elsewhere(s, t, n, {})
  {
    hide ListsProgress, TableProgress, PoolProgress, CmdsAged;
    TableWeaken(s.pool, s.history, t.history, {n});
    PoolWithout(s.pool, s.seqAlloc, t.pool, n);
  }

  /** A connection in use has a context. */
  lemma OpenContext(s: State, n: string)
    requires Inv(s) && n in s.pool && s.pool[n].status != DISCONNECTED
    ensures s.pool[n].context.Some?
  {
    hide InvParked, InvDelayed, InvTimer, InvQueued, InvHands, InvOk, InvTold;
  }

  /** The status is changed before anything else; closing the context makes hiredis refuse commands. */
  function Disconnecting(v: ConnState, closeFd: bool): ConnState {
    v.(status := DISCONNECTED,
       context := if closeFd && v.context.Some? then Some(v.context.value.(disconnecting := true)) else v.context)
  }

  function BeginRelease(s: State, n: string, closeFd: bool): State
    requires n in s.pool
  {
    s.(pool := s.pool[n := Disconnecting(s.pool[n], closeFd)])
  }

  lemma BeginReleaseKeeps(s: State, n: string, closeFd: bool)
    requires Inv(s) && n in s.pool && s.pool[n].status != DISCONNECTED
    ensures Inv(BeginRelease(s, n, closeFd)) && Elsewhere(s, BeginRelease(s, n, closeFd), n, {})
  {
    hide InvParked, InvDelayed, InvTimer, InvQueued, InvHands, InvOk, PoolProgress, CmdsAged, InvTold;
    var t := BeginRelease(s, n, closeFd);
    QueuedPoolFrame(s.pool, s.cmds, n, t.pool[n]);
    assert t.pool - {n} == s.pool - {n};
    SamePool(s.pool - {n}, s.seqAlloc);
    AgedRefl(s.cmds);
  }

  /** The oldest command of a reply list comes into hand. */
  function Dequeue(s: State, n: string): State
    requires n in s.pool && s.pool[n].replyList != [] && s.pool[n].replyList[0] in s.cmds
  {
    var c := s.pool[n].replyList[0];
    s.(cmds := s.cmds[c := s.cmds[c].(home := InHand)], inHand := s.inHand + {c},
       pool := s.pool[n := s.pool[n].(replyList := s.pool[n].replyList[1..])])
  }

  lemma DequeueKeeps(s: State, n: string)
    requires Inv(s) && n in s.pool && s.pool[n].replyList != []
    ensures s.pool[n].replyList[0] in s.cmds && s.cmds[s.pool[n].replyList[0]].home == Queued(n)
    ensures Inv(Dequeue(s, n)) && Refusing(Dequeue(s, n).pool) == Refusing(s.pool)
  {
    hide InvParked, InvDelayed, InvTimer, InvPool, InvQueued, InvTold;
    QueuedPop(s.pool, s.cmds, n);
    var c := s.pool[n].replyList[0];
    ParkedFrame(s.slotPending, s.cmds, c, s.cmds[c].(home := InHand));
    DelayedFrame(s.timerPending, s.cmds, c, s.cmds[c].(home := InHand));
    ToldFrame(s.notices, s.cmds, c, s.cmds[c].(home := InHand));
    PoolPop(s, n);
  }

  lemma QueuedPop(pool: Pool, cmds: Cmds, n: string)
    requires InvQueued(pool, cmds) && n in pool && pool[n].replyList != []
    ensures pool[n].replyList[0] in cmds && cmds[pool[n].replyList[0]].home == Queued(n)
    ensures var c := pool[n].replyList[0];
      InvQueued(pool[n := pool[n].(replyList := pool[n].replyList[1..])], cmds[c := cmds[c].(home := InHand)])
  {
  }

  lemma PoolPop(s: State, n: string)
    requires InvPool(s.pool, s.timerConns, s.seqAlloc) && n in s.pool && s.pool[n].replyList != []
    ensures InvPool(s.pool[n := s.pool[n].(replyList := s.pool[n].replyList[1..])], s.timerConns, s.seqAlloc)
  {
  }

  /** The oldest command was taken off a reply list and completed: only that list and that command have
      changed, apart from what the callback did. */
  ghost predicate Dropped(s: State, t: State, n: string, code: Code) {
    && n in s.pool && s.pool[n].replyList != [] && n in t.pool
    && Grown(s.pool[n].(replyList := s.pool[n].replyList[1..]), t.pool[n])
    && Elsewhere(s, t, n, {s.pool[n].replyList[0]})
    && (var c := s.pool[n].replyList[0];
        && c in s.cmds && c in t.cmds && s.cmds[c].home == Queued(n)
        && t.cmds[c] == s.cmds[c].Completed(code, s.completions).(destroyed := true))
    && s.completions < t.completions && t.budget <= s.budget
    && TableProgress(s.pool, s.history, t.history, {})
  }

  /** The oldest command was taken off a reply list and handed over. */
  lemma DequeuedElsewhere(s: State, n: string, t: State)
    requires Inv(s) && n in s.pool && s.pool[n].replyList != [] && s.pool[n].replyList[0] in s.cmds && !MayGo(s.pool[n])
    requires s.cmds[s.pool[n].replyList[0]].home == Queued(n)
    requires Progress(Dequeue(s, n), t, {s.pool[n].replyList[0]}, {})
    ensures Elsewhere(s, t, n, {s.pool[n].replyList[0]}) && TableProgress(s.pool, s.history, t.history, {})
    ensures n in t.pool && Grown(s.pool[n].(replyList := s.pool[n].replyList[1..]), t.pool[n])
  {
    hide InvParked, InvDelayed, InvTimer, InvPool, InvQueued, InvOk, ListsProgress, TableProgress, PoolProgress,
        CmdsAged, InvTold;
    var c, u := s.pool[n].replyList[0], Dequeue(s, n);
    ListsSame(u, s, t, t);
    AgedOne(s.cmds, c, u.cmds[c]);
    AgedTrans(s.cmds, u.cmds, t.cmds);
    PoolWithout(u.pool, u.seqAlloc, t.pool, n);
    assert u.pool - {n} == s.pool - {n};
    assert u.inHand - {c} == s.inHand;
    DequeueGrown(s, n, t);
    TableSame(u.pool, s.pool, s.history, t.history);
    TableWeaken(s.pool, s.history, t.history, {n});
  }

  lemma DequeueProgress(s: State, n: string, code: Code, t: State)
    requires Inv(s) && n in s.pool && s.pool[n].replyList != [] && s.pool[n].replyList[0] in s.cmds && !MayGo(s.pool[n])
    requires Progress(Dequeue(s, n), t, {s.pool[n].replyList[0]}, {})
    requires var c := s.pool[n].replyList[0];
      && s.cmds[c].home == Queued(n) && c in t.cmds
      && t.cmds[c] == Dequeue(s, n).cmds[c].Completed(code, s.completions).(destroyed := true)
    requires s.completions < t.completions
    ensures Dropped(s, t, n, code) && t.budget <= s.budget
  {
    hide Inv, ListsProgress, TableProgress, PoolProgress, CmdsProgress, CmdsAged;
    DequeuedElsewhere(s, n, t);
  }

  lemma DequeueGrown(s: State, n: string, t: State)
    requires n in s.pool && s.pool[n].replyList != [] && s.pool[n].replyList[0] in s.cmds && !MayGo(s.pool[n])
    requires Progress(Dequeue(s, n), t, {s.pool[n].replyList[0]}, {})
    ensures n in t.pool && Grown(s.pool[n].(replyList := s.pool[n].replyList[1..]), t.pool[n])
  {
    hide ListsProgress, TableProgress, CmdsProgress, CountersProgress, CmdsAged, Refusing;
  }

  /** The context is dropped and the operation gets a new sequence. */
  function EndRelease(s: State, n: string, sequence: nat, next: nat): State
    requires n in s.pool
  {
    s.(pool := s.pool[n := s.pool[n].(context := None, sequence := sequence)], seqAlloc := next)
  }

  lemma EndReleaseKeeps(s: State, n: string, sequence: nat, next: nat)
    requires Inv(s) && n in s.pool && s.pool[n].status == DISCONNECTED
    requires s.seqAlloc <= sequence < next && 0 < sequence
    ensures Inv(EndRelease(s, n, sequence, next)) && Elsewhere(s, EndRelease(s, n, sequence, next), n, {})
  {
    hide InvParked, InvDelayed, InvTimer, InvQueued, InvHands, InvOk, PoolProgress, CmdsAged, InvTold;
    var t := EndRelease(s, n, sequence, next);
    QueuedPoolFrame(s.pool, s.cmds, n, t.pool[n]);
    assert t.pool - {n} == s.pool - {n};
    SamePool(s.pool - {n}, s.seqAlloc);
    AgedRefl(s.cmds);
  }

  /** A released connection leaves the pool. */
  lemma EraseKeeps(s: State, n: string)
    requires Inv(s) && n in s.pool && s.pool[n].replyList == []
    ensures Inv(s.(pool := s.pool - {n}))
  {
    hide InvParked, InvDelayed, InvTimer, InvHands, InvOk, InvTold;
  }

  /** A command was called back with a code and destroyed. */
  predicate Answered(v: CmdState, w: CmdState, code: Code) {
    w == v.Completed(code, w.finishedAt).(destroyed := true)
  }

  lemma AnsweredStays(v: CmdState, w: CmdState, code: Code, x: CmdState)
    requires Answered(v, w, code) && Aged(w, x)
    ensures x == w
  {
  }

  /** The commands of a list were completed with one code, in the order of the list. */
  ghost predicate CompletedInOrder(s: State, t: State, list: seq<CmdId>, code: Code) {
    && (forall i :: 0 <= i < |list| ==>
          && list[i] in s.cmds && list[i] in t.cmds
          && Answered(s.cmds[list[i]], t.cmds[list[i]], code)
          && s.completions <= t.cmds[list[i]].finishedAt < t.completions)
    && (forall i, j :: 0 <= i < j < |list| ==> t.cmds[list[i]].finishedAt < t.cmds[list[j]].finishedAt)
  }

  lemma CompletedNone(s: State, t: State, list: seq<CmdId>, code: Code)
    ensures CompletedInOrder(s, t, list[..0], code)
  {
  }

  /** What is completed stays so. */
  lemma CompletedKept(s: State, t: State, u: State, list: seq<CmdId>, code: Code)
    requires CompletedInOrder(s, t, list, code) && CmdsAged(t.cmds, u.cmds) && t.completions <= u.completions
    ensures CompletedInOrder(s, u, list, code)
  {
    hide Answered, Aged;
    forall i | 0 <= i < |list| ensures list[i] in u.cmds && u.cmds[list[i]] == t.cmds[list[i]] {
      AnsweredStays(s.cmds[list[i]], t.cmds[list[i]], code, u.cmds[list[i]]);
    }
  }

  /** One more command is completed after those of the list. */
  lemma CompletedOne(s: State, t: State, list: seq<CmdId>, c: CmdId, code: Code, when: nat)
    requires CompletedInOrder(s, t.(completions := when), list, code) && s.completions <= when < t.completions
    requires c in s.cmds && c in t.cmds && Answered(s.cmds[c], t.cmds[c], code) && t.cmds[c].finishedAt == when
    ensures CompletedInOrder(s, t, list + [c], code)
  {
    hide Answered;
  }

  /** The next command of the list is completed after those before it. */
  lemma CompletedNext(s: State, t: State, u: State, list: seq<CmdId>, k: nat, code: Code)
    requires k < |list| && CompletedInOrder(s, t, list[..k], code) && CmdsAged(t.cmds, u.cmds)
    requires list[k] in s.cmds && list[k] in t.cmds && t.cmds[list[k]] == s.cmds[list[k]]
    requires list[k] in u.cmds && u.cmds[list[k]] == t.cmds[list[k]].Completed(code, t.completions).(destroyed := true)
    requires s.completions <= t.completions < u.completions
    ensures CompletedInOrder(s, u, list[..k + 1], code)
  {
    hide CompletedInOrder, CmdsAged;
    CompletedKept(s, t, u.(completions := t.completions), list[..k], code);
    CompletedOne(s, u, list[..k], list[k], code, t.completions);
    assert list[..k + 1] == list[..k] + [list[k]];
  }

  /** The commands still queued are untouched. */
  lemma QueueFrozen(t: State, u: State, n: string, c: CmdId, take: set<CmdId>)
    requires Elsewhere(t, u, n, take) && Inv(u) && c !in take
    requires c in t.cmds && n in u.pool && c in u.pool[n].replyList
    ensures c in u.cmds && u.cmds[c] == t.cmds[c]
  {
    hide ListsProgress, TableProgress, PoolProgress, InvParked, InvDelayed, InvPool, InvHands, InvOk, InvTimer,
        CmdsAged, InvTold;
  }

  /** In the course of emptying a reply list: the first k commands of the list were completed in order,
      no other command changed but those that lost a connection, and the list is worked off up to a limit. */
  ghost predicate Emptying(s: State, t: State, n: string, list: seq<CmdId>, limit: nat, k: nat, code: Code) {
    && k <= limit <= |list|
    && Elsewhere(s, t, n, set c <- list[..limit])
    && CompletedInOrder(s, t, list[..k], code)
    && (forall i :: k <= i < |list| ==> list[i] in s.cmds && list[i] in t.cmds && t.cmds[list[i]] == s.cmds[list[i]])
    && s.completions <= t.completions
  }

  lemma EmptyingBegins(s: State, t: State, n: string, limit: nat, code: Code)
    requires Inv(s) && n in s.pool && limit <= |s.pool[n].replyList|
    requires Elsewhere(s, t, n, {}) && t.cmds == s.cmds && t.completions == s.completions
    ensures Emptying(s, t, n, s.pool[n].replyList, limit, 0, code)
    ensures NoDup(s.pool[n].replyList)
    ensures forall c <- s.pool[n].replyList :: c in s.cmds && s.cmds[c].home == Queued(n)
  {
    hide Inv, Elsewhere, CompletedInOrder;
    var list := s.pool[n].replyList;
    QueueFacts(s, n);
    CompletedNone(s, t, list, code);
    ElsewhereWeaken(s, t, n, set c <- list[..limit]);
  }

  lemma EmptyingNext(s: State, t: State, u: State, n: string, list: seq<CmdId>, limit: nat, k: nat, code: Code)
    requires Emptying(s, t, n, list, limit, k, code) && k < limit && NoDup(list)
    requires Inv(u) && Elsewhere(t, u, n, {list[k]}) && n in u.pool && list[k + 1..] <= u.pool[n].replyList
    requires t.cmds[list[k]].home != Done && list[k] in u.cmds && t.completions < u.completions
    requires u.cmds[list[k]] == t.cmds[list[k]].Completed(code, t.completions).(destroyed := true)
    ensures Emptying(s, u, n, list, limit, k + 1, code)
  {
    hide Inv, Elsewhere, CompletedInOrder, CmdsProgress, CmdsAged;
    ElsewhereCmds(t, u, n, {list[k]});
    CompletedNext(s, t, u, list, k, code);
    assert list[..limit][k] == list[k];
    ElsewhereTrans(s, t, u, n, set c <- list[..limit], {list[k]});
    forall i | k < i < |list| ensures list[i] in u.cmds && u.cmds[list[i]] == s.cmds[list[i]] {
      assert list[k + 1..][i - k - 1] == list[i] == u.pool[n].replyList[i - k - 1];
      QueueFrozen(t, u, n, list[i], {list[k]});
    }
  }

  lemma ElsewhereCmds(s: State, t: State, n: string, take: set<CmdId>)
    requires Elsewhere(s, t, n, take)
    ensures CmdsProgress(s.cmds, t.cmds, take) && CmdsAged(s.cmds, t.cmds) && s.completions <= t.completions
  {
  }

  lemma EmptyingEnds(s: State, t: State, n: string, list: seq<CmdId>, code: Code)
    requires Emptying(s, t, n, list, |list|, |list|, code)
    ensures Elsewhere(s, t, n, set c <- list) && CompletedInOrder(s, t, list, code)
  {
    hide Elsewhere, CompletedInOrder;
    assert list[..|list|] == list;
  }

  lemma EmptyingFacts(s: State, t: State, n: string, list: seq<CmdId>, limit: nat, k: nat, code: Code)
    requires Emptying(s, t, n, list, limit, k, code)
    ensures Elsewhere(s, t, n, set c <- list[..limit]) && CompletedInOrder(s, t, list[..k], code)
    ensures k < |list| ==> list[k] in s.cmds && list[k] in t.cmds && t.cmds[list[k]] == s.cmds[list[k]]
  {
  }

  lemma NoDupAt(list: seq<CmdId>, i: nat, j: nat)
    requires NoDup(list) && i < |list| && j < |list| && list[i] == list[j]
    ensures i == j
  {
  }

  /** A connection whose commands were completed leaves the pool after one more callback. */
  lemma ReleaseProgress(s: State, t: State, u: State, n: string, list: seq<CmdId>)
    requires Elsewhere(s, t, n, set c <- list) && CompletedInOrder(s, t, list, CONNECTION) && Progress(t, u, {}, {})
    requires forall c <- list :: c in s.cmds && s.cmds[c].home.Queued?
    requires n in t.pool && t.pool[n].status == DISCONNECTED && t.pool[n].replyList == [] && Inv(u)
    ensures var v := u.(pool := u.pool - {n});
      Inv(v) && Progress(s, v, {}, {n}) && CompletedInOrder(s, v, list, CONNECTION)
    ensures n in u.pool && u.budget <= t.budget
  {
    hide Inv, ListsProgress, TableProgress, CmdsProgress, CmdsAged, CompletedInOrder, Refusing;
    ReleasedStays(t, u, n);
    ProgressElsewhere(t, u, n);
    ElsewhereTrans(s, t, u, n, set c <- list, {});
    CompletedKept(s, t, u, list, CONNECTION);
    EraseKeeps(u, n);
    EraseProgress(s, n, list, u);
    AgedRefl(u.cmds);
    CompletedKept(s, u, u.(pool := u.pool - {n}), list, CONNECTION);
  }

  lemma ReleasedStays(t: State, u: State, n: string)
    requires Progress(t, u, {}, {}) && n in t.pool && t.pool[n].status == DISCONNECTED
    ensures n in u.pool && u.pool[n] == t.pool[n]
  {
    hide ListsProgress, TableProgress, CmdsProgress, CountersProgress, CmdsAged, Refusing;
  }

  lemma EraseProgress(s: State, n: string, list: seq<CmdId>, t: State)
    requires Elsewhere(s, t, n, set c <- list) && CompletedInOrder(s, t, list, CONNECTION)
    requires forall c <- list :: c in s.cmds && s.cmds[c].home.Queued?
    ensures Progress(s, t.(pool := t.pool - {n}), {}, {n})
  {
    hide ListsProgress, TableProgress, PoolProgress, CmdsAged;
    ListsSame(s, s, t, t.(pool := t.pool - {n}));
    DropProgress(s.pool, s.seqAlloc, n, t.pool - {n});
    forall c <- s.cmds ensures t.cmds[c] == s.cmds[c] || Lost(s.cmds[c], t.cmds[c]) {
      if c in list {
        var i :| 0 <= i < |list| && list[i] == c;
      }
    }
  }

  lemma DropProgress(pool: Pool, alloc: nat, n: string, pool': Pool)
    requires PoolProgress(pool - {n}, alloc, pool', {}) && n !in pool'
    ensures PoolProgress(pool, alloc, pool', {n})
  {
    forall m <- pool | m != n ensures m in pool - {n} && (pool - {n})[m] == pool[m] {
    }
  }

  // ---- The environment's allowances, and when a call surely ends.

  /** The flag and the environment's allowances are free to change. */
  lemma AllowanceKeeps(s: State, t: State)
    requires Inv(s) && t == s.(flag := t.flag, budget := t.budget, fuel := t.fuel, halted := t.halted)
    requires t.budget <= s.budget && t.fuel <= s.fuel && (s.halted ==> t.halted)
    requires (t.flag == VALID ==> s.flag == VALID) && (t.halted ==> s.halted || t.fuel == 0)
    ensures Inv(t) && Progress(s, t, {}, {})
  {
    hide InvParked, InvDelayed, InvQueued, InvPool, InvTimer, InvHands, InvOk, PoolProgress, CmdsAged, InvTold;
    SamePool(s.pool, s.seqAlloc);
    AgedRefl(s.cmds);
  }

  /** The user is told something. */
  lemma NoticeKeeps(s: State, x: Notice)
    requires Inv(s) && Tellable(s, x)
    ensures Inv(s.(notices := s.notices + [x])) && Progress(s, s.(notices := s.notices + [x]), {}, {})
  {
    hide InvParked, InvDelayed, InvQueued, InvPool, InvTimer, InvHands, InvOk, InvTold, PoolProgress, CmdsAged;
    ToldNext(s, x);
    SamePool(s.pool, s.seqAlloc);
    AgedRefl(s.cmds);
  }

  lemma ToldNext(s: State, x: Notice)
    requires InvTold(s.notices, s.cmds) && Tellable(s, x)
    ensures InvTold(s.notices + [x], s.cmds)
  {
  }

  /** After the callback has run, the user has been told. */
  lemma ToldSince(s: State, t: State, c: CmdId, code: Code)
    requires s.notices + [Told(c, code)] <= t.notices && c in t.cmds && t.cmds[c].errorCode == code
    ensures ToldOf(t, c)
  {
    assert t.notices[|s.notices|] == Told(c, code);
  }

  /** When a command is done, the user has been told of it, if it is his. */
  lemma FinishTells(s: State, c: CmdId, code: Code, t: State)
    requires Inv(s) && c in s.inHand && c in s.cmds && c in t.cmds && t.cmds[c] == Complete(s, c, code).cmds[c]
    requires s.cmds[c].callback && s.cmds[c].kind == User ==> s.notices + [Told(c, code)] <= t.notices
    ensures ToldOf(t, c)
  {
    hide Inv;
    CompleteTells(s, c, code);
    if s.cmds[c].Rings() {
      ToldSince(s, t, c, code);
    }
  }

  /** The user was told this since. */
  ghost predicate Noticed(s: State, t: State, x: Notice) {
    exists i :: |s.notices| <= i < |t.notices| && t.notices[i] == x
  }

  lemma NoticesGrow(s: State, t: State, take: set<CmdId>, drop: set<string>)
    requires Progress(s, t, take, drop)
    ensures s.notices <= t.notices
  {
    hide ListsProgress, TableProgress, CmdsProgress, CmdsAged, PoolProgress;
  }

  lemma NoticedNext(s: State, t: State, u: State, x: Notice)
    requires |s.notices| <= |t.notices| && t.notices + [x] <= u.notices
    ensures Noticed(s, u, x)
  {
    assert u.notices[|t.notices|] == x;
  }

  lemma ElsewhereNotices(s: State, t: State, n: string, take: set<CmdId>)
    requires Elsewhere(s, t, n, take)
    ensures |s.notices| <= |t.notices|
  {
    hide ListsProgress, TableProgress, CmdsProgress, CmdsAged, PoolProgress;
  }

  lemma NoticedStays(s: State, t: State, u: State, x: Notice)
    requires t.notices <= u.notices
    ensures Noticed(s, t, x) ==> Noticed(s, u, x)
  {
    if i :| |s.notices| <= i < |t.notices| && t.notices[i] == x {
      assert u.notices[i] == x;
    }
  }

  lemma HaltProgress(s: State, t: State, take: set<CmdId>)
    requires Progress(s, t, {}, {}) && t.halted
    ensures Progress(s, t, take, {})
  {
    hide PoolProgress, ListsProgress, TableProgress, CmdsAged;
  }

  lemma PoolWeaken(pool: Pool, alloc: nat, pool': Pool, drop: set<string>)
    requires PoolProgress(pool, alloc, pool', {})
    ensures PoolProgress(pool, alloc, pool', drop)
  {
  }

  lemma TableKeeps(s: State, e: Edit)
    requires Inv(s) && e.Remove?
    ensures Inv(s.(history := s.history + [e])) && Progress(s, s.(history := s.history + [e]), {}, {e.name})
    ensures e.name in s.pool && s.pool[e.name].Refusing() ==> Progress(s, s.(history := s.history + [e]), {}, {})
  {
    hide InvParked, InvDelayed, InvQueued, InvPool, InvTimer, InvHands, InvOk, PoolProgress, CmdsAged, InvTold;
    SamePool(s.pool, s.seqAlloc);
    PoolWeaken(s.pool, s.seqAlloc, s.pool, {e.name});
    AgedRefl(s.cmds);
  }

  predicate Unhurried(s: State, t: State) {
    t.fuel == s.fuel && t.halted == s.halted
  }

  /** The slot table is in force and every pooled connection takes commands. */
  ghost predicate Settled(s: State) {
    s.flag == VALID && Refusing(s.pool) == {}
  }

  ghost predicate SettledStep(s: State, t: State) {
    Settled(s) ==> Settled(t) && t.slotPending == s.slotPending
  }

  /** The command is a slot query whose callback is still to be called. */
  predicate Asks(v: CmdState) {
    v.kind == SlotQuery && v.callback
  }

  /** Handing a command over unsettles the client only if the command is a slot query and fails. */
  ghost predicate HeldStep(s: State, t: State, c: CmdId) {
    Settled(s) && c in s.cmds ==>
      && Refusing(t.pool) == {} && t.slotPending == s.slotPending && c in t.cmds
      && t.flag == if Asks(s.cmds[c]) && t.cmds[c].home == Done then INVALID else VALID
  }

  lemma HeldSettled(s: State, t: State, c: CmdId)
    requires HeldStep(s, t, c) && c in s.cmds && s.cmds[c].kind != SlotQuery
    ensures SettledStep(s, t)
  {
    hide Refusing;
  }

  lemma HeldTrans(s: State, t: State, u: State, c: CmdId)
    requires SettledStep(s, t) && HeldStep(t, u, c) && c in s.cmds && c in t.cmds && t.cmds[c] == s.cmds[c]
    ensures HeldStep(s, u, c)
  {
    hide Refusing;
  }

  /** The command may have been changed first, and allowances spent. */
  lemma HeldSame(s: State, s': State, t: State, c: CmdId)
    requires s'.pool == s.pool && s'.flag == s.flag && s'.slotPending == s.slotPending && c in s.cmds && c in s'.cmds
    requires Asks(s'.cmds[c]) == Asks(s.cmds[c]) && HeldStep(s', t, c)
    ensures HeldStep(s, t, c)
  {
    hide Refusing;
  }

  /** A command that was put on a list, with nothing else done. */
  lemma HeldPut(s: State, t: State, c: CmdId)
    requires t.flag == s.flag && t.slotPending == s.slotPending && Refusing(t.pool) == Refusing(s.pool)
    requires c in t.cmds && t.cmds[c].home != Done
    ensures HeldStep(s, t, c)
  {
    hide Refusing;
  }

  /** A command that was called back: only the callback of a slot query marks the table invalid. */
  lemma HeldDone(s: State, s': State, t: State, c: CmdId)
    requires c in s.cmds && c in t.cmds && t.cmds[c].home == Done
    requires s'.pool == s.pool && s'.flag == s.flag && s'.slotPending == s.slotPending
    requires if Asks(s.cmds[c]) then t.pool == s'.pool && t.flag == INVALID && t.slotPending == s'.slotPending
      else SettledStep(s', t)
    ensures HeldStep(s, t, c)
  {
    hide Refusing;
  }

  lemma HeldLoose(s: State, t: State, c: CmdId)
    requires s.flag != VALID
    ensures HeldStep(s, t, c)
  {
  }

  lemma HeldStuck(s: State, t: State, n: string, c: CmdId)
    requires n in s.pool && s.pool[n].Refusing()
    ensures HeldStep(s, t, c)
  {
    RefusingHas(s.pool, n);
  }

  /** Releasing a connection that may go is ordinary progress. */
  lemma MayGoProgress(s: State, t: State, n: string)
    requires Progress(s, t, {}, {n}) && n in s.pool && MayGo(s.pool[n])
    ensures Progress(s, t, {}, {})
  {
    hide ListsProgress, TableProgress, CmdsProgress, CountersProgress, CmdsAged;
    TableRefusing(s.pool, s.history, t.history, n);
  }

  /** Progress keeps a command in hand as it is. */
  lemma HandKept(s: State, t: State, c: CmdId, drop: set<string>)
    requires Inv(s) && c in s.inHand && Progress(s, t, {}, drop)
    ensures c in s.cmds && c in t.cmds && c in t.inHand && t.cmds[c] == s.cmds[c]
  {
    hide ListsProgress, TableProgress, PoolProgress, CmdsAged;
  }

  lemma RefusingHas(pool: Pool, n: string)
    ensures n in Refusing(pool) <==> n in pool && pool[n].Refusing()
  {
  }

  /** Handing a command over does not unsettle the client. */
  lemma SubmitSettled(s: State, c: CmdId, n: string)
    requires c in s.cmds && n in s.pool
    ensures HeldStep(s, Submit(s, c, n, true), c)
  {
    assert Refusing(Submit(s, c, n, true).pool) == Refusing(s.pool);
    HeldPut(s, Submit(s, c, n, true), c);
  }

  lemma AllowancesShrink(s: State, t: State, take: set<CmdId>, drop: set<string>)
    requires Progress(s, t, take, drop)
    ensures t.budget <= s.budget && t.fuel <= s.fuel
  {
    hide ListsProgress, TableProgress, CmdsProgress, CmdsAged, PoolProgress;
  }

  lemma ReachableKept(s: State, t: State, take: set<CmdId>, drop: set<string>)
    requires Progress(s, t, take, drop)
    ensures t.env == s.env && s.seqAlloc <= t.seqAlloc
  {
    hide ListsProgress, TableProgress, CmdsProgress, CmdsAged, PoolProgress;
  }

  /** A connection that comes into the pool has a new sequence. */
  lemma FreshSequence(s: State, t: State, take: set<CmdId>, n: string)
    requires Progress(s, t, take, {})
    ensures n !in s.pool && n in t.pool ==> s.seqAlloc <= t.pool[n].sequence
  {
    hide ListsProgress, TableProgress, CmdsProgress, CmdsAged, CountersProgress, Refusing;
  }

  lemma RefusingShrinks(s: State, t: State, take: set<CmdId>, drop: set<string>)
    requires Progress(s, t, take, drop)
    ensures Refusing(t.pool) <= Refusing(s.pool)
    ensures TotalHosts(t.history) <= TotalHosts(s.history)
  {
    hide CmdsProgress, CmdsAged, TotalHosts;
    RemovalsShrink(s.history, t.history);
  }

  /** Something else first, then a command in hand is changed, and then handed over. */
  lemma ReworkThen(s: State, s1: State, c: CmdId, w: CmdState, s3: State, t: State)
    requires Progress(s, s1, {}, {}) && c in s1.cmds && s1.cmds[c].home == InHand && Advanced(s1.cmds[c], w)
    requires Progress(Rework(s1, c, w), s3, {}, {}) && Progress(s3, t, {c}, {})
    ensures Progress(s, t, {c}, {})
  {
    hide Progress;
    ProgressThen(Rework(s1, c, w), s3, t, {c}, {});
    ReworkProgress(s1, c, w, t, {});
    ProgressThen(s, s1, t, {c}, {});
  }

  lemma RerouteProgress(s: State, mid: State, c: CmdId, t: State, u: State, v: State)
    requires Progress(s, mid, {}, {}) && c in mid.cmds && mid.cmds[c].home == InHand
    requires t == Rework(mid, c, mid.cmds[c].(slot := -1)) && Progress(t, u, {}, {})
    requires Progress(u, v, {c}, {})
    ensures Progress(s, v, {c}, {})
  {
    hide Progress;
    ReworkThen(s, mid, c, mid.cmds[c].(slot := -1), u, v);
  }

  /** A refusal by a closing connection: the command forgets its slot, and waits for the table if it may be
      retried at once. */
  predicate Rerouted(v: CmdState, w: CmdState, atOnce: bool) {
    if !atOnce then w == v.(slot := -1, home := Delayed)
    else if v.ttl > 0 then w == v.(slot := -1, home := Parked)
    else Answered(v.(slot := -1), w, Code.TTL)
  }

  lemma ProgressFlag(s: State, t: State, take: set<CmdId>, drop: set<string>)
    requires Progress(s, t, take, drop)
    ensures t.flag == VALID ==> s.flag == VALID
  {
    hide CmdsProgress, PoolProgress, CmdsAged, CountersProgress;
  }

  /** A connection that may not go stays. */
  lemma StaysPooled(s: State, t: State, n: string)
    requires Progress(s, t, {}, {}) && n in s.pool && !MayGo(s.pool[n])
    ensures n in t.pool && Grown(s.pool[n], t.pool[n])
  {
    hide ListsProgress, TableProgress, CmdsProgress, CountersProgress, Refusing, CmdsAged;
  }

  lemma SettledSame(s: State, t: State, take: set<CmdId>, drop: set<string>)
    requires Progress(s, t, take, drop) && t.flag == s.flag && t.slotPending == s.slotPending
    ensures SettledStep(s, t)
  {
    hide Progress, Refusing;
    RefusingShrinks(s, t, take, drop);
  }

  lemma SettledCreate(s: State, s': State, t: State)
    requires s'.pool == s.pool && s'.flag == s.flag && s'.slotPending == s.slotPending && SettledStep(s', t)
    ensures SettledStep(s, t)
  {
  }

  lemma SubmitsGrow(s: State, t: State, take: set<CmdId>, drop: set<string>)
    requires Progress(s, t, take, drop)
    ensures forall c <- s.cmds :: c in t.cmds && s.cmds[c].submits <= t.cmds[c].submits
  {
    hide ListsProgress, TableProgress, CmdsProgress, CountersProgress, PoolProgress;
  }

  /** A command that was submitted stays submitted. */
  lemma AdvancesOn(s: State, t: State, c: CmdId)
    requires Progress(s, t, {}, {})
    ensures c in s.cmds ==> c in t.cmds && Advanced(s.cmds[c], t.cmds[c])
  {
    hide ListsProgress, TableProgress, CmdsProgress, CountersProgress, PoolProgress;
  }
}
