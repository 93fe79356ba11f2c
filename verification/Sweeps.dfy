/** What the client's entry points do to its state: taking commands off the slot-pending and the timer
    list, answers from the server, and the clock. */
module Sweeps {
  import opened Types
  import opened Connections
  import opened Timers
  import opened SlotTables
  import opened Replies
  import opened Ledger
  import opened Endings

  /** No release is going on, and just the given commands are in hand or half completed. */
  ghost predicate Holding(s: State, hand: set<CmdId>, dying: set<CmdId>) {
    && (s.halted || s.inHand == hand) && s.dying == dying
    && forall n <- s.pool :: s.pool[n].status != DISCONNECTED
  }

  /** Between two entries nothing is in hand or half completed and no release is going on. */
  ghost predicate Rest(s: State) {
    Holding(s, {}, {})
  }

  lemma HoldingKept(s: State, t: State, hand: set<CmdId>, dying: set<CmdId>, take: set<CmdId>, drop: set<string>)
    requires Holding(s, hand, dying) && Progress(s, t, take, drop)
    ensures Holding(t, hand - take, dying)
  {
    hide ListsProgress, TableProgress, CmdsProgress, Refusing, CmdsAged;
  }

  lemma HoldingElsewhere(s: State, t: State, n: string, hand: set<CmdId>, dying: set<CmdId>, take: set<CmdId>)
    requires Holding(s, hand, dying) && Elsewhere(s, t, n, take) && (n in t.pool ==> t.pool[n].status != DISCONNECTED)
    ensures Holding(t, hand, dying)
  {
    hide ListsProgress, TableProgress, CmdsProgress, Refusing, CmdsAged;
    forall m <- t.pool ensures t.pool[m].status != DISCONNECTED {
      if m != n {
        assert m in t.pool - {n};
      }
    }
  }

  /** Progress of everything but the lists; the commands in `take` may change. */
  ghost predicate Sweep(s: State, t: State, take: set<CmdId>) {
    && CountersProgress(s, t, take)
    && CmdsProgress(s.cmds, t.cmds, take)
    && CmdsAged(s.cmds, t.cmds)
    && PoolProgress(s.pool, s.seqAlloc, t.pool, {})
  }

  lemma SweepTrans(s: State, t: State, u: State, take: set<CmdId>, take': set<CmdId>)
    requires Sweep(s, t, take) && Sweep(t, u, take') && take' * s.cmds.Keys <= take
    requires s.inHand * take' <= take && t.inHand <= t.cmds.Keys && t.inHand * take' <= s.inHand
    ensures Sweep(s, u, take)
  {
    hide PoolProgress, CmdsAged;
    AgedTrans(s.cmds, t.cmds, u.cmds);
    PoolProgressTrans(s.pool, s.seqAlloc, t.pool, t.seqAlloc, u.pool, {}, {});
    var none: set<string> := {};
    assert none + none == none;
  }

  // ---- Taking a command off the slot-pending or the timer list.

  function Unpark(s: State): State
    requires s.slotPending != [] && s.slotPending[0] in s.cmds
  {
    var c := s.slotPending[0];
    s.(cmds := s.cmds[c := s.cmds[c].(home := InHand)], inHand := s.inHand + {c}, slotPending := s.slotPending[1..])
  }

  lemma UnparkKeeps(s: State)
    requires Inv(s) && s.slotPending != []
    ensures s.slotPending[0] in s.cmds && s.cmds[s.slotPending[0]].home == Parked && s.slotPending[0] !in s.inHand
    ensures Inv(Unpark(s))
  {
    hide InvDelayed, InvQueued, InvPool, InvTimer, InvTold;
    var c := s.slotPending[0];
    var w := s.cmds[c].(home := InHand);
    DelayedFrame(s.timerPending, s.cmds, c, w);
    QueuedFrame(s.pool, s.cmds, c, w);
    ToldFrame(s.notices, s.cmds, c, w);
  }

  function Undelay(s: State): State
    requires s.timerPending != [] && s.timerPending[0].cmd in s.cmds
  {
    var c := s.timerPending[0].cmd;
    s.(cmds := s.cmds[c := s.cmds[c].(home := InHand)], inHand := s.inHand + {c}, timerPending := s.timerPending[1..])
  }

  lemma UndelayKeeps(s: State)
    requires Inv(s) && s.timerPending != []
    ensures s.timerPending[0].cmd in s.cmds && s.cmds[s.timerPending[0].cmd].home == Delayed
    ensures s.timerPending[0].cmd !in s.inHand
    ensures Inv(Undelay(s))
  {
    hide InvParked, InvDelayed, InvQueued, InvPool, InvTold;
    DelayedPop(s.timerPending, s.cmds);
    var c := s.timerPending[0].cmd;
    var w := s.cmds[c].(home := InHand);
    ParkedFrame(s.slotPending, s.cmds, c, w);
    QueuedFrame(s.pool, s.cmds, c, w);
    ToldFrame(s.notices, s.cmds, c, w);
  }

  lemma DelayedPop(list: seq<Delay>, cmds: Cmds)
    requires InvDelayed(list, cmds) && list != []
    ensures list[0].cmd in cmds && cmds[list[0].cmd].home == Delayed
    ensures InvDelayed(list[1..], cmds[list[0].cmd := cmds[list[0].cmd].(home := InHand)])
  {
    var c := list[0].cmd;
    var cmds' := cmds[c := cmds[c].(home := InHand)];
    forall b <- cmds' | cmds'[b].home == Delayed ensures OnTimer(b, list[1..]) {
      var i :| 0 <= i < |list| && list[i].cmd == b;
      assert list[1..][i - 1].cmd == b;
    }
  }

  /** A command taken off one of these lists and handed over. */
  lemma TakenSweep(s: State, c: CmdId, u: State, t: State)
    requires Inv(s) && c in s.cmds && c !in s.inHand && s.cmds[c].home != Done
    requires (s.slotPending != [] && c == s.slotPending[0] && u == Unpark(s))
      || (s.timerPending != [] && c == s.timerPending[0].cmd && u == Undelay(s))
    requires Progress(u, t, {c}, {})
    ensures Sweep(s, t, {c})
  {
    hide PoolProgress, ListsProgress, TableProgress, InvParked, InvDelayed, InvQueued, InvPool, InvTimer, CmdsAged,
        InvTold;
    assert u.inHand - {c} == s.inHand;
    AgedOne(s.cmds, c, u.cmds[c]);
    AgedTrans(s.cmds, u.cmds, t.cmds);
  }

  /** Where a command can be after it was handed over, if it was not parked. */
  lemma Landed(s: State, t: State, c: CmdId)
    requires Inv(s) && Inv(t) && c in s.inHand && Progress(s, t, {c}, {}) && !t.halted
    requires t.slotPending == s.slotPending
    ensures c in t.cmds && (t.cmds[c].home == Delayed || t.cmds[c].home.Queued? || t.cmds[c].home == Done)
  {
    hide InvDelayed, InvQueued, InvPool, InvTimer, InvOk, ListsProgress, TableProgress, PoolProgress, CmdsAged,
        InvTold;
    assert c !in t.inHand;
    assert c !in s.slotPending;
    assert c !in s.asking;
  }

  // ---- What becomes of a command that is executed or retried.

  /** The name of the master of a slot. */
  function LeaderOf(h: seq<Edit>, slot: int): Option<string> {
    if 0 <= slot < SLOT_NUMBER && Replay(h, slot) != [] then Some(Replay(h, slot)[0].name) else None
  }

  /** A retry at this ttl does not wait for the timer. */
  predicate Hasty(s: State, ttl: nat) {
    || !((s.now.sec != 0 || s.now.usec != 0) && (s.env.interval.sec > 0 || s.env.interval.usec > 0))
    || ttl > TTL_MAX / 2
  }

  /** The next submission of the command is to the master of its slot, if that is connected or can be, else the
      command fails. Without a master it is submitted to some connection, or fails if there is none. */
  predicate Sent(s: State, v: CmdState, w: CmdState) {
    match LeaderOf(s.history, v.slot)
    case Some(m) =>
      if m in s.pool || m in s.env.reachable then v.submits + [m] <= w.submits else Answered(v, w, CONNECTION)
    case None => |v.submits| < |w.submits| || Answered(v, w, CONNECTION)
  }

  /** What becomes of a command that is executed wherever its slot is served. */
  predicate Executed(s: State, v: CmdState, w: CmdState) {
    if v.ttl == 0 then Answered(v, w, Code.TTL)
    else if s.flag != VALID then w == v.(home := Parked)
    else Sent(s, v, w)
  }

  /** What becomes of a command that is retried. */
  predicate RetriedAs(s: State, v: CmdState, w: CmdState) {
    if Hasty(s, v.ttl) then Executed(s, v, w) else w == v.(home := Delayed)
  }

  /** The same as far as it does not depend on the state: with some ttl left the command is never failed for
      another reason than that there is no connection. */
  predicate Tried(v: CmdState, w: CmdState) {
    if v.ttl == 0 then Answered(v, w, Code.TTL)
    else w == v.(home := Parked) || |v.submits| < |w.submits| || Answered(v, w, CONNECTION)
  }

  /** What becomes of a command that is retried on one connection. */
  predicate SentTo(s: State, v: CmdState, w: CmdState, n: string) {
    if !Hasty(s, v.ttl) then w == v.(home := Delayed)
    else if v.ttl == 0 then Answered(v, w, Code.TTL)
    else v.submits + [n] <= w.submits
  }

  /** The command was retried, in whatever state. */
  predicate Redone(v: CmdState, w: CmdState) {
    w == v.(home := Delayed) || Tried(v, w)
  }

  lemma RetriedRedone(s: State, v: CmdState, v': CmdState, w: CmdState)
    requires v == v'.(home := v.home) && RetriedAs(s, v', w)
    ensures Redone(v, w)
  {
  }

  lemma RedoneKept(v: CmdState, w: CmdState, x: CmdState)
    requires Redone(v, w) && (x == w || Lost(w, x))
    ensures Redone(v, x)
  {
  }

  /** A command that need not wait stays parked while the table is not in force. */
  lemma RetriedParks(s: State, v: CmdState, w: CmdState)
    requires RetriedAs(s, v, w) && Hasty(s, v.ttl) && v.ttl > 0 && s.flag != VALID && v.home == Parked
    ensures w == v
  {
  }

  /** Every command that was parked was retried, once or again and again. */
  ghost predicate AllRetried(s: State, t: State) {
    forall c <- s.slotPending :: c in s.cmds && c in t.cmds && Redone(s.cmds[c], t.cmds[c])
  }

  lemma AllRetriedBegins(s: State)
    requires Inv(s)
    ensures AllRetried(s, s)
  {
    hide InvDelayed, InvQueued, InvPool, InvTimer, InvHands, InvTold;
  }

  lemma RedoneTrans(v: CmdState, w: CmdState, x: CmdState)
    requires Redone(v, w) && Redone(w, x) && w.home == Parked && v.ttl > 0
    ensures Redone(v, x)
  {
  }

  /** One more parked command is retried, for the first time or not. */
  lemma AllRetriedNext(s: State, t: State, u: State)
    requires Inv(s) && AllRetried(s, t) && t.slotPending != [] && t.slotPending[0] in t.cmds
    requires t.cmds[t.slotPending[0]].home == Parked && Progress(Unpark(t), u, {t.slotPending[0]}, {})
    requires t.slotPending[0] in u.cmds && Redone(t.cmds[t.slotPending[0]], u.cmds[t.slotPending[0]])
    ensures AllRetried(s, u)
  {
    hide Inv, ListsProgress, TableProgress, PoolProgress, CmdsAged, CountersProgress, Redone;
    var c, v := t.slotPending[0], Unpark(t);
    forall b <- s.slotPending ensures b in s.cmds && b in u.cmds && Redone(s.cmds[b], u.cmds[b]) {
      if b == c {
        ParkedLives(s, b);
        RedoneTrans(s.cmds[b], t.cmds[b], u.cmds[b]);
      } else {
        assert b in v.cmds && v.cmds[b] == t.cmds[b];
        RedoneKept(s.cmds[b], t.cmds[b], u.cmds[b]);
      }
    }
  }

  lemma AllRetriedSame(s: State, s': State, t: State, t': State)
    requires AllRetried(s', t') && s'.slotPending == s.slotPending
    requires forall c <- s.slotPending :: c in s.cmds && c in s'.cmds && s'.cmds[c] == s.cmds[c]
    requires forall c <- s.slotPending :: c in t'.cmds ==> c in t.cmds && t.cmds[c] == t'.cmds[c]
    ensures AllRetried(s, t)
  {
    hide Redone;
  }

  lemma HastySame(s: State, s': State, ttl: nat)
    requires s'.now == s.now && s'.env == s.env
    ensures Hasty(s', ttl) == Hasty(s, ttl)
  {
  }

  lemma SentSame(s: State, s': State, v: CmdState, v': CmdState, w: CmdState)
    requires s'.pool.Keys == s.pool.Keys && s'.history == s.history && s'.env == s.env
    requires v == v'.(home := v.home) && Sent(s', v', w)
    ensures Sent(s, v, w)
  {
  }

  /** Only the names in the pool, the table, its flag and the environment matter. */
  lemma ExecutedSame(s: State, s': State, v: CmdState, v': CmdState, w: CmdState)
    requires s'.pool.Keys == s.pool.Keys && s'.history == s.history && s'.env == s.env && s'.flag == s.flag
    requires v == v'.(home := v.home) && Executed(s', v', w)
    ensures Executed(s, v, w)
  {
    hide Sent;
    if v.ttl > 0 && s.flag == VALID {
      SentSame(s, s', v, v', w);
    }
  }

  lemma RetriedSame(s: State, s': State, v: CmdState, v': CmdState, w: CmdState)
    requires s'.pool.Keys == s.pool.Keys && s'.history == s.history && s'.env == s.env && s'.flag == s.flag
    requires s'.now == s.now && v == v'.(home := v.home) && RetriedAs(s', v', w)
    ensures RetriedAs(s, v, w)
  {
    hide Executed;
    if Hasty(s, v.ttl) {
      ExecutedSame(s, s', v, v', w);
    }
  }

  /** Later it may lose its connection, and no more. */
  lemma ExecutedKept(s: State, v: CmdState, w: CmdState, x: CmdState)
    requires Executed(s, v, w) && (x == w || Lost(w, x))
    ensures Executed(s, v, x)
  {
  }

  lemma RetriedKept(s: State, v: CmdState, w: CmdState, x: CmdState)
    requires RetriedAs(s, v, w) && (x == w || Lost(w, x))
    ensures RetriedAs(s, v, x)
  {
    hide Executed;
    if Hasty(s, v.ttl) {
      ExecutedKept(s, v, w, x);
    }
  }

  lemma ExecutedTried(s: State, v: CmdState, w: CmdState)
    requires Executed(s, v, w)
    ensures Tried(v, w)
  {
  }

  /** As settled as at the start, with the same table, and the same endpoints that are connected or can be. */
  ghost predicate Serene(s: State, t: State) {
    && Settled(t) && t.history == s.history && t.env == s.env
    && s.pool.Keys <= t.pool.Keys <= s.pool.Keys + s.env.reachable
  }

  lemma SereneExecuted(s: State, t: State, v: CmdState, w: CmdState)
    requires Serene(s, t) && Settled(s) && Executed(t, v, w)
    ensures Executed(s, v, w)
  {
    hide Refusing;
  }

  /** A command that comes into hand and is handed over leaves the client settled if no query fails. */
  lemma SereneNext(s: State, t: State, v: State, u: State, c: CmdId)
    requires Serene(s, t) && v.pool == t.pool && v.history == t.history && v.env == t.env && v.flag == t.flag
    requires Progress(v, u, {c}, {}) && HeldStep(v, u, c) && c in v.cmds
    ensures u.flag == VALID ==> Serene(s, u)
    ensures u.flag != VALID ==> u.flag == INVALID && Asks(v.cmds[c]) && c in u.cmds && u.cmds[c].home == Done
  {
    hide ListsProgress, CmdsProgress, CmdsAged, Refusing;
    NothingForgotten(v, u, {c});
    NothingReleased(v, u, {c});
  }

  lemma NothingForgotten(s: State, t: State, take: set<CmdId>)
    requires Progress(s, t, take, {}) && Refusing(s.pool) == {}
    ensures t.history == s.history
  {
    hide ListsProgress, CmdsProgress, CmdsAged, PoolProgress, Refusing;
    if |t.history| > |s.history| {
      RefusingHas(s.pool, t.history[|s.history|].name);
    }
  }

  lemma NothingReleased(s: State, t: State, take: set<CmdId>)
    requires Progress(s, t, take, {}) && Refusing(s.pool) == {}
    ensures s.pool.Keys <= t.pool.Keys <= s.pool.Keys + s.env.reachable && t.env == s.env
  {
    hide ListsProgress, CmdsProgress, CmdsAged, TableProgress, Refusing;
    forall n <- s.pool ensures n in t.pool {
      RefusingHas(s.pool, n);
    }
  }

  // ---- The drain of the slot-pending list.

  /** A place a retried command ends in while the slot table is in force. */
  predicate Placed(home: Home) {
    home == Delayed || home.Queued? || home == Done
  }

  /** The drain has retried the first k commands of the list, and the others wait as they did. */
  ghost predicate Retried(s: State, t: State, list: seq<CmdId>, k: nat) {
    && Unhurried(s, t) && t.now == s.now && t.env == s.env && k <= |list| && t.slotPending == list[k..]
    && (forall i :: 0 <= i < k ==> list[i] in t.cmds && Placed(t.cmds[list[i]].home))
    && (forall i :: k <= i < |list| ==> list[i] in s.cmds && list[i] in t.cmds && t.cmds[list[i]] == s.cmds[list[i]])
  }

  lemma RetriedNone(s: State)
    requires Inv(s)
    ensures Retried(s, s, s.slotPending, 0)
  {
    hide InvDelayed, InvQueued, InvPool, InvTimer, InvOk, InvHands, InvTold;
  }

  /** One more command is retried, and ends in a reply list, in the timer list or done. */
  lemma DrainStep(s: State, t: State, u: State, list: seq<CmdId>, k: nat)
    requires Retried(s, t, list, k) && k < |list| && NoDup(list) && !s.halted
    requires Inv(t) && Inv(u) && list[k] in t.cmds && t.cmds[list[k]].home == Parked
    requires Progress(Unpark(t), u, {list[k]}, {}) && Inv(Unpark(t))
    requires Unhurried(t, u) && u.slotPending == Unpark(t).slotPending
    ensures Retried(s, u, list, k + 1)
  {
    hide Inv, ListsProgress, TableProgress, PoolProgress, CmdsAged;
    var v := Unpark(t);
    assert v.slotPending == list[k + 1..];
    Landed(v, u, list[k]) by {
      assert list[k] in v.inHand;
    }
    forall i | 0 <= i < |list| && i != k
      ensures list[i] in u.cmds && (u.cmds[list[i]] == t.cmds[list[i]] || Lost(t.cmds[list[i]], u.cmds[list[i]]))
    {
      assert list[i] != list[k];
      assert list[i] in v.cmds;
    }
    forall i | k < i < |list| ensures u.cmds[list[i]] == s.cmds[list[i]] {
      ParkedStays(t, u, list, k, i);
    }
  }

  lemma ParkedStays(t: State, u: State, list: seq<CmdId>, k: nat, i: nat)
    requires Inv(t) && k < i < |list| && t.slotPending == list[k..]
    requires list[i] in t.cmds && list[i] in u.cmds
    requires u.cmds[list[i]] == t.cmds[list[i]] || Lost(t.cmds[list[i]], u.cmds[list[i]])
    ensures u.cmds[list[i]] == t.cmds[list[i]]
  {
    hide InvDelayed, InvQueued, InvPool, InvTimer, InvOk, InvHands, InvTold;
    assert t.slotPending[i - k] == list[i];
    assert list[i] in t.slotPending;
  }

  /** A command that was there at the start and is parked now was parked then. */
  lemma ParkedOld(s: State, t: State, c: CmdId)
    requires Inv(s) && Inv(t) && Sweep(s, t, set b <- s.slotPending) && c in t.slotPending && c in s.cmds
    ensures c in s.slotPending
  {
    hide InvDelayed, InvQueued, InvPool, InvTimer, InvOk, InvHands, PoolProgress, CmdsAged, InvTold;
  }

  /** One more parked command is taken off and handed over. */
  lemma SweepNext(s: State, t: State, u: State, c: CmdId)
    requires Inv(s) && Inv(t) && Sweep(s, t, set b <- s.slotPending) && c in t.slotPending && Sweep(t, u, {c})
    ensures Sweep(s, u, set b <- s.slotPending)
  {
    hide Inv, Sweep;
    HandsKnown(s);
    HandsKnown(t);
    ParkedKnown(t, c);
    if c in s.cmds {
      ParkedOld(s, t, c);
    }
    SweepTrans(s, t, u, set b <- s.slotPending, {c});
  }

  lemma HandsKnown(s: State)
    requires Inv(s)
    ensures s.inHand <= s.cmds.Keys && s.dying <= s.cmds.Keys
  {
    hide InvParked, InvDelayed, InvQueued, InvPool, InvTimer, InvOk, InvTold;
  }

  lemma ParkedKnown(s: State, c: CmdId)
    requires Inv(s) && c in s.slotPending
    ensures c in s.cmds && s.cmds[c].home == Parked && c !in s.inHand
    ensures NoDup(s.slotPending)
  {
    hide InvDelayed, InvQueued, InvPool, InvTimer, InvOk, InvTold;
  }

  /** The flag, the table and the environment's allowances are free to change. */
  lemma SweepSame(s: State, t: State)
    requires Inv(s) && t == s.(flag := t.flag, fuel := t.fuel, halted := t.halted, history := t.history)
    requires t.fuel <= s.fuel && (s.halted ==> t.halted)
    requires t.halted ==> s.halted || t.fuel == 0
    ensures Inv(t) && Sweep(s, t, set c <- s.slotPending)
  {
    hide PoolProgress, InvDelayed, InvQueued, InvPool, InvTimer, InvOk, CmdsAged, InvTold;
    SamePool(s.pool, s.seqAlloc);
    AgedRefl(s.cmds);
  }

  lemma SweepStop(s: State, t: State, t': State, take: set<CmdId>)
    requires Sweep(s, t, take) && Inv(t) && t' == t.(fuel := t'.fuel, halted := t'.halted)
    requires t'.fuel <= t.fuel && (t.halted ==> t'.halted)
    requires t'.halted ==> t.halted || t'.fuel == 0
    ensures Inv(t') && Sweep(s, t', take)
  {
    hide PoolProgress, CmdsProgress, InvParked, InvHands, InvDelayed, InvQueued, InvPool, InvTimer, InvOk,
        CmdsAged, InvTold;
  }

  lemma RetriedAt(s: State, t: State, list: seq<CmdId>, k: nat)
    requires Retried(s, t, list, k)
    ensures t.slotPending == [] ==> k == |list|
    ensures t.slotPending != [] ==> k < |list| && t.slotPending[0] == list[k]
    ensures t.slotPending != [] ==> list[k] in s.cmds && list[k] in t.cmds && t.cmds[list[k]] == s.cmds[list[k]]
    ensures t.now == s.now && t.env == s.env && Unhurried(s, t)
  {
  }

  /** A command behind position f of the slot-pending list is retried at once. */
  ghost predicate HastyAfter(s: State, f: nat) {
    exists j :: f < j < |s.slotPending| && s.slotPending[j] in s.cmds && Hasty(s, s.cmds[s.slotPending[j]].ttl)
  }

  /** The table is to be asked for, or has been, in the middle of the drain, and a parked command does not
      have to wait for the timer: it is parked again as soon as it is retried. */
  ghost predicate Spinning(s: State) {
    && s.flag != VALID
    && exists i :: 0 <= i < |s.slotPending| && s.slotPending[i] in s.cmds && Hasty(s, s.cmds[s.slotPending[i]].ttl)
  }

  /** The command is a slot query, and has failed. */
  ghost predicate QueryFailed(s: State, t: State, c: CmdId) {
    c in s.cmds && s.cmds[c].kind == SlotQuery && s.cmds[c].given && c in t.cmds && t.cmds[c].home == Done
  }

  /** The first k commands of the list were retried as in s, and wait in a reply list or for the timer or are
      done. */
  ghost predicate Routed(s: State, t: State, list: seq<CmdId>, k: nat) {
    forall i :: 0 <= i < k && i < |list| ==>
      && list[i] in s.cmds && list[i] in t.cmds
      && Placed(t.cmds[list[i]].home) && RetriedAs(s, s.cmds[list[i]], t.cmds[list[i]])
  }

  /** A command that is parked comes into hand and is handed over. */
  lemma RoutedKept(s: State, t: State, u: State, list: seq<CmdId>, k: nat)
    requires Routed(s, t, list, k) && t.slotPending != [] && t.slotPending[0] in t.cmds
    requires t.cmds[t.slotPending[0]].home == Parked && Progress(Unpark(t), u, {t.slotPending[0]}, {})
    ensures Routed(s, u, list, k)
  {
    hide ListsProgress, TableProgress, PoolProgress, CmdsAged, CountersProgress, RetriedAs;
    var v := Unpark(t);
    forall i | 0 <= i < k && i < |list|
      ensures list[i] in u.cmds && Placed(u.cmds[list[i]].home)
      ensures RetriedAs(s, s.cmds[list[i]], u.cmds[list[i]])
    {
      assert list[i] in v.cmds && v.cmds[list[i]] == t.cmds[list[i]];
      RetriedKept(s, s.cmds[list[i]], t.cmds[list[i]], u.cmds[list[i]]);
    }
  }

  lemma RoutedNext(s: State, t: State, u: State, list: seq<CmdId>, k: nat)
    requires Routed(s, t, list, k) && t.slotPending != [] && t.slotPending[0] in t.cmds
    requires t.cmds[t.slotPending[0]].home == Parked && Progress(Unpark(t), u, {t.slotPending[0]}, {})
    requires k < |list| && list[k] == t.slotPending[0] && list[k] in s.cmds && t.cmds[list[k]] == s.cmds[list[k]]
    requires list[k] in u.cmds && Placed(u.cmds[list[k]].home) && RetriedAs(t, t.cmds[list[k]], u.cmds[list[k]])
    requires Serene(s, t) && Settled(s) && t.now == s.now
    ensures Routed(s, u, list, k + 1)
  {
    hide Progress, Serene, Settled, Executed;
    RoutedKept(s, t, u, list, k);
    if Hasty(t, t.cmds[list[k]].ttl) {
      SereneExecuted(s, t, t.cmds[list[k]], u.cmds[list[k]]);
    }
    SereneEnv(s, t);
  }

  lemma SereneEnv(s: State, t: State)
    requires Serene(s, t)
    ensures t.env == s.env && Settled(t)
  {
    hide Settled;
  }

  /** The query at `failed` has failed; the commands behind it that were retried since wait for the timer. */
  ghost predicate Waning(s: State, t: State, list: seq<CmdId>, k: nat, failed: nat) {
    && failed < k && t.flag == INVALID && Retried(s, t, list, k) && QueryFailed(s, t, list[failed])
    && forall i :: failed < i < k ==>
         list[i] in s.cmds && list[i] in t.cmds && t.cmds[list[i]] == s.cmds[list[i]].(home := Delayed)
  }

  /** In the course of a drain that started in s with the table in force and no connection closing. Until a
      slot query fails the table stays in force. From then on commands that need not wait for the timer are
      parked again and again, and the others join the timer list. */
  ghost predicate Draining(s: State, t: State, retried: seq<CmdId>, failed: nat) {
    var list := s.slotPending;
    && failed <= |list|
    && if failed < |list| && HastyAfter(s, failed) then Spinning(t) && QueryFailed(s, t, list[failed])
       else retried <= list && if failed < |list| then Waning(s, t, list, |retried|, failed)
       else Settled(t) && Retried(s, t, list, |retried|)
  }

  /** What has become of the commands so far: those up to a query that has failed were retried as in s. */
  ghost predicate Routing(s: State, t: State, retried: seq<CmdId>, failed: nat) {
    && Routed(s, t, s.slotPending, if failed < |s.slotPending| then failed + 1 else |retried|)
    && (failed >= |s.slotPending| ==> Serene(s, t))
  }

  /** How a drain ends that started in s with the table in force and no connection closing: it does, with
      every command retried once, unless a slot query fails with a command behind it that is retried at
      once. */
  ghost predicate DrainOutcome(s: State, t: State, retried: seq<CmdId>, failed: nat) {
    var list := s.slotPending;
    && failed <= |list| && (failed < |list| ==> QueryFailed(s, t, list[failed]))
    && Routed(s, t, list, if failed < |list| then failed + 1 else |list|)
    && (t.halted <==> failed < |list| && HastyAfter(s, failed))
    && (!t.halted ==>
          && retried == list && t.slotPending == [] && Unhurried(s, t)
          && t.flag == (if failed < |list| then INVALID else VALID)
          && (forall i :: 0 <= i < |list| ==> list[i] in t.cmds && Placed(t.cmds[list[i]].home))
          && (forall i :: failed < i < |list| ==>
                list[i] in s.cmds && t.cmds[list[i]] == s.cmds[list[i]].(home := Delayed)))
  }

  /** The parked commands were drained. */
  ghost predicate Drained(s: State, t: State) {
    exists retried: seq<CmdId>, failed: nat :: DrainOutcome(s, t, retried, failed)
  }

  /** A slot table has arrived, and is in force. */
  function TableArrived(s: State, elements: seq<Option<Reply>>, rctx: Option<Peer>): State {
    s.(flag := VALID, history := s.history + [Edit.Rebuild(elements, rctx)])
  }

  /** A slot has got a new master. */
  function Assigned(s: State, slot: nat, key: Key): State {
    s.(history := s.history + [Edit.Moved(slot, key)])
  }

  /** A command of that slot that need not wait is submitted to the new master next. */
  lemma MovedSends(s: State, slot: nat, key: Key, v: CmdState, w: CmdState)
    requires RetriedAs(Assigned(s, slot, key), v, w) && v.slot == slot < SLOT_NUMBER
    ensures Hasty(s, v.ttl) && s.flag == VALID && v.ttl > 0 && (key.name in s.pool || key.name in s.env.reachable) ==>
      v.submits + [key.name] <= w.submits
  {
    assert Assigned(s, slot, key).history[..|s.history|] == s.history;
  }

  /** No command that is retried at once waits behind a slot query. */
  ghost predicate Orderly(s: State) {
    forall i, j :: 0 <= i < j < |s.slotPending| && s.slotPending[i] in s.cmds && s.slotPending[j] in s.cmds ==>
      s.cmds[s.slotPending[i]].kind == SlotQuery ==> !Hasty(s, s.cmds[s.slotPending[j]].ttl)
  }

  /** The callback of a slot query has run with a reply: a slot table replaces the old one, and then the parked
      commands are retried; anything else marks the table invalid. */
  ghost predicate TableTaken(s: State, t: State, r: Option<Reply>, rctx: Option<Peer>) {
    if IsSlotReply(r) then
      && OnlyRemoved(s.history + [Edit.Rebuild(r.value.elements, rctx)], t.history)
      && AllRetried(s, t) && (t.slotPending == [] || t.halted)
      && (Refusing(s.pool) == {} && !s.halted ==> Drained(TableArrived(s, r.value.elements, rctx), t))
    else t.flag == INVALID
  }

  /** The same from before the query was taken off its list: the commands ahead of it have timed out. */
  ghost predicate QueryAnswered(s: State, t: State, r: Option<Reply>, rctx: Option<Peer>, front: bool) {
    if IsSlotReply(r) then
      && Rebuilt(s.history, t.history, r.value.elements, rctx)
      && (t.slotPending == [] || t.halted)
      && (front && Refusing(s.pool) == {} && !s.halted ==> Drained(TableArrived(s, r.value.elements, rctx), t))
    else t.flag == INVALID
  }

  lemma TableRetries(s: State, t: State, r: Option<Reply>, rctx: Option<Peer>)
    requires TableTaken(s, t, r, rctx) && IsSlotReply(r)
    ensures AllRetried(s, t)
  {
    hide AllRetried, Drained, OnlyRemoved, Refusing;
  }

  lemma TableTakenFrom(s: State, s': State, t': State, t: State, r: Option<Reply>, rctx: Option<Peer>)
    requires TableTaken(s', t', r, rctx) && s'.slotPending == s.slotPending && s'.pool.Keys == s.pool.Keys
    requires Refusing(s'.pool) == Refusing(s.pool)
    requires s'.flag == s.flag && s'.history == s.history && s'.now == s.now && s'.env == s.env && Unhurried(s, s')
    requires t.slotPending == t'.slotPending && t.flag == t'.flag && t.history == t'.history && Unhurried(t', t)
    requires forall c <- s.slotPending :: c in s.cmds && c in s'.cmds && s'.cmds[c] == s.cmds[c]
    requires forall c <- s.slotPending :: c in t'.cmds ==> c in t.cmds && t.cmds[c] == t'.cmds[c]
    ensures TableTaken(s, t, r, rctx)
  {
    hide Drained, Refusing, AllRetried;
    if IsSlotReply(r) {
      AllRetriedSame(s, s', t, t');
    }
    if IsSlotReply(r) && Refusing(s.pool) == {} && !s.halted {
      DrainedFrom(TableArrived(s, r.value.elements, rctx), TableArrived(s', r.value.elements, rctx), t', t);
    }
  }

  /** The query comes into hand, and is answered. */
  lemma QueryAnsweredFrom(s: State, n: string, s': State, t: State, r: Option<Reply>, rctx: Option<Peer>, front: bool)
    requires Inv(s) && n in s.pool && s.pool[n].replyList != []
    requires TableTaken(s', t, r, rctx) && OnlyRemoved(s.history, s'.history)
    requires front ==> s.pool[n].replyList[0] in s.cmds && s' == Dequeue(s, n)
    ensures QueryAnswered(s, t, r, rctx, front)
  {
    hide Inv, Drained, Refusing, OnlyRemoved, AllRetried;
    if IsSlotReply(r) {
      RebuiltAfter(s.history, s'.history, t.history, r.value.elements, rctx);
      if front {
        DequeueKeeps(s, n);
        ParkedElsewhere(s, n);
        if Refusing(s.pool) == {} && !s.halted {
          DrainedFrom(TableArrived(s, r.value.elements, rctx), TableArrived(s', r.value.elements, rctx), t, t);
        }
      }
    }
  }

  /** The command may have been changed where it lies. */
  lemma AmendedQuery(s: State, s': State, t: State, c: CmdId, r: Option<Reply>, rctx: Option<Peer>, front: bool)
    requires Inv(s) && c in s.cmds && s.cmds[c].home.Queued? && c in s'.cmds
    requires s' == s.(cmds := s.cmds[c := s'.cmds[c]])
    requires QueryAnswered(s', t, r, rctx, front)
    ensures QueryAnswered(s, t, r, rctx, front)
  {
    hide Inv, Drained, Refusing, OnlyRemoved, Rebuilt;
    ParkedKnownAll(s);
    if IsSlotReply(r) && front && Refusing(s.pool) == {} && !s.halted {
      DrainedFrom(TableArrived(s, r.value.elements, rctx), TableArrived(s', r.value.elements, rctx), t, t);
    }
  }

  lemma AmendedCmds(s: State, s': State, t: State, n: string, c: CmdId)
    requires n in s.pool && c in s.pool[n].replyList && c in s.cmds && c in s'.cmds
    requires s' == s.(cmds := s.cmds[c := s'.cmds[c]])
    requires CmdsProgress(s'.cmds, t.cmds, UpTo(s.pool[n].replyList, c) + set b <- s.slotPending)
    ensures CmdsProgress(s.cmds, t.cmds, UpTo(s.pool[n].replyList, c) + set b <- s.slotPending)
  {
    hide IndexOf;
    var list := s.pool[n].replyList;
    assert list[..IndexOf(list, c) + 1][IndexOf(list, c)] == c;
  }

  lemma AmendedRetried(s: State, s': State, t: State, c: CmdId)
    requires Inv(s) && c in s.cmds && s.cmds[c].home.Queued? && c in s'.cmds
    requires s' == s.(cmds := s.cmds[c := s'.cmds[c]])
    requires AllRetried(s', t)
    ensures AllRetried(s, t)
  {
    hide Inv, Redone;
    ParkedKnownAll(s);
  }

  /** A queued command is not parked. */
  lemma ParkedElsewhere(s: State, n: string)
    requires Inv(s) && n in s.pool && s.pool[n].replyList != []
    ensures forall c <- s.slotPending :: c in s.cmds && c != s.pool[n].replyList[0]
  {
    hide InvDelayed, InvPool, InvTimer, InvHands, InvTold, InvOk;
  }

  lemma ParkedKnownAll(s: State)
    requires Inv(s)
    ensures forall c <- s.slotPending :: c in s.cmds && s.cmds[c].home == Parked
  {
    hide InvDelayed, InvQueued, InvPool, InvTimer, InvHands, InvTold, InvOk;
  }

  /** Commands that are not parked do not matter for the drain. */
  lemma DrainedFrom(s: State, s': State, t': State, t: State)
    requires Drained(s', t') && s'.slotPending == s.slotPending && s'.pool.Keys == s.pool.Keys
    requires s'.flag == s.flag && s'.history == s.history && s'.now == s.now && s'.env == s.env && Unhurried(s, s')
    requires t.slotPending == t'.slotPending && t.flag == t'.flag && Unhurried(t', t)
    requires forall c <- s.slotPending :: c in s.cmds && c in s'.cmds && s'.cmds[c] == s.cmds[c]
    requires forall c <- s.slotPending :: c in t'.cmds ==> c in t.cmds && t.cmds[c] == t'.cmds[c]
    ensures Drained(s, t)
  {
    hide RetriedAs;
    var retried: seq<CmdId>, failed: nat :| DrainOutcome(s', t', retried, failed);
    forall i | 0 <= i < |s.slotPending| ensures s.slotPending[i] in s.slotPending {
    }
    RoutedFrom(s, s', t', t, s.slotPending, if failed < |s.slotPending| then failed + 1 else |s.slotPending|);
    HastyFrom(s, s', failed);
    assert DrainOutcome(s, t, retried, failed);
  }

  lemma HastyFrom(s: State, s': State, f: nat)
    requires s'.slotPending == s.slotPending && s'.now == s.now && s'.env == s.env
    requires forall c <- s.slotPending :: c in s.cmds && c in s'.cmds && s'.cmds[c] == s.cmds[c]
    ensures HastyAfter(s, f) <==> HastyAfter(s', f)
  {
  }

  lemma RoutedFrom(s: State, s': State, t': State, t: State, list: seq<CmdId>, k: nat)
    requires Routed(s', t', list, k) && s'.pool.Keys == s.pool.Keys
    requires s'.flag == s.flag && s'.history == s.history && s'.now == s.now && s'.env == s.env
    requires forall c <- list :: c in s.cmds && c in s'.cmds && s'.cmds[c] == s.cmds[c]
    requires forall c <- list :: c in t'.cmds ==> c in t.cmds && t.cmds[c] == t'.cmds[c]
    ensures Routed(s, t, list, k)
  {
    hide RetriedAs;
    forall i | 0 <= i < k && i < |list|
      ensures list[i] in s.cmds && list[i] in t.cmds && Placed(t.cmds[list[i]].home)
      ensures RetriedAs(s, s.cmds[list[i]], t.cmds[list[i]])
    {
      assert list[i] in list;
      RetriedSame(s, s', s.cmds[list[i]], s'.cmds[list[i]], t.cmds[list[i]]);
    }
  }

  /** Then the drain ends, whatever fails. */
  lemma OrderlyEnds(s: State, t: State, retried: seq<CmdId>, failed: nat)
    requires Orderly(s) && DrainOutcome(s, t, retried, failed)
    ensures !t.halted && retried == s.slotPending && t.slotPending == [] && Unhurried(s, t)
  {
  }

  lemma OrderlyArrived(s: State, elements: seq<Option<Reply>>, rctx: Option<Peer>)
    requires Orderly(s)
    ensures Orderly(TableArrived(s, elements, rctx))
  {
  }

  /** A command that is not parked does not matter for that. */
  lemma OrderlySame(s: State, t: State, c: CmdId)
    requires Orderly(s) && c !in s.slotPending && t.slotPending == s.slotPending && t.now == s.now && t.env == s.env
    requires forall b <- s.slotPending :: b in s.cmds && b in t.cmds && t.cmds[b] == s.cmds[b]
    ensures Orderly(t)
  {
  }

  /** What the callback of a command does with a reply surely ends: that of a slot query drains if the reply is
      usable, so that no connection may be closing, and the parked commands have to be in order. */
  ghost predicate Brief(s: State, kind: Kind, usable: bool) {
    kind == SlotQuery && usable ==> Refusing(s.pool) == {} && Orderly(s) && !s.halted
  }

  lemma BriefSame(s: State, t: State, c: CmdId, kind: Kind, usable: bool)
    requires Inv(s) && Brief(s, kind, usable) && c in s.cmds && s.cmds[c].home != Parked
    requires c in t.cmds && t.cmds == s.cmds[c := t.cmds[c]]
    requires Refusing(t.pool) == Refusing(s.pool) && t.halted == s.halted
    requires t.slotPending == s.slotPending && t.now == s.now && t.env == s.env
    ensures Brief(t, kind, usable)
  {
    hide Refusing, Orderly, InvDelayed, InvQueued, InvPool, InvTimer, InvHands, InvTold, InvOk;
    if kind == SlotQuery && usable {
      OrderlySame(s, t, c);
    }
  }

  lemma DrainBegins(s: State)
    requires Inv(s) && Settled(s)
    ensures Draining(s, s, [], |s.slotPending|) && Routing(s, s, [], |s.slotPending|)
  {
    hide Inv, Settled;
    RetriedNone(s);
  }

  /** As long as no slot query has failed. */
  lemma DrainSettled(s: State, t: State, u: State, retried: seq<CmdId>, polite: bool)
    requires Inv(s) && !s.halted && Inv(t) && Inv(u) && Draining(s, t, retried, |s.slotPending|)
    requires t.slotPending != [] && t.slotPending[0] in t.cmds && t.cmds[t.slotPending[0]].home == Parked
    requires Inv(Unpark(t)) && Progress(Unpark(t), u, {t.slotPending[0]}, {})
    requires CalmStep(Unpark(t), u, polite) && HeldStep(Unpark(t), u, t.slotPending[0])
    ensures u.fuel == t.fuel && |u.slotPending| < |t.slotPending|
    ensures Draining(s, u, retried + [t.slotPending[0]], if u.flag == VALID then |s.slotPending| else |retried|)
  {
    hide Inv, Progress, Refusing, Retried, CalmStep, HastyAfter, Spinning;
    var list, k, v := s.slotPending, |retried|, Unpark(t);
    RetriedAt(s, t, list, k);
    ParkedNoDup(s);
    SettledCalm(v, polite);
    CalmUnhurried(v, u, polite);
    DrainStep(s, t, u, list, k);
    assert retried + [list[k]] == list[..k + 1];
    if u.flag != VALID {
      FirstFailed(s, t, u, list, k);
    }
  }

  lemma CalmUnhurried(s: State, t: State, polite: bool)
    requires CalmStep(s, t, polite) && Calm(s, polite)
    ensures Unhurried(s, t)
  {
  }

  /** A slot query has failed: what is left of the list decides how the drain goes on. */
  lemma FirstFailed(s: State, t: State, u: State, list: seq<CmdId>, k: nat)
    requires Inv(s) && list == s.slotPending && k < |list| && Retried(s, t, list, k) && Retried(s, u, list, k + 1)
    requires t.slotPending != [] && t.slotPending[0] == list[k] && list[k] in t.cmds
    requires Settled(t) && HeldStep(Unpark(t), u, list[k]) && u.flag != VALID
    ensures QueryFailed(s, u, list[k]) && u.flag == INVALID && (HastyAfter(s, k) ==> Spinning(u))
  {
    hide InvDelayed, InvQueued, InvPool, InvTimer, InvHands, InvTold, Refusing;
    assert list[k] in s.cmds && s.cmds[list[k]].Ok();
    if HastyAfter(s, k) {
      var j :| k < j < |list| && list[j] in s.cmds && Hasty(s, s.cmds[list[j]].ttl);
      assert u.slotPending[j - k - 1] == list[j];
    }
  }

  /** After a slot query has failed, a command that has to wait joins the timer list. */
  lemma DrainWanes(s: State, t: State, u: State, retried: seq<CmdId>, failed: nat)
    requires Inv(s) && !s.halted && Inv(t) && Inv(u) && Draining(s, t, retried, failed)
    requires failed < |s.slotPending| && !HastyAfter(s, failed)
    requires t.slotPending != [] && t.slotPending[0] in t.cmds && t.cmds[t.slotPending[0]].home == Parked
    requires Inv(Unpark(t)) && Progress(Unpark(t), u, {t.slotPending[0]}, {})
    requires !Hasty(t, t.cmds[t.slotPending[0]].ttl) ==> u == Defer(Unpark(t), t.slotPending[0])
    ensures u.fuel == t.fuel && |u.slotPending| < |t.slotPending|
    ensures Draining(s, u, retried + [t.slotPending[0]], failed)
  {
    hide Inv, Progress, Retried, Spinning;
    var list, k := s.slotPending, |retried|;
    RetriedAt(s, t, list, k);
    ParkedNoDup(s);
    assert !Hasty(s, s.cmds[list[k]].ttl);
    DrainStep(s, t, u, list, k);
    assert retried + [list[k]] == list[..k + 1];
    forall i | failed <= i < k ensures list[i] in t.cmds && list[i] in u.cmds && u.cmds[list[i]] == t.cmds[list[i]] {
      assert list[i] != list[k];
    }
  }

  /** The next iteration of the drain, whatever it does. */
  lemma DrainGoesOn(s: State, t: State, u: State, retried: seq<CmdId>, failed: nat, polite: bool)
    requires Inv(s) && !s.halted && Inv(t) && Inv(u) && Draining(s, t, retried, failed)
    requires t.slotPending != [] && t.slotPending[0] in t.cmds && t.cmds[t.slotPending[0]].home == Parked
    requires Inv(Unpark(t)) && Progress(Unpark(t), u, {t.slotPending[0]}, {})
    requires CalmStep(Unpark(t), u, polite) && HeldStep(Unpark(t), u, t.slotPending[0])
    requires !Hasty(t, t.cmds[t.slotPending[0]].ttl) ==> u == Defer(Unpark(t), t.slotPending[0])
    requires Spinning(t) ==> Spinning(u)
    ensures var failed' := if failed == |s.slotPending| && u.flag != VALID then |retried| else failed;
      && Draining(s, u, retried + [t.slotPending[0]], failed')
      && ((failed' < |s.slotPending| && HastyAfter(s, failed'))
          || (u.fuel == t.fuel && |u.slotPending| < |t.slotPending|))
  {
    hide Inv, Progress, CalmStep, HeldStep, Retried, Settled, HastyAfter, Spinning;
    if failed == |s.slotPending| {
      DrainSettled(s, t, u, retried, polite);
    } else if HastyAfter(s, failed) {
      DoneAges(Unpark(t), u, {t.slotPending[0]}, s.slotPending[failed]);
    } else {
      DrainWanes(s, t, u, retried, failed);
    }
  }

  lemma RoutingGoesOn(s: State, t: State, u: State, retried: seq<CmdId>, failed: nat)
    requires Inv(s) && Settled(s) && Draining(s, t, retried, failed) && Routing(s, t, retried, failed)
    requires t.slotPending != [] && t.slotPending[0] in t.cmds && t.cmds[t.slotPending[0]].home == Parked
    requires Progress(Unpark(t), u, {t.slotPending[0]}, {}) && HeldStep(Unpark(t), u, t.slotPending[0])
    requires t.slotPending[0] in u.cmds && RetriedAs(t, t.cmds[t.slotPending[0]], u.cmds[t.slotPending[0]])
    requires var failed' := if failed == |s.slotPending| && u.flag != VALID then |retried| else failed;
      Draining(s, u, retried + [t.slotPending[0]], failed')
    ensures var failed' := if failed == |s.slotPending| && u.flag != VALID then |retried| else failed;
      Routing(s, u, retried + [t.slotPending[0]], failed')
  {
    hide Inv, Progress, HeldStep, Settled, HastyAfter, Spinning, RetriedAs, Serene, Routed;
    var list, k := s.slotPending, |retried|;
    if failed < |list| {
      RoutedKept(s, t, u, list, failed + 1);
    } else {
      RetriedAt(s, t, list, k);
      RoutedNext(s, t, u, list, k);
      SereneNext(s, t, Unpark(t), u, list[k]);
    }
  }

  lemma DoneAges(s: State, t: State, take: set<CmdId>, c: CmdId)
    requires Progress(s, t, take, {}) && c in s.cmds && s.cmds[c].home == Done
    ensures c in t.cmds && t.cmds[c].home == Done
  {
    hide ListsProgress, TableProgress, CmdsProgress, CountersProgress, PoolProgress;
  }

  /** The loop is not allowed to spin for ever. */
  lemma DrainCharged(s: State, t: State, t': State, retried: seq<CmdId>, failed: nat)
    requires Draining(s, t, retried, failed) && failed < |s.slotPending| && HastyAfter(s, failed)
    requires t' == t.(fuel := t'.fuel, halted := t'.halted)
    requires Routing(s, t, retried, failed)
    ensures Draining(s, t', retried, failed) && Routing(s, t', retried, failed)
    ensures t'.halted ==> DrainOutcome(s, t', retried, failed)
  {
    hide HastyAfter, RetriedAs;
    SpinningSame(t, t');
  }

  lemma DrainEnds(s: State, t: State, retried: seq<CmdId>, failed: nat)
    requires !s.halted && Draining(s, t, retried, failed) && Routing(s, t, retried, failed) && t.slotPending == []
    ensures DrainOutcome(s, t, retried, failed)
  {
    hide HastyAfter, Settled, RetriedAs;
    SettledFlag(t);
  }

  lemma SettledFlag(s: State)
    ensures Settled(s) ==> s.flag == VALID
  {
  }

  lemma ParkedNoDup(s: State)
    requires Inv(s)
    ensures NoDup(s.slotPending)
  {
    hide InvDelayed, InvQueued, InvPool, InvTimer, InvOk, InvHands, InvTold;
  }

  // ---- The drain that does not end.

  /** Retrying a command then moves it to the end of the list, or to the timer list if it has to wait; the one
      that need not wait is there all the time. */
  lemma SpinsOn(s: State, t: State)
    requires Inv(s) && Inv(t) && Spinning(s) && s.slotPending[0] in s.cmds && Inv(Unpark(s))
    requires Progress(Unpark(s), t, {s.slotPending[0]}, {})
    requires var c := s.slotPending[0];
      if Hasty(s, s.cmds[c].ttl) then c in t.cmds && t.cmds[c] == s.cmds[c] else t == Defer(Unpark(s), c)
    ensures Spinning(t)
  {
    hide InvDelayed, InvQueued, InvPool, InvTimer, InvHands, InvTold, InvOk, PoolProgress, CmdsAged;
    var c := s.slotPending[0];
    if Hasty(s, s.cmds[c].ttl) {
      ParkedKnown(s, c);
      assert c in t.slotPending;
      var i :| 0 <= i < |t.slotPending| && t.slotPending[i] == c;
    } else {
      var i :| 0 <= i < |s.slotPending| && s.slotPending[i] in s.cmds && Hasty(s, s.cmds[s.slotPending[i]].ttl);
      assert t.slotPending[i - 1] == s.slotPending[i];
    }
  }

  lemma SpinningLoose(s: State)
    requires Spinning(s)
    ensures s.slotPending != [] && s.flag != VALID
  {
  }

  /** A parked command has some ttl left. */
  lemma ParkedLives(s: State, c: CmdId)
    requires Inv(s) && c in s.slotPending
    ensures c in s.cmds && s.cmds[c].ttl > 0
  {
    hide InvDelayed, InvQueued, InvPool, InvTimer, InvHands, InvTold;
  }

  lemma SpinningSame(s: State, t: State)
    requires t == s.(fuel := t.fuel, halted := t.halted)
    ensures Spinning(s) ==> Spinning(t)
  {
  }

  lemma SpinningWaits(s: State)
    ensures s.slotPending == [] ==> !Spinning(s)
  {
  }

  // ---- What one event leaves alone.

  /** The commands of a list up to the given one. */
  function UpTo(list: seq<CmdId>, c: CmdId): set<CmdId>
    requires c in list
  {
    var front := list[..IndexOf(list, c) + 1];
    set b <- front
  }

  /** A queued command was taken off its list and dealt with, and those ahead of it have timed out; no other
      command changes, unless it loses its connection, and connections, lists and table only change as a call may
      change them. */
  ghost predicate Handled(s: State, t: State, n: string, c: CmdId) {
    && n in s.pool && c in s.pool[n].replyList && n in t.pool
    && Elsewhere(s, t.(asking := s.asking), n, UpTo(s.pool[n].replyList, c))
    && Grown(s.pool[n].(replyList := s.pool[n].replyList[IndexOf(s.pool[n].replyList, c) + 1..]), t.pool[n])
  }

  /** The commands ahead of a queued one have timed out. */
  ghost predicate InFront(s: State, mid: State, n: string, c: CmdId) {
    && n in s.pool && c in s.pool[n].replyList && Inv(mid)
    && Elsewhere(s, mid, n, set b <- s.pool[n].replyList[..IndexOf(s.pool[n].replyList, c)])
    && n in mid.pool && mid.pool[n].replyList != [] && mid.pool[n].replyList[0] == c && c in mid.cmds
    && mid.cmds[c].home == Queued(n) && !MayGo(mid.pool[n])
    && Grown(s.pool[n].(replyList := s.pool[n].replyList[IndexOf(s.pool[n].replyList, c)..]), mid.pool[n])
  }

  /** Then that one was dealt with. */
  lemma HandledBy(s: State, mid: State, n: string, c: CmdId, t: State)
    requires InFront(s, mid, n, c) && Progress(Dequeue(mid, n), t, {c}, {})
    ensures Handled(s, t, n, c)
  {
    hide Inv, Elsewhere, Progress, IndexOf;
    var list := s.pool[n].replyList;
    var i := IndexOf(list, c);
    DequeuedElsewhere(mid, n, t);
    assert c in list[..i + 1] by {
      assert list[..i + 1][i] == c;
    }
    ElsewhereMore(s, mid, n, (set b <- list[..i]), UpTo(list, c));
    ElsewhereTrans(s, mid, t, n, UpTo(list, c), {c});
    ElsewhereAsking(mid, t, n, {c});
    ElsewhereAsking(s, mid, n, UpTo(list, c));
    assert t.(asking := s.asking) == t;
    assert list[i..][1..] == list[i + 1..];
  }

  lemma ElsewhereAsking(s: State, t: State, n: string, take: set<CmdId>)
    requires Elsewhere(s, t, n, take)
    ensures t.asking == s.asking
  {
    hide ListsProgress, TableProgress, PoolProgress, CmdsProgress, CmdsAged;
  }

  /** The command waits for the answer to its ASKING request. */
  lemma HandledAsk(s: State, mid: State, n: string, c: CmdId, t: State)
    requires InFront(s, mid, n, c) && Progress(Dequeue(mid, n), t.(asking := mid.asking), {c}, {})
    ensures Handled(s, t, n, c)
  {
    hide Inv, Progress, IndexOf, ListsProgress, TableProgress, PoolProgress, CmdsProgress, CmdsAged;
    HandledBy(s, mid, n, c, t.(asking := mid.asking));
    assert mid.asking == s.asking;
  }

  lemma AskProgress(s: State, c: CmdId, n: string)
    requires c in s.cmds && s.cmds[c].home == InHand
    ensures Progress(s, Ask(s, c, n).(asking := s.asking), {c}, {})
  {
    hide PoolProgress, CmdsAged;
    SamePool(s.pool, s.seqAlloc);
    AgedOne(s.cmds, c, s.cmds[c].(home := Asking(n)));
  }

  /** Every command that was parked before was retried. */
  lemma QueryRetries(s: State, mid: State, n: string, c: CmdId, t: State)
    requires Inv(s) && InFront(s, mid, n, c) && AllRetried(Dequeue(mid, n), t)
    ensures AllRetried(s, t)
  {
    hide IndexOf, InvDelayed, InvPool, InvTimer, InvHands, InvTold, InvOk, TableProgress, PoolProgress, CmdsAged,
        CountersProgress, Grown, Redone;
    var list, v := s.pool[n].replyList, Dequeue(mid, n);
    forall b <- s.slotPending ensures b in s.cmds && b in t.cmds && Redone(s.cmds[b], t.cmds[b]) {
      assert b in s.cmds && s.cmds[b].home == Parked;
      assert b !in list;
      assert mid.cmds[b] == s.cmds[b];
      assert b in v.slotPending && v.cmds[b] == s.cmds[b];
    }
  }

  /** A slot query was answered with a table: only it, those ahead of it and the parked commands were dealt with. */
  lemma QuerySpares(s: State, mid: State, n: string, c: CmdId, t: State)
    requires Inv(s) && InFront(s, mid, n, c)
    requires CmdsProgress(Dequeue(mid, n).cmds, t.cmds, {c} + set b <- mid.slotPending)
    ensures CmdsProgress(s.cmds, t.cmds, UpTo(s.pool[n].replyList, c) + set b <- s.slotPending)
  {
    hide IndexOf, InvDelayed, InvQueued, InvPool, InvTimer, InvHands, InvTold, InvOk, ListsProgress, TableProgress,
        PoolProgress, CmdsAged, CountersProgress, Grown;
    var list := s.pool[n].replyList;
    assert list[..IndexOf(list, c) + 1] == list[..IndexOf(list, c)] + [c];
    forall b <- s.cmds | b !in UpTo(list, c) && b !in s.slotPending
      ensures b in t.cmds && (t.cmds[b] == s.cmds[b] || Lost(s.cmds[b], t.cmds[b]))
    {
      assert b !in list[..IndexOf(list, c) + 1] && b != c;
      assert mid.cmds[b] == s.cmds[b] || Lost(s.cmds[b], mid.cmds[b]);
      assert mid.cmds[b].home != Parked;
      assert b !in mid.slotPending;
    }
  }

  /** Something else came first. */
  lemma HandledAfter(s: State, s': State, t: State, n: string, c: CmdId)
    requires Progress(s, s', {}, {}) && n in s.pool && c in s.pool[n].replyList && s.pool[n].InCallback()
    requires Handled(s', t, n, c)
    ensures Handled(s, t, n, c)
  {
    hide Progress, Elsewhere, IndexOf;
    var list := s.pool[n].replyList;
    StaysPooled(s, s', n);
    SameIndex(list, s'.pool[n].replyList, c);
    ProgressElsewhere(s, s', n);
    ElsewhereAsking(s, s', n, {});
    ElsewhereMore(s, s', n, {}, UpTo(list, c));
    ElsewhereTrans(s, s', t.(asking := s'.asking), n, UpTo(list, c), UpTo(list, c));
    var i := IndexOf(list, c);
    assert list[i + 1..] <= s'.pool[n].replyList[i + 1..];
  }

  lemma SameIndex(list: seq<CmdId>, list': seq<CmdId>, c: CmdId)
    requires list <= list' && c in list
    ensures IndexOf(list', c) == IndexOf(list, c) && UpTo(list', c) == UpTo(list, c)
  {
    hide IndexOf;
    var i, j := IndexOf(list, c), IndexOf(list', c);
    assert forall k :: 0 <= k < i ==> list[..i][k] == list[k] == list'[k];
    assert forall k :: 0 <= k < j ==> list'[..j][k] == list'[k];
    assert list'[i] == c;
    assert i == j;
    assert list'[..i + 1] == list[..i + 1];
  }

  /** Something else comes after. */
  lemma HandledThen(s: State, t: State, u: State, n: string, c: CmdId)
    requires Handled(s, t, n, c) && Progress(t, u, {}, {}) && s.pool[n].InCallback()
    ensures Handled(s, u, n, c)
  {
    hide Progress, Elsewhere, IndexOf;
    StaysPooled(t, u, n);
    AskingKept(t, u, {});
    ElsewhereShift(t, u, n, s.asking);
    ElsewhereTrans(s, t.(asking := s.asking), u.(asking := s.asking), n, UpTo(s.pool[n].replyList, c), {});
  }

  lemma AskingKept(s: State, t: State, take: set<CmdId>)
    requires Progress(s, t, take, {})
    ensures t.asking == s.asking
  {
    hide ListsProgress, TableProgress, PoolProgress, CmdsProgress, CmdsAged;
  }

  lemma ElsewhereShift(s: State, t: State, n: string, asking: set<CmdId>)
    requires Progress(s, t, {}, {})
    ensures Elsewhere(s.(asking := asking), t.(asking := asking), n, {})
  {
    hide ListsProgress, TableProgress, PoolProgress, CmdsProgress, CmdsAged;
    ProgressElsewhere(s, t, n);
    ListsSame(s, s.(asking := asking), t, t.(asking := asking));
  }

  /** The command was changed where it lies, and the table marked invalid, before. */
  lemma HandledFrom(s: State, s': State, t: State, n: string, c: CmdId)
    requires c in s.cmds && c in s'.cmds && s' == s.(cmds := s.cmds[c := s'.cmds[c]], flag := s'.flag)
    requires Aged(s.cmds[c], s'.cmds[c]) && (s'.flag == VALID ==> s.flag == VALID) && Handled(s', t, n, c)
    ensures Handled(s, t, n, c)
  {
    hide PoolProgress, TableProgress, CmdsAged, IndexOf, Aged;
    AgedOne(s.cmds, c, s'.cmds[c]);
    AgedTrans(s.cmds, s'.cmds, t.cmds);
    var list := s.pool[n].replyList;
    assert list[..IndexOf(list, c) + 1][IndexOf(list, c)] == c;
    assert c in UpTo(list, c);
  }

  lemma HandledCmds(s: State, t: State, n: string, c: CmdId)
    requires Handled(s, t, n, c)
    ensures CmdsProgress(s.cmds, t.cmds, UpTo(s.pool[n].replyList, c))
  {
    hide ListsProgress, TableProgress, PoolProgress, CmdsProgress, CmdsAged, IndexOf;
  }

  predicate Waits(home: Home) {
    home == Parked || home == Delayed
  }

  /** Apart from the commands in `take`, only commands that wait were dealt with, or lost their connection. */
  ghost predicate Spared(cmds: Cmds, cmds': Cmds, take: set<CmdId>) {
    forall c <- cmds :: c !in take && !Waits(cmds[c].home) ==>
      c in cmds' && (cmds'[c] == cmds[c] || Lost(cmds[c], cmds'[c]))
  }

  lemma SparedRefl(cmds: Cmds)
    ensures Spared(cmds, cmds, {})
  {
  }

  lemma SparedTrans(r: Cmds, s: Cmds, t: Cmds, take: set<CmdId>)
    requires Spared(r, s, take) && Spared(s, t, {})
    ensures Spared(r, t, take)
  {
  }

  lemma SparedBy(s: Cmds, t: Cmds, take: set<CmdId>)
    requires CmdsProgress(s, t, take)
    ensures Spared(s, t, take)
  {
  }

  /** A command that waits comes into hand and is handed over. */
  lemma SparedNext(s: State, v: State, t: State, c: CmdId)
    requires c in s.cmds && Waits(s.cmds[c].home) && c in v.cmds && v.cmds == s.cmds[c := v.cmds[c]]
    requires Progress(v, t, {c}, {})
    ensures Spared(s.cmds, t.cmds, {})
  {
    hide ListsProgress, TableProgress, PoolProgress, CountersProgress, CmdsAged;
    forall b <- s.cmds | !Waits(s.cmds[b].home)
      ensures b in t.cmds && (t.cmds[b] == s.cmds[b] || Lost(s.cmds[b], t.cmds[b]))
    {
      assert b in v.cmds && v.cmds[b] == s.cmds[b];
    }
  }

  // ---- Answers.

  /** From the call of a command's callback with a reply to its destruction. */
  lemma AnswerSweep(s: State, c: CmdId, code: Code, t: State)
    requires Inv(s) && c in s.inHand && c in s.cmds
    requires Inv(t) && Sweep(Complete(s, c, code), t, set b <- s.slotPending)
    ensures c in t.dying && c in t.cmds && t.cmds[c] == Complete(s, c, code).cmds[c]
    ensures Sweep(s, Destroy(t, c), {c} + set b <- s.slotPending)
    ensures Destroy(t, c).cmds[c] == s.cmds[c].Completed(code, s.completions).(destroyed := true)
  {
    hide Inv, PoolProgress, CmdsProgress, CmdsAged, Aged, CountersProgress;
    var u := Complete(s, c, code);
    Held(s, c);
    NotParked(s, c);
    CompletedAges(s.cmds[c], code, s.completions);
    FinishedCmds(s.cmds, c, u.cmds[c], t.cmds, set b <- s.slotPending);
    FinishedCounters(s, c, code, t, set b <- s.slotPending);
  }

  /** A callback that ends, between the two. */
  lemma AnswerEnds(s: State, c: CmdId, code: Code, t: State, polite: bool)
    requires c in s.cmds && c in t.cmds && BackStep(Complete(s, c, code), t, polite)
    ensures BackStep(s, Destroy(t, c), polite)
  {
    hide Calm;
    CalmFrame(s, Complete(s, c, code), polite);
  }

  lemma BackRefl(s: State, polite: bool)
    ensures BackStep(s, s, polite)
  {
    hide Calm;
  }

  lemma NotParked(s: State, c: CmdId)
    requires Inv(s) && c in s.inHand
    ensures c !in s.slotPending
  {
    hide InvDelayed, InvQueued, InvPool, InvTimer, InvOk, InvTold;
  }

  lemma ProgressSweep(s: State, t: State, take: set<CmdId>)
    requires Inv(s) && Progress(s, t, {}, {}) && take !! s.inHand
    ensures Sweep(s, t, take)
  {
    hide ListsProgress, TableProgress, PoolProgress, Inv, CmdsAged;
  }

  lemma ParkedNotHeld(s: State)
    requires Inv(s)
    ensures (set b <- s.slotPending) !! s.inHand
  {
    hide InvDelayed, InvQueued, InvPool, InvTimer, InvOk, InvTold;
  }

  /** The table arrives, then the parked commands are retried. */
  lemma SweepChain(s: State, t: State, u: State)
    requires Inv(s) && Inv(t) && t == s.(flag := t.flag, history := t.history)
    requires Sweep(t, u, set c <- t.slotPending)
    ensures Sweep(s, u, set c <- s.slotPending)
  {
    hide PoolProgress, Inv, CmdsAged;
  }

  /** A command changes where it lies. */
  lemma ReworkAnywhere(s: State, c: CmdId, w: CmdState)
    requires Inv(s) && c in s.cmds && w.Ok() && w.home == s.cmds[c].home
    requires s.cmds[c].home != Done
    requires w.destroyed == s.cmds[c].destroyed && w.finishedAt == s.cmds[c].finishedAt
    ensures Inv(Rework(s, c, w))
  {
    hide InvPool, InvTimer, InvParked, InvDelayed, InvQueued, InvHands, InvTold;
    SamePlace(s.slotPending, s.timerPending, s.pool, s.cmds, c, w);
    SameHands(s.inHand, s.dying, s.asking, s.cmds, c, w);
    ToldFrame(s.notices, s.cmds, c, w);
  }

  lemma SamePlace(parked: seq<CmdId>, delayed: seq<Delay>, pool: Pool, cmds: Cmds, c: CmdId, w: CmdState)
    requires InvParked(parked, cmds) && InvDelayed(delayed, cmds) && InvQueued(pool, cmds)
    requires c in cmds && w.home == cmds[c].home
    ensures InvParked(parked, cmds[c := w]) && InvDelayed(delayed, cmds[c := w]) && InvQueued(pool, cmds[c := w])
  {
  }

  lemma SameHands(inHand: set<CmdId>, dying: set<CmdId>, asking: set<CmdId>, cmds: Cmds, c: CmdId, w: CmdState)
    requires InvHands(inHand, dying, asking, cmds) && c in cmds && w.home == cmds[c].home
    requires w.destroyed == cmds[c].destroyed
    ensures InvHands(inHand, dying, asking, cmds[c := w])
  {
  }

  lemma HoldingTaken(s: State, n: string)
    requires Rest(s) && n in s.pool && s.pool[n].replyList != [] && s.pool[n].replyList[0] in s.cmds
    ensures Holding(Dequeue(s, n), {s.pool[n].replyList[0]}, {})
  {
  }

  /** Commands age and counters advance: this holds from the start of any run to its end. */
  ghost predicate Later(s: State, t: State) {
    && CmdsAged(s.cmds, t.cmds)
    && s.completions <= t.completions && s.nextCmd <= t.nextCmd && s.seqAlloc <= t.seqAlloc
    && s.notices <= t.notices
  }

  lemma LaterTrans(s: State, t: State, u: State)
    requires Later(s, t) && Later(t, u)
    ensures Later(s, u)
  {
    hide CmdsAged;
    AgedTrans(s.cmds, t.cmds, u.cmds);
  }

  lemma LaterSame(s: State, t: State)
    requires t.cmds == s.cmds && t.completions == s.completions && t.nextCmd == s.nextCmd && s.seqAlloc <= t.seqAlloc
    requires t.notices == s.notices
    ensures Later(s, t)
  {
    AgedRefl(s.cmds);
  }

  /** One command advances. */
  lemma LaterOne(s: State, t: State, c: CmdId, w: CmdState)
    requires c in s.cmds && Aged(s.cmds[c], w) && t.cmds == s.cmds[c := w]
    requires t.completions == s.completions && t.nextCmd == s.nextCmd && t.seqAlloc == s.seqAlloc
    requires t.notices == s.notices
    ensures Later(s, t)
  {
    hide CmdsAged;
    AgedOne(s.cmds, c, w);
  }

  lemma SweepLater(s: State, t: State, take: set<CmdId>)
    requires Sweep(s, t, take)
    ensures Later(s, t)
  {
    hide CmdsProgress, PoolProgress, CmdsAged;
  }

  lemma SweepCmds(s: State, t: State, take: set<CmdId>)
    requires Sweep(s, t, take)
    ensures CmdsProgress(s.cmds, t.cmds, take)
  {
    hide CmdsProgress, PoolProgress, CmdsAged;
  }

  /** From a calm state the call ends without recursing in vain, and it leads to a calm state. */
  ghost predicate Quiet(s: State, t: State, polite: bool) {
    Calm(s, polite) ==> Unhurried(s, t) && Calm(t, polite)
  }

  /** Later and quietly, and the slot table has lost leaders and nothing else. */
  ghost predicate Onward(s: State, t: State, polite: bool) {
    Later(s, t) && Quiet(s, t, polite) && OnlyRemoved(s.history, t.history)
    && t.budget <= s.budget && t.env == s.env && (t.flag == VALID ==> s.flag == VALID)
  }

  lemma OnwardTrans(s: State, t: State, u: State, polite: bool)
    requires Onward(s, t, polite) && Onward(t, u, polite)
    ensures Onward(s, u, polite)
  {
    hide Later, OnlyRemoved;
    LaterTrans(s, t, u);
    OnlyRemovedTrans(s.history, t.history, u.history);
  }

  lemma ProgressOnward(s: State, t: State, take: set<CmdId>, polite: bool)
    requires Progress(s, t, take, {}) && CalmStep(s, t, polite)
    ensures Onward(s, t, polite)
  {
    hide Progress, Calm, Later, OnlyRemoved;
    if Calm(s, polite) {
      CalmKept(s, t, polite, take);
    }
    ProgressLater(s, t, take, {});
    ProgressRemoved(s, t, take, {});
    ProgressFlag(s, t, take, {});
    ReachableKept(s, t, take, {});
  }

  /** A release that does not close the context. */
  lemma ReleaseOnward(s: State, t: State, n: string, polite: bool)
    requires Progress(s, t, {}, {n}) && n in s.pool && CalmStep(s, t, polite)
    requires Mild(s, n, false, polite) ==> Calm(t, polite)
    ensures Onward(s, t, polite)
  {
    hide Progress, Calm, Mild, Later, OnlyRemoved;
    if Calm(s, polite) {
      ReleaseCalm(s, t, n, polite);
    }
    ProgressLater(s, t, {}, {n});
    ProgressRemoved(s, t, {}, {n});
    ProgressFlag(s, t, {}, {n});
    ReachableKept(s, t, {}, {n});
  }

  lemma OnwardSame(s: State, t: State, polite: bool)
    requires t.pool == s.pool && t.env == s.env && t.cmds == s.cmds && t.history == s.history && Unhurried(s, t)
    requires t.budget == s.budget
    requires t.flag == s.flag && t.notices == s.notices
    requires t.completions == s.completions && t.nextCmd == s.nextCmd && t.seqAlloc == s.seqAlloc
    ensures Onward(s, t, polite)
  {
    hide Calm, Later;
    LaterSame(s, t);
    CalmFrame(s, t, polite);
  }

  /** One command advances; the rest of the state matters only as far as it is listed. */
  lemma OnwardOne(s: State, t: State, c: CmdId, w: CmdState, polite: bool)
    requires c in s.cmds && Aged(s.cmds[c], w) && t.cmds == s.cmds[c := w]
    requires t.completions == s.completions && t.nextCmd == s.nextCmd && t.seqAlloc == s.seqAlloc
    requires t.pool == s.pool && t.env == s.env && t.history == s.history && Unhurried(s, t)
    requires t.budget == s.budget
    requires t.flag == s.flag && t.notices == s.notices
    ensures Onward(s, t, polite)
  {
    hide Calm, Later;
    LaterOne(s, t, c, w);
    CalmFrame(s, t, polite);
  }

  lemma OnwardFacts(s: State, t: State, polite: bool)
    requires Onward(s, t, polite)
    ensures Later(s, t) && OnlyRemoved(s.history, t.history) && t.budget <= s.budget
    ensures (t.flag == VALID ==> s.flag == VALID) && s.notices <= t.notices
    ensures Calm(s, polite) ==> Unhurried(s, t) && Calm(t, polite)
  {
  }

  lemma OnwardEnv(s: State, t: State, polite: bool)
    requires Onward(s, t, polite)
    ensures t.env == s.env
  {
    hide Later, Quiet, OnlyRemoved;
  }

  lemma CompletedStays(s: State, t: State, u: State, list: seq<CmdId>, code: Code)
    requires CompletedInOrder(s, t, list, code) && Later(t, u)
    ensures CompletedInOrder(s, u, list, code)
  {
    hide CompletedInOrder, CmdsAged;
    CompletedKept(s, t, u, list, code);
  }

  /** After a command was taken off a reply list, with those ahead of it timed out. */
  lemma TakeFacts(s: State, mid: State, n: string, cmd: CmdId, ahead: seq<CmdId>)
    requires Rest(s) && n in s.pool && Inv(mid) && Elsewhere(s, mid, n, set c <- ahead)
    requires CompletedInOrder(s, mid, ahead, TIMEOUT)
    requires n in mid.pool && mid.pool[n].status != DISCONNECTED
    requires mid.pool[n].replyList != [] && mid.pool[n].replyList[0] == cmd && cmd in mid.cmds
    ensures mid.cmds[cmd].home == Queued(n)
    ensures Inv(Dequeue(mid, n)) && Holding(Dequeue(mid, n), {cmd}, {}) && cmd in Dequeue(mid, n).inHand
    ensures CompletedInOrder(s, Dequeue(mid, n), ahead, TIMEOUT)
    ensures s.completions <= mid.completions
  {
    hide Inv, ListsProgress, TableProgress, CmdsProgress, PoolProgress, Holding, CmdsAged, CompletedInOrder;
    DequeueKeeps(mid, n);
    HoldingElsewhere(s, mid, n, {}, {}, set c <- ahead);
    HoldingTaken(mid, n);
    AgedOne(mid.cmds, cmd, Dequeue(mid, n).cmds[cmd]);
    CompletedKept(s, mid, Dequeue(mid, n), ahead, TIMEOUT);
  }

  /** A connection that takes commands stays and goes on taking them. */
  ghost predicate OpenKept(pool: Pool, pool': Pool) {
    forall m <- pool :: !pool[m].Refusing() && pool[m].status != DISCONNECTED ==> m in pool' && !pool'[m].Refusing()
  }

  lemma OpenKeptAt(pool: Pool, pool': Pool, n: string)
    requires OpenKept(pool, pool') && n in pool && !pool[n].Refusing() && pool[n].status != DISCONNECTED
    ensures n in pool' && !pool'[n].Refusing()
  {
  }

  lemma OpenKeptElsewhere(s: State, t: State, n: string, take: set<CmdId>)
    requires Elsewhere(s, t, n, take) && n in s.pool && n in t.pool
    requires t.pool[n] == s.pool[n].(replyList := t.pool[n].replyList)
    ensures OpenKept(s.pool, t.pool)
  {
    hide CmdsProgress, CmdsAged, ListsProgress, TableProgress, CountersProgress, Refusing;
    forall m <- s.pool | m != n && !s.pool[m].Refusing() && s.pool[m].status != DISCONNECTED
      ensures m in t.pool && !t.pool[m].Refusing()
    {
      assert m in s.pool - {n} && (s.pool - {n})[m] == s.pool[m];
      assert m in t.pool - {n} && (t.pool - {n})[m] == t.pool[m];
    }
  }

  /** So far only that connection's list and what the callbacks did has changed. */
  lemma TakeOnward(s: State, mid: State, n: string, take: set<CmdId>, polite: bool)
    requires Elsewhere(s, mid, n, take) && n in s.pool && n in mid.pool && mid.pool[n].replyList != []
    requires mid.pool[n] == s.pool[n].(replyList := mid.pool[n].replyList) && BackStep(s, mid, polite)
    requires mid.pool[n].replyList[0] in mid.cmds && mid.cmds[mid.pool[n].replyList[0]].home.Queued?
    requires s.pool[n].InCallback() && (Calm(s, polite) ==> Calm(mid, polite))
    ensures Onward(s, Dequeue(mid, n), polite) && OpenKept(s.pool, Dequeue(mid, n).pool)
  {
    hide CmdsProgress, CmdsAged, Later, Refusing, Calm;
    var c, t := mid.pool[n].replyList[0], Dequeue(mid, n);
    OpenKeptElsewhere(s, mid, n, take);
    LaterElsewhere(s, mid, n, take);
    LaterOne(mid, t, c, t.cmds[c]);
    LaterTrans(s, mid, t);
    CalmDequeue(mid, n, polite);
  }

  lemma LaterElsewhere(s: State, t: State, n: string, take: set<CmdId>)
    requires Elsewhere(s, t, n, take)
    ensures Later(s, t)
  {
    hide CmdsProgress, PoolProgress, CmdsAged;
  }

  /** Nothing is in hand after the one command was handed over. */
  lemma HandedOver(s: State, t: State, cmd: CmdId, take: set<CmdId>)
    requires Holding(s, {cmd}, {}) && Sweep(s, t, {cmd} + take)
    ensures Rest(t)
  {
    hide CmdsProgress, Refusing, CmdsAged;
  }

  lemma RestProgress(s: State, t: State, cmd: CmdId)
    requires Holding(s, {cmd}, {}) && Progress(s, t, {cmd}, {})
    ensures Rest(t)
  {
    hide Holding, Progress;
    HoldingKept(s, t, {cmd}, {}, {cmd}, {});
    assert {cmd} - {cmd} == {};
  }

  lemma RestKept(s: State, t: State, drop: set<string>)
    requires Rest(s) && Progress(s, t, {}, drop)
    ensures Rest(t)
  {
    hide Holding, Progress;
    HoldingKept(s, t, {}, {}, {}, drop);
    var none: set<CmdId> := {};
    assert none - none == none;
  }

  lemma RestOpen(s: State, n: string)
    requires Rest(s) && n in s.pool
    ensures s.pool[n].status != DISCONNECTED
  {
  }

  /** The flag, the table and the commands' order of waiting do not matter for what is in hand. */
  lemma RestSame(s: State, t: State, hand: set<CmdId>, dying: set<CmdId>)
    requires Holding(s, hand, dying) && t.inHand == s.inHand && t.dying == s.dying && t.pool == s.pool
    requires t.halted == s.halted
    ensures Holding(t, hand, dying)
  {
  }

  /** A command in hand waits for the answer to its ASKING request. */
  function Ask(s: State, c: CmdId, n: string): State
    requires c in s.cmds
  {
    s.(cmds := s.cmds[c := s.cmds[c].(home := Asking(n))], inHand := s.inHand - {c}, asking := s.asking + {c})
  }

  lemma AskKeeps(s: State, c: CmdId, n: string)
    requires Inv(s) && c in s.inHand
    ensures c in s.cmds && Inv(Ask(s, c, n))
  {
    hide InvParked, InvDelayed, InvQueued, InvPool, InvTimer, InvTold;
    ListsFrame(s, c, s.cmds[c].(home := Asking(n)));
    ToldFrame(s.notices, s.cmds, c, s.cmds[c].(home := Asking(n)));
  }

  /** The answer has come. */
  function Asked(s: State, c: CmdId): State
    requires c in s.cmds
  {
    s.(cmds := s.cmds[c := s.cmds[c].(home := InHand)], inHand := s.inHand + {c}, asking := s.asking - {c})
  }

  lemma AskedKeeps(s: State, c: CmdId)
    requires Inv(s) && c in s.cmds && s.cmds[c].home.Asking?
    ensures Inv(Asked(s, c)) && (Rest(s) ==> Holding(Asked(s, c), {c}, {}))
  {
    hide InvParked, InvDelayed, InvQueued, InvPool, InvTimer, InvTold;
    ListsFrame(s, c, s.cmds[c].(home := InHand));
    ToldFrame(s.notices, s.cmds, c, s.cmds[c].(home := InHand));
  }

  lemma QueuedKnown(s: State, n: string, c: CmdId)
    requires Inv(s) && n in s.pool && c in s.pool[n].replyList
    ensures c in s.cmds && s.cmds[c].home == Queued(n) && s.cmds[c].Ok()
  {
    hide InvParked, InvDelayed, InvPool, InvTimer, InvHands, InvTold;
  }

  /** A queued command whose connection runs its callback stays queued. */
  lemma StaysQueued(s: State, t: State, n: string, c: CmdId)
    requires Inv(s) && Inv(t) && Rest(s) && Progress(s, t, {}, {})
    requires n in s.pool && c in s.pool[n].replyList && s.pool[n].InCallback()
    ensures n in t.pool && c in t.pool[n].replyList && t.pool[n].InCallback() && t.pool[n].key == s.pool[n].key
    ensures c in s.cmds && c in t.cmds && t.cmds[c] == s.cmds[c]
  {
    hide InvParked, InvDelayed, InvPool, InvTimer, InvHands, InvOk, ListsProgress, TableProgress, Refusing,
        CmdsAged, InvTold;
  }

  lemma AskRests(s: State, c: CmdId, n: string)
    requires Holding(s, {c}, {}) && c in s.cmds
    ensures Rest(Ask(s, c, n))
  {
  }

  lemma NotAsking(s: State, t: State, c: CmdId)
    requires Inv(s) && Inv(t) && c in s.inHand && Progress(s, t, {c}, {})
    ensures c in t.cmds && !t.cmds[c].home.Asking?
  {
    hide InvParked, InvDelayed, InvQueued, InvPool, InvTimer, InvOk, ListsProgress, TableProgress, PoolProgress,
        CmdsAged, InvTold;
    assert c !in s.asking;
  }

  // ---- Failing everything that waits.

  /** The table counts as asked for, no slot query waits and no context carries an error: whatever the callbacks
      submit then is parked, and nothing else happens. */
  ghost predicate Frozen(s: State) {
    && s.flag == UPDATING
    && (forall c <- s.cmds :: s.cmds[c].home == Parked || s.cmds[c].home == Delayed ==> s.cmds[c].kind != SlotQuery)
    && (forall n <- s.pool :: s.pool[n].context.Some? ==> s.pool[n].context.value.err == NoError)
  }

  /** In a frozen state a callback leaves the connections alone and ends. */
  ghost predicate FrozenStep(s: State, t: State) {
    Frozen(s) ==> Frozen(t) && Unhurried(s, t) && t.pool == s.pool
  }

  /** With polite callbacks, from a frozen state, and while the connection of the initial endpoint is left
      alone, failing what waits ends. */
  ghost predicate LullStep(s: State, t: State, polite: bool, alone: bool) {
    && (polite || Frozen(s) ==> Unhurried(s, t)) && (Frozen(s) ==> Frozen(t))
    && (alone && CalmInit(s, false) ==> Unhurried(s, t) && CalmInit(t, false))
  }

  lemma LullTrans(s: State, t: State, u: State, polite: bool, alone: bool)
    requires LullStep(s, t, polite, alone) && LullStep(t, u, polite, alone)
    ensures LullStep(s, u, polite, alone)
  {
    hide Frozen, CalmInit;
  }

  lemma LullSame(s: State, t: State, polite: bool, alone: bool)
    requires t.flag == s.flag && t.cmds == s.cmds && t.pool == s.pool && t.env == s.env && Unhurried(s, t)
    ensures LullStep(s, t, polite, alone)
  {
  }

  /** The initial endpoint has no connection. */
  predicate Aloof(s: State) {
    s.env.init !in s.pool
  }

  /** Everything is failed, with the table cleared on the way. */
  lemma LullEnds(s: State, t: State, u: State, v: State, polite: bool)
    requires LullStep(s, t, polite, Aloof(s)) && u == t.(history := u.history) && LullStep(u, v, polite, true)
    ensures polite || Frozen(s) || Aloof(s) ==> Unhurried(s, v)
  {
    hide Frozen, LullStep;
    LullSame(t, u, polite, Aloof(s));
    LullLess(u, v, polite, true, Aloof(s));
    LullTrans(s, t, u, polite, Aloof(s));
    LullTrans(s, u, v, polite, Aloof(s));
    LullFacts(s, v, polite);
  }

  lemma LullFacts(s: State, t: State, polite: bool)
    requires LullStep(s, t, polite, Aloof(s))
    ensures polite || Frozen(s) || Aloof(s) ==> Unhurried(s, t)
  {
    hide Frozen;
  }

  lemma LullLess(s: State, t: State, polite: bool, alone: bool, alone': bool)
    requires LullStep(s, t, polite, alone) && (alone' ==> alone)
    ensures LullStep(s, t, polite, alone')
  {
    hide Frozen, CalmInit;
  }

  /** One command changes that does not come to wait. */
  lemma FrozenOne(s: State, t: State, c: CmdId)
    requires t.flag == s.flag && t.pool == s.pool && Unhurried(s, t) && c in t.cmds
    requires t.cmds == s.cmds[c := t.cmds[c]] && t.cmds[c].home != Parked && t.cmds[c].home != Delayed
    ensures FrozenStep(s, t)
  {
  }

  lemma FrozenTrans(s: State, t: State, u: State)
    requires FrozenStep(s, t) && FrozenStep(t, u)
    ensures FrozenStep(s, u)
  {
    hide Frozen;
  }

  lemma FrozenSame(s: State, t: State)
    requires t.flag == s.flag && t.cmds == s.cmds && t.pool == s.pool && Unhurried(s, t)
    ensures FrozenStep(s, t)
  {
  }

  /** A callback submits one command, which is parked. */
  lemma FrozenSubmit(s: State, s': State, v: CmdState, t: State)
    requires s' == s.(budget := s'.budget) && v.kind == User && v.home == InHand
    requires s.flag == UPDATING ==> t == Park(Create(s', v), s.nextCmd)
    ensures FrozenStep(s, t)
  {
  }

  /** A command comes into hand and is failed. */
  lemma LullFails(s: State, v: State, t: State, c: CmdId, polite: bool, alone: bool)
    requires c in s.cmds && (s.cmds[c].home == Parked || s.cmds[c].home == Delayed)
    requires v.cmds == s.cmds[c := s.cmds[c].(home := InHand)] && v.flag == s.flag && v.pool == s.pool
    requires Unhurried(s, v)
    requires v.env == s.env && Progress(v, t, {c}, {})
    requires BackStep(v, t, polite) && (s.cmds[c].kind != SlotQuery ==> FrozenStep(v, t))
    ensures LullStep(s, t, polite, alone)
  {
    hide Progress, Sheltered, Silent;
    if CalmInit(s, false) {
      AloofTaken(s, v);
      InitKept(v, t, false, {c}, {});
    }
    PoliteCalm(v, polite);
  }

  /** What is calm for all callbacks is calm for polite ones. */
  lemma PoliteCalm(s: State, polite: bool)
    ensures CalmInit(s, false) ==> CalmInit(s, polite)
  {
  }

  lemma AloofTaken(s: State, t: State)
    requires t.pool == s.pool && t.env == s.env && KindsKept(s.cmds, t.cmds)
    ensures CalmInit(s, false) ==> CalmInit(t, false)
  {
    hide KindsKept, Silent;
    var n := s.env.init;
    if n in s.pool && Silent(s.pool[n].replyList, s.cmds) {
      SilentKept(s.pool[n].replyList, s.cmds, t.cmds);
    }
  }

  /** An idle connection is released: its list is empty, so that nobody is called but to be told of the loss. */
  lemma FrozenRelease(s: State, t: State, u: State, n: string)
    requires n in s.pool && n in t.pool && t.pool[n].context.None?
    requires t == s.(pool := t.pool, seqAlloc := t.seqAlloc) && t.pool == s.pool[n := t.pool[n]]
    requires Frozen(t) ==> Frozen(u) && Unhurried(t, u)
    ensures Frozen(s) ==> Frozen(u) && Unhurried(s, u)
  {
  }

  /** A context is closed. */
  lemma LullCloses(s: State, t: State, n: string, ctx: Context, polite: bool)
    requires n in s.pool && s.pool[n].context.Some? && ctx == s.pool[n].context.value.(disconnecting := true)
    requires t == s.(pool := s.pool[n := s.pool[n].(context := Some(ctx))])
    ensures LullStep(s, t, polite, n != s.env.init) && (Frozen(t) ==> ctx.err == NoError)
  {
    hide Silent;
    assert t.pool[n].context == Some(ctx);
  }

  /** An idle connection is released. */
  lemma LullReleases(s: State, t: State, n: string, besides: set<string>, polite: bool)
    requires Progress(s, t, {}, {n}) && (polite || CalmBut(s, besides, polite) ==> Unhurried(s, t))
    requires Frozen(s) ==> Frozen(t) && Unhurried(s, t)
    ensures LullStep(s, t, polite, n != s.env.init)
  {
    hide Progress, Frozen, CalmInit, Sheltered;
    if CalmInit(s, false) {
      InitKept(s, t, false, {}, {n});
      PoliteCalm(s, polite);
    }
  }

  function TimerCmds(list: seq<Delay>): seq<CmdId> {
    seq(|list|, i requires 0 <= i < |list| => list[i].cmd)
  }

  /** In the course of failing the commands of a list: the first k were completed in order, the others
      wait as they did at the start of what is left of the list. */
  ghost predicate Failing(s: State, t: State, list: seq<CmdId>, rest: seq<CmdId>, k: nat, code: Code) {
    && k <= |list| && list[k..] <= rest
    && CompletedInOrder(s, t, list[..k], code)
    && (forall i :: k <= i < |list| ==> list[i] in s.cmds && list[i] in t.cmds && t.cmds[list[i]] == s.cmds[list[i]])
    && s.completions <= t.completions
  }

  /** Commands that only wait are not touched by what happens to others. */
  lemma FailingKept(s: State, t: State, u: State, list: seq<CmdId>, rest: seq<CmdId>, rest': seq<CmdId>, k: nat,
      code: Code)
    requires Failing(s, t, list, rest, k, code) && CmdsProgress(t.cmds, u.cmds, {}) && CmdsAged(t.cmds, u.cmds)
    requires t.completions <= u.completions
    requires rest <= rest' && forall i :: k <= i < |list| ==> list[i] in t.cmds && !t.cmds[list[i]].home.Queued?
    ensures Failing(s, u, list, rest', k, code)
  {
    hide CompletedInOrder, CmdsAged;
    CompletedKept(s, t, u, list[..k], code);
  }

  /** The first of the waiting commands is completed: the next of the list, or one that came later. */
  lemma FailingNext(s: State, t: State, u: State, list: seq<CmdId>, rest: seq<CmdId>, rest': seq<CmdId>, k: nat,
      code: Code)
    requires Failing(s, t, list, rest, k, code) && rest != [] && rest[1..] <= rest' && NoDup(list)
    requires CmdsProgress(t.cmds, u.cmds, {rest[0]}) && CmdsAged(t.cmds, u.cmds)
    requires rest[0] in t.cmds && rest[0] in u.cmds && t.completions < u.completions
    requires u.cmds[rest[0]] == t.cmds[rest[0]].Completed(code, t.completions).(destroyed := true)
    requires forall i :: k <= i < |list| ==> list[i] in t.cmds && !t.cmds[list[i]].home.Queued?
    ensures Failing(s, u, list, rest', if k < |list| then k + 1 else k, code)
  {
    hide CompletedInOrder, CmdsAged;
    if k < |list| {
      assert list[k..][0] == list[k] == rest[0];
      CompletedNext(s, t, u, list, k, code);
      assert list[k + 1..] == list[k..][1..];
      forall i | k < i < |list| ensures list[i] in u.cmds && u.cmds[list[i]] == s.cmds[list[i]] {
        assert list[i] != list[k];
      }
    } else {
      assert list[..k] == list;
      CompletedKept(s, t, u, list, code);
    }
  }

  lemma FailingParked(s: State, code: Code)
    requires Inv(s)
    ensures NoDup(s.slotPending) && Failing(s, s, s.slotPending, s.slotPending, 0, code)
    ensures forall c <- s.slotPending :: c in s.cmds && s.cmds[c].home == Parked
  {
    hide InvDelayed, InvQueued, InvPool, InvTimer, InvOk, InvHands, CompletedInOrder, InvTold;
    CompletedNone(s, s, s.slotPending, code);
  }

  lemma FailingDelayed(s: State, code: Code)
    requires Inv(s)
    ensures NoDup(TimerCmds(s.timerPending))
    ensures Failing(s, s, TimerCmds(s.timerPending), TimerCmds(s.timerPending), 0, code)
    ensures forall c <- TimerCmds(s.timerPending) :: c in s.cmds && s.cmds[c].home == Delayed
  {
    hide InvParked, InvQueued, InvPool, InvTimer, InvOk, InvHands, CompletedInOrder, InvTold;
    CompletedNone(s, s, TimerCmds(s.timerPending), code);
  }

  lemma TimerCmdsPrefix(list: seq<Delay>, list': seq<Delay>)
    requires list <= list'
    ensures TimerCmds(list) <= TimerCmds(list')
  {
  }

  lemma TimerCmdsRest(list: seq<Delay>)
    requires list != []
    ensures TimerCmds(list) != [] && TimerCmds(list)[0] == list[0].cmd && TimerCmds(list)[1..] == TimerCmds(list[1..])
  {
  }

  /** The environment changes what is read of a context. */
  lemma ContextKeeps(s: State, n: string, ctx: Context)
    requires Inv(s) && Rest(s) && n in s.pool
    ensures Inv(s.(pool := s.pool[n := s.pool[n].(context := Some(ctx))]))
    ensures Rest(s.(pool := s.pool[n := s.pool[n].(context := Some(ctx))]))
  {
    hide InvParked, InvDelayed, InvTimer, InvHands, InvOk, InvQueued, InvTold;
    QueuedPoolFrame(s.pool, s.cmds, n, s.pool[n].(context := Some(ctx)));
  }

  /** After a reset the table stays empty. */
  lemma {:induction false} ClearedStays(h: seq<Edit>, h': seq<Edit>, slot: int)
    requires OnlyRemoved(h + [Clear], h')
    ensures Replay(h', slot) == []
    decreases |h'|
  {
    if |h'| == |h| + 1 {
      assert h' == h + [Clear];
    } else {
      var shorter := h'[..|h'| - 1];
      assert OnlyRemoved(h + [Clear], shorter);
      ClearedStays(h, shorter, slot);
      assert h'[|h'| - 1].Remove?;
    }
  }

  /** The connections that were there are gone or closing, but for some. */
  ghost predicate Closed(pool: Pool, pool': Pool, but: set<string>) {
    forall n <- pool' :: n in pool && n !in but && pool'[n].sequence == pool[n].sequence ==> pool'[n].Refusing()
  }

  lemma ClosedKept(s: State, t: State, u: State, but: set<string>, drop: set<string>)
    requires InvPool(s.pool, s.timerConns, s.seqAlloc) && s.seqAlloc <= t.seqAlloc
    requires Closed(s.pool, t.pool, but) && PoolProgress(t.pool, t.seqAlloc, u.pool, drop)
    ensures Closed(s.pool, u.pool, but)
  {
    hide Refusing;
  }

  /** In the course of a reset that started in s: of the commands parked then the first k were failed,
      of those delayed then the first m; the connections were closed but for some. */
  ghost predicate Resetting(s: State, t: State, but: set<string>, k: nat, m: nat) {
    && Failing(s, t, s.slotPending, t.slotPending, k, SLOT_UNAVAILABLE)
    && Failing(s, t, TimerCmds(s.timerPending), TimerCmds(t.timerPending), m, TIMEOUT)
    && Closed(s.pool, t.pool, but) && s.seqAlloc <= t.seqAlloc
  }

  lemma ResettingBegins(s: State)
    requires Inv(s)
    ensures Resetting(s, s, s.pool.Keys, 0, 0)
  {
    hide Inv, Failing;
    FailingParked(s, SLOT_UNAVAILABLE);
    FailingDelayed(s, TIMEOUT);
  }

  /** The commands of the two lists are parked or delayed, not queued. */
  lemma WaitingKnown(s: State, t: State, but: set<string>, k: nat, m: nat)
    requires Inv(s) && Resetting(s, t, but, k, m)
    ensures NoDup(s.slotPending) && NoDup(TimerCmds(s.timerPending))
    ensures var list := s.slotPending; forall i :: k <= i < |list| ==>
      list[i] in t.cmds && t.cmds[list[i]].home == Parked
    ensures var list := TimerCmds(s.timerPending);
      forall i :: m <= i < |list| ==> list[i] in t.cmds && t.cmds[list[i]].home == Delayed
  {
    hide Inv, CompletedInOrder, Closed;
    FailingParked(s, SLOT_UNAVAILABLE);
    FailingDelayed(s, TIMEOUT);
  }

  lemma ResettingKept(s: State, t: State, u: State, but: set<string>, k: nat, m: nat, drop: set<string>)
    requires Inv(s) && Resetting(s, t, but, k, m) && Progress(t, u, {}, drop)
    ensures Resetting(s, u, but, k, m)
  {
    hide InvParked, InvDelayed, InvQueued, InvHands, InvOk, InvTimer, InvPool, Closed, Failing,
        PoolProgress, CmdsAged, InvTold;
    WaitingKnown(s, t, but, k, m);
    TimerCmdsPrefix(t.timerPending, u.timerPending);
    FailingKept(s, t, u, s.slotPending, t.slotPending, u.slotPending, k, SLOT_UNAVAILABLE);
    FailingKept(s, t, u, TimerCmds(s.timerPending), TimerCmds(t.timerPending), TimerCmds(u.timerPending), m, TIMEOUT);
    ClosedKept(s, t, u, but, drop);
  }

  lemma ResettingSame(s: State, t: State, u: State, but: set<string>, k: nat, m: nat)
    requires Resetting(s, t, but, k, m) && u.cmds == t.cmds && u.slotPending == t.slotPending
    requires u.timerPending == t.timerPending
    requires u.completions == t.completions && u.pool == t.pool && u.seqAlloc == t.seqAlloc
    ensures Resetting(s, u, but, k, m)
  {
    hide CompletedInOrder, CmdsAged;
    AgedRefl(t.cmds);
    CompletedKept(s, t, u, s.slotPending[..k], SLOT_UNAVAILABLE);
    CompletedKept(s, t, u, TimerCmds(s.timerPending)[..m], TIMEOUT);
  }

  /** The first parked command is failed. */
  lemma ResettingParked(s: State, t: State, u: State, but: set<string>, k: nat, m: nat)
    requires Inv(s) && Inv(t) && Resetting(s, t, but, k, m) && t.slotPending != [] && t.slotPending[0] in t.cmds
    requires Progress(Unpark(t), u, {t.slotPending[0]}, {}) && t.slotPending[0] in u.cmds
    requires t.completions < u.completions
    requires u.cmds[t.slotPending[0]] ==
      t.cmds[t.slotPending[0]].Completed(SLOT_UNAVAILABLE, t.completions).(destroyed := true)
    ensures Resetting(s, u, but, if k < |s.slotPending| then k + 1 else k, m)
  {
    hide InvParked, InvDelayed, InvQueued, InvHands, InvOk, InvTimer, InvPool, Closed, Failing,
        PoolProgress, CmdsAged, InvTold;
    var c, v := t.slotPending[0], Unpark(t);
    WaitingKnown(s, t, but, k, m);
    ParkedKnown(t, c);
    assert CmdsProgress(t.cmds, u.cmds, {c});
    AgedOne(t.cmds, c, v.cmds[c]);
    AgedTrans(t.cmds, v.cmds, u.cmds);
    FailingNext(s, t, u, s.slotPending, t.slotPending, u.slotPending, k, SLOT_UNAVAILABLE);
    FailingOther(s, t, u, TimerCmds(s.timerPending), TimerCmds(t.timerPending), m, TIMEOUT, c);
    TimerCmdsPrefix(t.timerPending, u.timerPending);
    FailingLonger(s, u, TimerCmds(s.timerPending), TimerCmds(t.timerPending), TimerCmds(u.timerPending), m, TIMEOUT);
    ClosedKept(s, v, u, but, {});
  }

  /** The first delayed command is failed. */
  lemma ResettingDelayed(s: State, t: State, u: State, but: set<string>, k: nat, m: nat)
    requires Inv(s) && Inv(t) && Resetting(s, t, but, k, m) && t.timerPending != [] && t.timerPending[0].cmd in t.cmds
    requires t.cmds[t.timerPending[0].cmd].home == Delayed
    requires Progress(Undelay(t), u, {t.timerPending[0].cmd}, {}) && t.timerPending[0].cmd in u.cmds
    requires t.completions < u.completions
    requires u.cmds[t.timerPending[0].cmd] ==
      t.cmds[t.timerPending[0].cmd].Completed(TIMEOUT, t.completions).(destroyed := true)
    ensures Resetting(s, u, but, k, if m < |s.timerPending| then m + 1 else m)
  {
    hide InvParked, InvDelayed, InvQueued, InvHands, InvOk, InvTimer, InvPool, Closed, Failing,
        PoolProgress, CmdsAged, InvTold;
    var c, v := t.timerPending[0].cmd, Undelay(t);
    WaitingKnown(s, t, but, k, m);
    assert CmdsProgress(t.cmds, u.cmds, {c});
    AgedOne(t.cmds, c, v.cmds[c]);
    AgedTrans(t.cmds, v.cmds, u.cmds);
    TimerCmdsRest(t.timerPending);
    TimerCmdsPrefix(t.timerPending[1..], u.timerPending);
    FailingNext(s, t, u, TimerCmds(s.timerPending), TimerCmds(t.timerPending), TimerCmds(u.timerPending), m, TIMEOUT);
    FailingOther(s, t, u, s.slotPending, t.slotPending, k, SLOT_UNAVAILABLE, c);
    FailingLonger(s, u, s.slotPending, t.slotPending, u.slotPending, k, SLOT_UNAVAILABLE);
    ClosedKept(s, v, u, but, {});
  }

  lemma FailingLonger(s: State, t: State, list: seq<CmdId>, rest: seq<CmdId>, rest': seq<CmdId>, k: nat, code: Code)
    requires Failing(s, t, list, rest, k, code) && rest <= rest'
    ensures Failing(s, t, list, rest', k, code)
  {
    hide CompletedInOrder;
  }

  /** A command of neither kind is completed. */
  lemma FailingOther(s: State, t: State, u: State, list: seq<CmdId>, rest: seq<CmdId>, k: nat, code: Code, c: CmdId)
    requires Failing(s, t, list, rest, k, code) && CmdsProgress(t.cmds, u.cmds, {c}) && CmdsAged(t.cmds, u.cmds)
    requires t.completions <= u.completions
    requires forall i :: k <= i < |list| ==> list[i] != c && list[i] in t.cmds && !t.cmds[list[i]].home.Queued?
    ensures Failing(s, u, list, rest, k, code)
  {
    hide CompletedInOrder, CmdsAged;
    CompletedKept(s, t, u, list[..k], code);
  }

  /** One command was taken into hand. */
  lemma HandOne(s: State, t: State, c: CmdId)
    requires Rest(s) && t.inHand == s.inHand + {c} && t.dying == s.dying && t.pool == s.pool && t.halted == s.halted
    ensures Holding(t, {c}, {})
  {
  }

  /** One more context is closed. */
  lemma ResettingCloses(s: State, t: State, n: string, but: set<string>)
    requires Resetting(s, t, but, 0, 0) && n in t.pool && t.pool[n].context.Some?
    ensures var v := t.pool[n].(context := Some(t.pool[n].context.value.(disconnecting := true)));
      Resetting(s, t.(pool := t.pool[n := v]), but - {n}, 0, 0)
  {
    hide CompletedInOrder, CmdsAged;
    var u := t.(pool := t.pool[n := t.pool[n].(context := Some(t.pool[n].context.value.(disconnecting := true)))]);
    AgedRefl(t.cmds);
    CompletedKept(s, t, u, s.slotPending[..0], SLOT_UNAVAILABLE);
    CompletedKept(s, t, u, TimerCmds(s.timerPending)[..0], TIMEOUT);
  }

  /** A connection that is gone need not be closed. */
  lemma ResettingGone(s: State, t: State, n: string, but: set<string>)
    requires Resetting(s, t, but, 0, 0) && n !in t.pool
    ensures Resetting(s, t, but - {n}, 0, 0)
  {
    hide Failing;
  }

  lemma HoldingContext(s: State, n: string, hand: set<CmdId>)
    requires Inv(s) && Holding(s, hand, {}) && n in s.pool
    ensures s.pool[n].context.Some?
  {
    hide InvParked, InvDelayed, InvQueued, InvHands, InvOk, InvTimer, InvTold;
  }

  /** At rest every connection has its context. */
  lemma RestContext(s: State, n: string)
    requires Inv(s) && Rest(s) && n in s.pool
    ensures s.pool[n].context.Some?
  {
    hide InvParked, InvDelayed, InvQueued, InvHands, InvOk, InvTimer, InvTold;
  }

  lemma ResettingParkedAll(s: State, t: State, but: set<string>, k: nat, m: nat)
    requires Resetting(s, t, but, k, m) && t.slotPending == []
    ensures k == |s.slotPending|
  {
    hide CompletedInOrder;
  }

  lemma ResettingDone(s: State, t: State, m: nat)
    requires Resetting(s, t, {}, |s.slotPending|, m) && t.timerPending == []
    ensures Closed(s.pool, t.pool, {})
    ensures CompletedInOrder(s, t, s.slotPending, SLOT_UNAVAILABLE)
    ensures CompletedInOrder(s, t, TimerCmds(s.timerPending), TIMEOUT)
  {
    hide CompletedInOrder;
    assert s.slotPending[..|s.slotPending|] == s.slotPending;
    var d := TimerCmds(s.timerPending);
    assert d[..|d|] == d;
  }

  /** A reset that was called from inside a callback of the initial endpoint. */
  lemma ResetTraps(pool: Pool, t: State)
    requires Closed(pool, t.pool, {}) && t.flag == INVALID
    requires forall i :: 0 <= i < SLOT_NUMBER ==> Replay(t.history, i) == []
    requires var n := t.env.init;
      n in pool && n in t.pool && t.pool[n].sequence == pool[n].sequence && t.pool[n].InCallback()
    ensures Trapped(t)
  {
    assert NoneServes(t.history, t.pool);
  }

  /** With nothing delayed and no connect timeout the clock may be set back. */
  lemma ForgetKeeps(s: State, t: State)
    requires Inv(s) && Rest(s) && s.timerPending == []
    requires t == s.(timerConns := [], now := Time(0, 0), flag := t.flag)
    ensures Inv(t) && Rest(t)
  {
    hide InvParked, InvDelayed, InvHands, InvOk, InvQueued, InvTold;
  }

  // ---- The clock.

  lemma DeadlineMonotone(a: Time, b: Time, interval: Time)
    requires AtMost(a, b)
    ensures AtMost(Deadline(a, interval), Deadline(b, interval))
  {
  }

  /** The clock advances. */
  lemma ClockKeeps(s: State, t: Time)
    requires Inv(s) && Rest(s) && AtMost(s.now, t)
    ensures Inv(s.(now := t)) && Rest(s.(now := t))
  {
    hide InvParked, InvDelayed, InvHands, InvOk, InvQueued, InvPool, InvTold;
    DeadlineMonotone(s.now, t, s.env.interval);
  }

  /** In the course of firing what was due in s: the first k delayed commands have fired, the others lead
      the list, and whatever was delayed since is due later. */
  ghost predicate Firing(s: State, t: State, k: nat) {
    && t.now == s.now && t.env == s.env && s.seqAlloc <= t.seqAlloc
    && k <= |s.timerPending| && s.timerPending[k..] <= t.timerPending
    && (forall i :: 0 <= i < k ==> AtMost(s.timerPending[i].at, s.now))
    && (forall i :: |s.timerPending| - k <= i < |t.timerPending| ==>
          t.timerPending[i].at == Deadline(s.now, s.env.interval))
    && s.timerConns <= t.timerConns
    && (forall i :: |s.timerConns| <= i < |t.timerConns| ==> s.now.sec < t.timerConns[i].timeout)
    && PoolProgress(s.pool, s.seqAlloc, t.pool, {})
    && TableProgress(s.pool, s.history, t.history, {})
  }

  lemma FiringBegins(s: State)
    ensures Firing(s, s, 0)
  {
    hide PoolProgress, TableProgress, CmdsAged;
    SameTable(s.pool, s.history);
    SamePool(s.pool, s.seqAlloc);
  }

  lemma FiringNext(s: State, t: State, u: State, k: nat)
    requires Firing(s, t, k) && t.timerPending != [] && t.timerPending[0].cmd in t.cmds
    requires AtMost(t.timerPending[0].at, s.now) && !AtMost(Deadline(s.now, s.env.interval), s.now)
    requires Progress(Undelay(t), u, {t.timerPending[0].cmd}, {})
    ensures k < |s.timerPending| && t.timerPending[0] == s.timerPending[k] && Firing(s, u, k + 1)
  {
    hide PoolProgress, TableProgress, CmdsProgress, CmdsAged;
    TableProgressTrans(s.pool, s.seqAlloc, t.pool, s.history, t.history, u.history, {}, {});
    PoolProgressTrans(s.pool, s.seqAlloc, t.pool, t.seqAlloc, u.pool, {}, {});
    var none: set<string> := {};
    assert none + none == none;
    assert k < |s.timerPending|;
    assert s.timerPending[k..][0] == s.timerPending[k];
    assert s.timerPending[k..][1..] == s.timerPending[k + 1..];
    var v := Undelay(t);
    forall i | |s.timerPending| - k - 1 <= i < |u.timerPending|
      ensures u.timerPending[i].at == Deadline(s.now, s.env.interval)
    {
      if i < |v.timerPending| {
        assert u.timerPending[i] == v.timerPending[i] == t.timerPending[i + 1];
      }
    }
    forall i | |s.timerConns| <= i < |u.timerConns| ensures s.now.sec < u.timerConns[i].timeout {
      if i < |t.timerConns| {
        assert u.timerConns[i] == t.timerConns[i];
      }
    }
  }

  /** Queued commands stay as they are unless they lose their connection. */
  ghost predicate QueuedKept(cmds: Cmds, cmds': Cmds) {
    forall c <- cmds :: cmds[c].home.Queued? ==> c in cmds' && (cmds'[c] == cmds[c] || Lost(cmds[c], cmds'[c]))
  }

  /** The delayed commands from position k on wait as they did. */
  ghost predicate StillDelayed(s: State, t: State, k: nat) {
    forall i :: k <= i < |s.timerPending| ==>
      var c := s.timerPending[i].cmd; c in s.cmds && c in t.cmds && t.cmds[c] == s.cmds[c]
  }

  /** Among the first k delayed commands there was a slot query, and it has failed. */
  ghost predicate QueryLost(s: State, t: State, k: nat) {
    exists j :: 0 <= j < k && j < |s.timerPending| && QueryFailed(s, t, s.timerPending[j].cmd)
  }

  /** What has become of the delayed command at position i: it was executed. From a settled start, and unless a
      query that was executed before has failed, that is to say just as in s. */
  ghost predicate Fate(s: State, t: State, i: nat)
    requires i < |s.timerPending|
  {
    var c := s.timerPending[i].cmd;
    && c in s.cmds && c in t.cmds && Tried(s.cmds[c], t.cmds[c])
    && (s.flag != VALID && s.cmds[c].ttl > 0 ==> t.cmds[c] == s.cmds[c].(home := Parked))
    && (Settled(s) && !QueryLost(s, t, i) ==> Executed(s, s.cmds[c], t.cmds[c]))
  }

  /** What has become of the first k delayed commands. */
  ghost predicate Fired(s: State, t: State, k: nat) {
    forall i :: 0 <= i < k && i < |s.timerPending| ==> Fate(s, t, i)
  }

  /** In the course of firing, apart from the lists: the first k delayed commands were executed, nothing else was
      touched. */
  ghost predicate Burning(s: State, t: State, k: nat) {
    && QueuedKept(s.cmds, t.cmds) && StillDelayed(s, t, k) && Fired(s, t, k)
    && (t.flag == VALID ==> s.flag == VALID) && (Settled(s) && !QueryLost(s, t, k) ==> Serene(s, t))
  }

  lemma BurningBegins(s: State)
    requires Inv(s)
    ensures Burning(s, s, 0)
  {
    hide InvParked, InvQueued, InvHands, InvOk, InvPool, InvTold, InvTimer, Refusing;
  }

  /** Whatever happens to other commands, and to those that lose their connection. */
  lemma FateKept(s: State, t: State, u: State, i: nat)
    requires i < |s.timerPending| && Fate(s, t, i) && CmdsAged(t.cmds, u.cmds)
    requires var c := s.timerPending[i].cmd; c in u.cmds && (u.cmds[c] == t.cmds[c] || Lost(t.cmds[c], u.cmds[c]))
    ensures Fate(s, u, i)
  {
    hide Settled, Executed, CmdsAged, QueryFailed;
    var c := s.timerPending[i].cmd;
    if Settled(s) && !QueryLost(s, u, i) {
      LostStays(s, t, u, i);
      ExecutedKept(s, s.cmds[c], t.cmds[c], u.cmds[c]);
    }
  }

  lemma LostStays(s: State, t: State, u: State, k: nat)
    requires CmdsAged(t.cmds, u.cmds)
    ensures QueryLost(s, t, k) ==> QueryLost(s, u, k)
  {
    hide CmdsAged, QueryFailed;
    if j :| 0 <= j < k && j < |s.timerPending| && QueryFailed(s, t, s.timerPending[j].cmd) {
      QueryStaysLost(s, t, u, s.timerPending[j].cmd);
    }
  }

  lemma QueryStaysLost(s: State, t: State, u: State, c: CmdId)
    requires CmdsAged(t.cmds, u.cmds) && QueryFailed(s, t, c)
    ensures QueryFailed(s, u, c)
  {
  }

  lemma FiredKept(s: State, t: State, u: State, k: nat)
    requires Fired(s, t, k) && CmdsProgress(t.cmds, u.cmds, {}) && CmdsAged(t.cmds, u.cmds)
    ensures Fired(s, u, k)
  {
    hide Fate, CmdsAged;
    forall i | 0 <= i < k && i < |s.timerPending| ensures Fate(s, u, i) {
      FateKnown(s, t, i);
      FateKept(s, t, u, i);
    }
  }

  lemma FateKnown(s: State, t: State, i: nat)
    requires i < |s.timerPending| && Fate(s, t, i)
    ensures s.timerPending[i].cmd in t.cmds
  {
  }

  /** The next delayed command is executed. */
  lemma BurningNext(s: State, t: State, u: State, k: nat)
    requires Inv(s) && Burning(s, t, k) && k < |s.timerPending| && t.timerPending != []
    requires t.timerPending[0].cmd == s.timerPending[k].cmd && t.timerPending[0].cmd in t.cmds
    requires t.cmds[t.timerPending[0].cmd].home == Delayed
    requires Progress(Undelay(t), u, {t.timerPending[0].cmd}, {}) && HeldStep(Undelay(t), u, t.timerPending[0].cmd)
    requires t.timerPending[0].cmd in u.cmds
    requires Executed(t, t.cmds[t.timerPending[0].cmd], u.cmds[t.timerPending[0].cmd])
    ensures Burning(s, u, k + 1)
  {
    hide Inv, Progress, HeldStep, Settled, Executed, Serene, Fate, QueryLost, QueuedKept, StillDelayed;
    DelayedKeep(s, t, u, k);
    FiredStays(s, t, u, k);
    BurningFate(s, t, u, k);
    BurningSerene(s, t, u, k);
    ProgressFlag(Undelay(t), u, {t.timerPending[0].cmd}, {});
  }

  /** The next delayed command comes into hand and is handed over: those before it stay as they are unless they
      lose their connection. */
  lemma DelayedKeep(s: State, t: State, u: State, k: nat)
    requires Inv(s) && QueuedKept(s.cmds, t.cmds) && StillDelayed(s, t, k)
    requires k < |s.timerPending| && t.timerPending != []
    requires t.timerPending[0].cmd == s.timerPending[k].cmd && t.timerPending[0].cmd in t.cmds
    requires Progress(Undelay(t), u, {t.timerPending[0].cmd}, {})
    ensures QueuedKept(s.cmds, u.cmds) && StillDelayed(s, u, k + 1) && CmdsAged(t.cmds, u.cmds)
    ensures forall i :: 0 <= i < k && s.timerPending[i].cmd in t.cmds ==>
      var c := s.timerPending[i].cmd; c in u.cmds && (u.cmds[c] == t.cmds[c] || Lost(t.cmds[c], u.cmds[c]))
  {
    hide InvParked, InvQueued, InvHands, InvOk, InvPool, InvTold, InvTimer, ListsProgress, TableProgress,
        PoolProgress, CountersProgress, CmdsAged;
    var c, v := s.timerPending[k].cmd, Undelay(t);
    assert c in s.cmds && s.cmds[c].home == Delayed;
    forall b <- s.cmds | s.cmds[b].home.Queued?
      ensures b in u.cmds && (u.cmds[b] == s.cmds[b] || Lost(s.cmds[b], u.cmds[b]))
    {
      assert b in v.cmds && v.cmds[b] == t.cmds[b];
    }
    AgedOne(t.cmds, c, v.cmds[c]);
    AgedTrans(t.cmds, v.cmds, u.cmds);
    forall i | 0 <= i < k && s.timerPending[i].cmd in t.cmds
      ensures var b := s.timerPending[i].cmd; b in u.cmds && (u.cmds[b] == t.cmds[b] || Lost(t.cmds[b], u.cmds[b]))
    {
      assert s.timerPending[i].cmd != c;
    }
  }

  lemma FiredStays(s: State, t: State, u: State, k: nat)
    requires Fired(s, t, k) && k <= |s.timerPending| && CmdsAged(t.cmds, u.cmds)
    requires forall i :: 0 <= i < k && s.timerPending[i].cmd in t.cmds ==>
      var c := s.timerPending[i].cmd; c in u.cmds && (u.cmds[c] == t.cmds[c] || Lost(t.cmds[c], u.cmds[c]))
    ensures Fired(s, u, k)
  {
    hide Fate, CmdsAged;
    forall i | 0 <= i < k ensures Fate(s, u, i) {
      FateKnown(s, t, i);
      FateKept(s, t, u, i);
    }
  }

  lemma BurningFate(s: State, t: State, u: State, k: nat)
    requires StillDelayed(s, t, k) && k < |s.timerPending| && s.timerPending[k].cmd in u.cmds
    requires var c := s.timerPending[k].cmd; c in t.cmds && Executed(t, t.cmds[c], u.cmds[c])
    requires (t.flag == VALID ==> s.flag == VALID) && (Settled(s) && !QueryLost(s, t, k) ==> Serene(s, t))
    requires CmdsAged(t.cmds, u.cmds)
    ensures Fate(s, u, k)
  {
    hide Settled, Serene, CmdsAged, QueryFailed;
    var c := s.timerPending[k].cmd;
    ExecutedTried(t, t.cmds[c], u.cmds[c]);
    if Settled(s) && !QueryLost(s, u, k) {
      LostStays(s, t, u, k);
      SereneExecuted(s, t, t.cmds[c], u.cmds[c]);
    }
  }

  lemma BurningSerene(s: State, t: State, u: State, k: nat)
    requires StillDelayed(s, t, k) && k < |s.timerPending| && t.timerPending != []
    requires t.timerPending[0].cmd == s.timerPending[k].cmd && t.timerPending[0].cmd in t.cmds
    requires Settled(s) && !QueryLost(s, t, k) ==> Serene(s, t)
    requires Progress(Undelay(t), u, {t.timerPending[0].cmd}, {}) && HeldStep(Undelay(t), u, t.timerPending[0].cmd)
    requires Inv(s) && CmdsAged(t.cmds, u.cmds)
    ensures Settled(s) && !QueryLost(s, u, k + 1) ==> Serene(s, u)
  {
    hide Progress, HeldStep, Settled, Serene, CmdsAged, InvParked, InvDelayed, InvQueued, InvHands, InvPool, InvTold,
        InvTimer;
    var c := s.timerPending[k].cmd;
    if Settled(s) && !QueryLost(s, u, k + 1) {
      LostStays(s, t, u, k);
      SereneNext(s, t, Undelay(t), u, c);
      assert s.cmds[c].Ok();
      assert !QueryFailed(s, u, s.timerPending[k].cmd);
    }
  }

  /** When the list is empty or its first command is not due, exactly what was due has fired. */
  lemma FiringEnds(s: State, t: State, k: nat)
    requires Inv(t) && Firing(s, t, k)
    requires t.timerPending == [] || !AtMost(t.timerPending[0].at, s.now)
    ensures forall i :: 0 <= i < |s.timerPending| ==> (i < k <==> AtMost(s.timerPending[i].at, s.now))
    ensures forall i :: 0 <= i < |t.timerPending| ==> !AtMost(t.timerPending[i].at, s.now)
    ensures s.timerPending[k..] <= t.timerPending
  {
    hide InvParked, InvDelayed, InvHands, InvOk, InvQueued, InvPool, PoolProgress, CmdsAged, InvTold;
    forall i | 0 <= i < |t.timerPending| ensures !AtMost(t.timerPending[i].at, s.now) {
      assert i > 0 ==> AtMost(t.timerPending[0].at, t.timerPending[i].at);
    }
    forall i | k <= i < |s.timerPending| ensures !AtMost(s.timerPending[i].at, s.now) {
      assert s.timerPending[k..][i - k] == s.timerPending[i] == t.timerPending[i - k];
    }
  }

  // ---- Connect timeouts.

  /** The connection was in the connecting phase that a timeout of s was set for. */
  ghost predicate TimedOut(s: State, n: string) {
    && n in s.pool && s.pool[n].status == CONNECTING
    && exists i :: 0 <= i < |s.timerConns| && s.timerConns[i].name == n && s.timerConns[i].timeout <= s.now.sec
                   && s.timerConns[i].sequence == s.pool[n].sequence
  }

  /** A timeout has passed, with all those that were set before it. */
  predicate Passed(timerConns: seq<ConnTimeout>, i: int, sec: int) {
    0 <= i < |timerConns| && forall k :: 0 <= k <= i ==> timerConns[k].timeout <= sec
  }

  /** The connecting phase that a timeout was set for is over. */
  predicate Outlived(pool: Pool, e: ConnTimeout) {
    e.name in pool ==> pool[e.name].sequence != e.sequence
  }

  lemma OutlivedStays(pool: Pool, alloc: nat, pool': Pool, drop: set<string>, e: ConnTimeout)
    requires Outlived(pool, e) && PoolProgress(pool, alloc, pool', drop) && e.sequence < alloc
    ensures Outlived(pool', e)
  {
    hide Refusing;
  }

  /** In the course of the connect timeouts: the first j were looked at, and just the connections in
      `dropped`, which had timed out in s, were released for it. Since then the timer list has only
      grown. */
  ghost predicate Expiring(s: State, t: State, pending: seq<Delay>, j: nat, dropped: set<string>) {
    && t.now == s.now && t.env == s.env && s.seqAlloc <= t.seqAlloc
    && pending <= t.timerPending
    && (forall i :: |pending| <= i < |t.timerPending| ==> t.timerPending[i].at == Deadline(s.now, s.env.interval))
    && j <= |s.timerConns| && s.timerConns[j..] <= t.timerConns
    && (forall i :: |s.timerConns| - j <= i < |t.timerConns| ==> s.now.sec < t.timerConns[i].timeout)
    && (forall i :: 0 <= i < j ==> Outlived(t.pool, s.timerConns[i]))
    && (forall n <- dropped :: TimedOut(s, n))
    && PoolProgress(s.pool, s.seqAlloc, t.pool, dropped)
    && TableProgress(s.pool, s.history, t.history, dropped)
  }

  lemma ExpiringBegins(s: State, t: State, k: nat)
    requires Firing(s, t, k)
    ensures Expiring(s, t, t.timerPending, 0, {})
  {
    hide PoolProgress, CmdsAged;
  }

  /** The first timeout, if it has passed, is an old one; and if its sequence is still that of the pooled
      connection, that connection was connecting all the time. */
  lemma ExpiredKnown(s: State, t: State, pending: seq<Delay>, j: nat, dropped: set<string>)
    requires Inv(s) && Inv(t) && Rest(t) && Expiring(s, t, pending, j, dropped)
    requires t.timerConns != [] && t.timerConns[0].timeout <= s.now.sec
    ensures j < |s.timerConns| && t.timerConns[0] == s.timerConns[j]
    ensures var e := t.timerConns[0];
      e.name in t.pool && t.pool[e.name].sequence == e.sequence ==>
        TimedOut(s, e.name) && t.pool[e.name].status == CONNECTING && t.pool[e.name].context.Some?
        && e.name in s.pool && t.pool[e.name].context == s.pool[e.name].context
        && s.pool[e.name].replyList <= t.pool[e.name].replyList
  {
    hide InvParked, InvDelayed, InvHands, InvOk, InvQueued, InvTimer, Refusing, InvTold;
    assert j < |s.timerConns|;
    assert s.timerConns[j..][0] == s.timerConns[j];
  }

  /** The connection was released while it was connecting: its commands have failed in order, and the user was
      told that the attempt has failed. */
  ghost predicate Ended(s: State, t: State, n: string) {
    && n in s.pool && CompletedInOrder(s, t, s.pool[n].replyList, CONNECTION)
    && Noticed(s, t, ConnectEnded(n, false))
  }

  ghost predicate AllEnded(s: State, t: State, dropped: set<string>) {
    QueuedKept(s.cmds, t.cmds) && forall n <- dropped :: Ended(s, t, n)
  }

  lemma EndedNow(s: State, t: State, u: State, n: string)
    requires Inv(s) && QueuedKept(s.cmds, t.cmds) && Later(s, t) && InvQueued(t.pool, t.cmds)
    requires n in s.pool && n in t.pool && s.pool[n].replyList <= t.pool[n].replyList
    requires CompletedInOrder(t, u, t.pool[n].replyList, CONNECTION) && Noticed(t, u, ConnectEnded(n, false))
    ensures Ended(s, u, n)
  {
    hide InvParked, InvDelayed, InvHands, InvOk, InvTimer, InvPool, CmdsAged, InvTold, Noticed;
    NoticedFrom(s, t, u, ConnectEnded(n, false));
    var list, long := s.pool[n].replyList, t.pool[n].replyList;
    forall i | 0 <= i < |list|
      ensures list[i] == long[i] && list[i] in s.cmds && list[i] in t.cmds && t.cmds[list[i]] == s.cmds[list[i]]
    {
      assert list[i] in list && long[i] in long;
    }
  }

  lemma QueuedInv(s: State)
    requires Inv(s)
    ensures InvQueued(s.pool, s.cmds)
  {
    hide InvQueued;
  }

  lemma EndedKept(s: State, t: State, u: State, n: string)
    requires Ended(s, t, n) && Later(t, u)
    ensures Ended(s, u, n)
  {
    hide CompletedInOrder, CmdsAged;
    CompletedStays(s, t, u, s.pool[n].replyList, CONNECTION);
    NoticedStays(s, t, u, ConnectEnded(n, false));
  }

  lemma EndedIs(s: State, t: State, dropped: set<string>, u: State, n: string)
    requires Inv(s) && Inv(t) && AllEnded(s, t, dropped) && Later(s, t)
    requires n in s.pool && n in t.pool && s.pool[n].replyList <= t.pool[n].replyList
    requires CompletedInOrder(t, u, t.pool[n].replyList, CONNECTION) && Noticed(t, u, ConnectEnded(n, false))
    ensures Ended(s, u, n)
  {
    hide InvParked, InvDelayed, InvQueued, InvHands, InvOk, InvTimer, InvPool, CmdsAged, InvTold, Noticed, Ended,
        QueuedKept, Later, CompletedInOrder;
    EndedNow(s, t, u, n);
  }

  lemma AllEndedSame(s: State, t: State, t': State, dropped: set<string>)
    requires AllEnded(s, t, dropped) && t'.cmds == t.cmds && t'.completions == t.completions && t'.notices == t.notices
    ensures AllEnded(s, t', dropped)
  {
    forall n <- dropped ensures Ended(s, t', n) {
      assert Ended(s, t, n);
    }
  }

  lemma AllEndedFacts(s: State, t: State, dropped: set<string>)
    requires AllEnded(s, t, dropped)
    ensures forall n <- dropped :: Ended(s, t, n)
  {
    hide Ended;
  }

  lemma AllEndedBegins(s: State, t: State, k: nat)
    requires Burning(s, t, k)
    ensures AllEnded(s, t, {}) && Fired(s, t, k)
  {
    hide QueuedKept, Fired, Serene, Settled;
  }

  /** One more connection is released, if any. */
  lemma AllEndedNext(s: State, t: State, u: State, dropped: set<string>, drop: set<string>)
    requires AllEnded(s, t, dropped) && Later(t, u) && CmdsProgress(t.cmds, u.cmds, {})
    requires forall n <- drop :: Ended(s, u, n)
    ensures AllEnded(s, u, dropped + drop)
  {
    hide Ended, CmdsAged;
    forall n <- dropped ensures Ended(s, u, n) {
      EndedKept(s, t, u, n);
    }
  }

  /** One of the commands that may change has changed before. */
  lemma CmdsProgressFrom(r: Cmds, s: Cmds, t: Cmds, c: CmdId, take: set<CmdId>)
    requires c in s && s == r[c := s[c]] && CmdsProgress(s, t, {c} + take)
    ensures CmdsProgress(r, t, {c} + take)
  {
  }

  lemma AskingOkay(s: State, c: CmdId)
    requires Inv(s) && c in s.cmds
    ensures s.cmds[c].Ok()
  {
    hide InvParked, InvDelayed, InvQueued, InvPool, InvTimer, InvHands, InvTold;
  }

  lemma NothingFired(cmds: Cmds)
    ensures var none: seq<CmdId> := []; CmdsProgress(cmds, cmds, set c <- none)
  {
  }

  /** One more delayed command is executed. */
  lemma FiredProgress(s: State, t: State, u: State, fired: seq<CmdId>, c: CmdId)
    requires CmdsProgress(s.cmds, t.cmds, set b <- fired) && t.timerPending != [] && c == t.timerPending[0].cmd
    requires c in t.cmds && t.cmds[c].home == Delayed && Progress(Undelay(t), u, {c}, {})
    ensures CmdsProgress(s.cmds, u.cmds, set b <- fired + [c])
  {
    hide ListsProgress, TableProgress, PoolProgress, CountersProgress, CmdsAged;
    var v := Undelay(t);
    forall b <- s.cmds | b !in fired + [c]
      ensures b in u.cmds && (u.cmds[b] == s.cmds[b] || Lost(s.cmds[b], u.cmds[b]))
    {
      assert b in v.cmds && v.cmds[b] == t.cmds[b] && b != c;
    }
  }

  lemma CmdsProgressOn(r: Cmds, s: Cmds, t: Cmds, take: set<CmdId>)
    requires CmdsProgress(r, s, take) && CmdsProgress(s, t, {})
    ensures CmdsProgress(r, t, take)
  {
  }

  lemma CmdsProgressRefl(cmds: Cmds)
    ensures CmdsProgress(cmds, cmds, {})
  {
  }

  lemma CmdsProgressTrans(r: Cmds, s: Cmds, t: Cmds)
    requires CmdsProgress(r, s, {}) && CmdsProgress(s, t, {})
    ensures CmdsProgress(r, t, {})
  {
  }

  lemma ProgressCmds(s: State, t: State, take: set<CmdId>, drop: set<string>)
    requires Progress(s, t, take, drop)
    ensures CmdsProgress(s.cmds, t.cmds, take) && CmdsAged(s.cmds, t.cmds)
  {
    hide ListsProgress, TableProgress, PoolProgress, CmdsAged;
  }

  /** The connecting phase that a timeout was set for is not over, and the connection takes commands. */
  predicate Awaited(pool: Pool, e: ConnTimeout) {
    e.name in pool && pool[e.name].sequence == e.sequence && !pool[e.name].Refusing()
  }

  /** Such a phase ends only when the connection is released for the timeout. */
  lemma AwaitedDropped(pool: Pool, alloc: nat, pool': Pool, dropped: set<string>, e: ConnTimeout)
    requires PoolProgress(pool, alloc, pool', dropped) && Awaited(pool, e) && Outlived(pool', e)
    ensures e.name in dropped
  {
  }

  lemma ExpiringNext(s: State, t: State, u: State, pending: seq<Delay>, j: nat, dropped: set<string>, drop: set<string>)
    requires Expiring(s, t, pending, j, dropped) && j < |s.timerConns| && t.timerConns != []
    requires Inv(s) && Outlived(u.pool, s.timerConns[j])
    requires Progress(t, u, {}, drop) && u.timerConns != [] && forall n <- drop :: TimedOut(s, n)
    ensures Expiring(s, u.(timerConns := u.timerConns[1..]), pending, j + 1, dropped + drop)
  {
    hide PoolProgress, TableProgress, CmdsProgress, TimedOut, CmdsAged, Outlived, InvParked, InvDelayed, InvHands,
        InvOk, InvQueued, InvTimer, InvTold;
    forall i | 0 <= i < j ensures Outlived(u.pool, s.timerConns[i]) {
      OutlivedStays(t.pool, t.seqAlloc, u.pool, drop, s.timerConns[i]);
    }
    TableProgressTrans(s.pool, s.seqAlloc, t.pool, s.history, t.history, u.history, dropped, drop);
    PoolProgressTrans(s.pool, s.seqAlloc, t.pool, t.seqAlloc, u.pool, dropped, drop);
    assert s.timerConns[j..][1..] == s.timerConns[j + 1..];
    forall i | |pending| <= i < |u.timerPending| ensures u.timerPending[i].at == Deadline(s.now, s.env.interval) {
      if i < |t.timerPending| {
        assert u.timerPending[i] == t.timerPending[i];
      }
    }
    var rest := u.timerConns[1..];
    forall i | |s.timerConns| - j - 1 <= i < |rest| ensures s.now.sec < rest[i].timeout {
      assert rest[i] == u.timerConns[i + 1];
      if i + 1 < |t.timerConns| {
        assert u.timerConns[i + 1] == t.timerConns[i + 1];
      }
    }
  }

  /** When no timeout is left that has passed, every one that had passed is dealt with. */
  lemma ExpiringEnds(s: State, t: State, pending: seq<Delay>, j: nat, dropped: set<string>, i: nat)
    requires Expiring(s, t, pending, j, dropped) && (t.timerConns == [] || s.now.sec < t.timerConns[0].timeout)
    requires Passed(s.timerConns, i, s.now.sec)
    ensures Outlived(t.pool, s.timerConns[i])
  {
    hide PoolProgress, Outlived, TimedOut;
  }

  lemma DropTimeoutKeeps(t: State, s: State, drop: set<string>)
    requires Inv(s) && Progress(t, s, {}, drop) && t.timerConns != []
    ensures s.timerConns != [] && Inv(s.(timerConns := s.timerConns[1..]))
  {
    hide InvParked, InvDelayed, InvHands, InvOk, InvQueued, InvTimer, CmdsProgress, PoolProgress, CmdsAged, InvTold;
  }

  lemma FiringNow(s: State, t: State, k: nat)
    requires Firing(s, t, k)
    ensures t.now == s.now && k <= |s.timerPending|
  {
  }

  lemma ExpiringTable(s: State, t: State, pending: seq<Delay>, j: nat, dropped: set<string>)
    requires Expiring(s, t, pending, j, dropped)
    ensures TableProgress(s.pool, s.history, t.history, dropped)
  {
    hide PoolProgress, TableProgress;
  }

  lemma ExpiringNow(s: State, t: State, pending: seq<Delay>, j: nat, dropped: set<string>)
    requires Expiring(s, t, pending, j, dropped)
    requires !AtMost(Deadline(s.now, s.env.interval), s.now)
    requires forall i :: 0 <= i < |pending| ==> !AtMost(pending[i].at, s.now)
    ensures pending <= t.timerPending && forall i :: 0 <= i < |t.timerPending| ==> !AtMost(t.timerPending[i].at, s.now)
    ensures t.now == s.now && j <= |s.timerConns|
    ensures PoolProgress(s.pool, s.seqAlloc, t.pool, dropped) && forall n <- dropped :: TimedOut(s, n)
  {
  }

  lemma HandIn(s: State, c: CmdId)
    requires Inv(s) && c in s.cmds && s.cmds[c].home == InHand
    ensures c in s.inHand
  {
    hide InvParked, InvDelayed, InvOk, InvQueued, InvTimer, InvPool, InvTold;
  }

  lemma CompletedFrom(s: State, s': State, t: State, list: seq<CmdId>, code: Code)
    requires CompletedInOrder(s', t, list, code) && s'.cmds == s.cmds && s'.completions == s.completions
    ensures CompletedInOrder(s, t, list, code)
  {
  }

  /** A connecting connection is connected, and starts a new operation. */
  function Connected(s: State, n: string, sequence: nat, next: nat): State
    requires n in s.pool
  {
    s.(pool := s.pool[n := s.pool[n].(status := CONNECTED, sequence := sequence)], seqAlloc := next)
  }

  lemma ConnectedKeeps(s: State, n: string, sequence: nat, next: nat)
    requires Inv(s) && Rest(s) && n in s.pool && s.pool[n].context.Some? && s.seqAlloc <= sequence < next
    requires 0 < sequence
    ensures Inv(Connected(s, n, sequence, next)) && Rest(Connected(s, n, sequence, next))
  {
    hide InvParked, InvDelayed, InvHands, InvOk, InvQueued, InvTimer, InvTold;
    QueuedPoolFrame(s.pool, s.cmds, n, s.pool[n].(status := CONNECTED, sequence := sequence));
  }

  /** Only that connection changes. */
  lemma ConnectedElsewhere(s: State, n: string, sequence: nat, next: nat)
    requires n in s.pool && s.seqAlloc <= next
    ensures Elsewhere(s, Connected(s, n, sequence, next), n, {})
  {
    hide CmdsAged, PoolProgress;
    assert Connected(s, n, sequence, next).pool - {n} == s.pool - {n};
    SamePool(s.pool - {n}, s.seqAlloc);
    AgedRefl(s.cmds);
  }

  /** The connection is as it was, but connected if it was connecting, and with further commands. */
  predicate Advances(v: ConnState, w: ConnState) {
    Grown(if v.status == CONNECTING then v.(status := CONNECTED, sequence := w.sequence) else v, w)
  }

  lemma GrownStatus(v: ConnState, w: ConnState)
    requires Grown(v, w)
    ensures w.status == v.status && w.context == v.context && v.replyList <= w.replyList
  {
  }

  lemma AdvancesAfter(v: ConnState, w: ConnState, x: ConnState)
    requires Grown(v, w) && Advances(w, x) && v.status != DISCONNECTED
    ensures Advances(v, x)
  {
  }

  /** No connect timeout matches a connected connection. */
  lemma ConnectedSafe(s: State, n: string)
    requires Inv(s) && n in s.pool && s.pool[n].status == CONNECTED
    ensures forall i :: 0 <= i < |s.timerConns| ==> s.timerConns[i].sequence != s.pool[n].sequence
  {
    hide InvParked, InvDelayed, InvHands, InvOk, InvQueued, InvTimer, InvTold;
  }

  /** A connection that was used for a while by callbacks is released. */
  lemma CompletedGrown(s: State, t: State, u: State, n: string, list: seq<CmdId>)
    requires Inv(s) && Inv(t) && Progress(s, t, {}, {}) && n in s.pool && n in t.pool
    requires s.pool[n].replyList <= t.pool[n].replyList
    requires CompletedInOrder(t, u, t.pool[n].replyList, CONNECTION) && list == s.pool[n].replyList
    ensures CompletedInOrder(s, u, list, CONNECTION)
  {
    hide InvParked, InvDelayed, InvHands, InvOk, InvTimer, InvPool, ListsProgress, TableProgress, PoolProgress,
        CmdsAged, InvTold;
    var long := t.pool[n].replyList;
    forall i | 0 <= i < |list|
      ensures list[i] == long[i] && list[i] in s.cmds && t.cmds[list[i]] == s.cmds[list[i]]
    {
      assert list[i] in list && long[i] in long;
    }
  }

  // ---- What the entry points build on.

  /** A callback after others, all of which end. */
  lemma BackOn(s: State, t: State, u: State, polite: bool)
    requires BackStep(s, t, polite) && Onward(s, t, polite) && BackStep(t, u, polite)
    ensures BackStep(s, u, polite)
  {
    hide Calm, Later, OnlyRemoved;
  }

  /** Where the command was does not matter for how it was answered. */
  lemma AnsweredFrom(v: CmdState, v': CmdState, w: CmdState, code: Code)
    requires v == v'.(home := v.home) && Answered(v', w, code)
    ensures Answered(v, w, code) && (v.callback ==> w.errorCode == code)
  {
  }

  lemma NoticedFrom(s: State, t: State, u: State, x: Notice)
    requires Later(s, t)
    ensures Noticed(t, u, x) ==> Noticed(s, u, x)
  {
    hide CmdsAged;
  }

  lemma LaterAges(s: State, t: State)
    requires Later(s, t)
    ensures CmdsAged(s.cmds, t.cmds)
  {
    hide CmdsAged;
  }

  lemma LaterNotices(s: State, t: State)
    requires Later(s, t)
    ensures s.notices <= t.notices
  {
    hide CmdsAged;
  }

  /** What was answered stays answered. */
  lemma DoneStays(s: State, t: State, c: CmdId)
    requires Later(s, t) && c in s.cmds && s.cmds[c].home == Done && s.cmds[c].destroyed
    ensures c in t.cmds && t.cmds[c] == s.cmds[c]
  {
  }

  lemma CalmConnected(s: State, n: string, sequence: nat, next: nat, polite: bool)
    requires n in s.pool && s.pool[n].status == CONNECTING
    ensures Calm(s, polite) ==> Calm(Connected(s, n, sequence, next), polite)
  {
    hide Sheltered, Silent, Refusing;
    var t := Connected(s, n, sequence, next);
    if Calm(s, polite) && !CalmInit(s, polite) {
      RefusingSame(s.pool, t.pool, n);
      SameTable(s.pool, s.history);
      ShelterKept(s.pool, s.history, t.pool, t.history, {}, {});
    }
  }

  lemma ConnectedOnward(s: State, n: string, sequence: nat, next: nat, polite: bool)
    requires n in s.pool && s.pool[n].status == CONNECTING && s.seqAlloc <= next
    ensures Onward(s, Connected(s, n, sequence, next), polite)
  {
    hide Later, Calm;
    CalmConnected(s, n, sequence, next, polite);
    LaterSame(s, Connected(s, n, sequence, next));
  }

  /** At rest and outside all callbacks nothing is stuck. */
  lemma NothingStuck(s: State, polite: bool)
    requires Rest(s) && forall n <- s.pool :: !s.pool[n].InCallback()
    ensures polite ==> CalmInit(s, polite)
  {
  }

  /** The connections that a connect timeout that has passed was set for. */
  ghost function Late(s: State): set<string> {
    set n | n in s.pool && TimedOut(s, n)
  }

  /** To release the connections that were connecting for too long ends: callbacks are polite, that of the
      initial endpoint is not among them and takes commands, or every slot has a host that serves without
      them. */
  ghost predicate Timely(s: State, polite: bool) {
    polite || (CalmInit(s, polite) && !TimedOut(s, s.env.init)) || Sheltered(s.pool, s.history, Late(s))
  }

  lemma TimelyCalm(s: State, polite: bool)
    requires Timely(s, polite) && Rest(s) && forall n <- s.pool :: !s.pool[n].InCallback()
    ensures Calm(s, polite)
  {
    hide CalmInit, Sheltered, TimedOut;
    NothingStuck(s, polite);
    if Sheltered(s.pool, s.history, Late(s)) {
      ShelterLess(s.pool, s.history, Late(s), {});
    }
  }

  lemma LateHas(s: State, names: set<string>)
    requires forall n <- names :: TimedOut(s, n)
    ensures names <= Late(s)
  {
  }

  /** In the course of the connect timeouts, those handled so far do no harm to the next. */
  lemma TimelyGentle(s: State, t: State, pending: seq<Delay>, j: nat, dropped: set<string>, n: string, polite: bool)
    requires Timely(s, polite) && Expiring(s, t, pending, j, dropped) && CmdsAged(s.cmds, t.cmds)
    requires TimedOut(s, n) && n in t.pool
    ensures Gentle(t, n, true, polite)
  {
    hide PoolProgress, TableProgress, CmdsAged, CalmInit, Sheltered, Mild, TimedOut, Outlived, Refusing;
    if !polite {
      if CalmInit(s, polite) && !TimedOut(s, s.env.init) {
        InitGrown(s, t, dropped, polite);
      } else {
        LateHas(s, dropped + {n});
        PoolRefusing(s.pool, s.seqAlloc, t.pool, dropped);
        ShelterKept(s.pool, s.history, t.pool, t.history, dropped, Late(s));
        ShelterLess(t.pool, t.history, Late(s), {n});
      }
      CloseIsMild(t, n, polite);
    }
  }

  /** A timeout that has passed is one of those that were set at the start. */
  lemma ExpiringMore(s: State, t: State, pending: seq<Delay>, j: nat, dropped: set<string>)
    requires Expiring(s, t, pending, j, dropped) && t.timerConns != [] && t.timerConns[0].timeout <= s.now.sec
    ensures j < |s.timerConns|
  {
    hide PoolProgress;
  }

  lemma ResetEnds(s: State, t: State, u: State, v: State, w: State)
    requires Later(s, t) && Later(t, u) && Later(u, v)
    requires w.cmds == v.cmds && w.completions == v.completions && w.nextCmd == v.nextCmd && w.seqAlloc == v.seqAlloc
    requires w.notices == v.notices
    requires CompletedInOrder(s, v, s.slotPending, SLOT_UNAVAILABLE)
    requires CompletedInOrder(s, v, TimerCmds(s.timerPending), TIMEOUT)
    ensures Later(s, w)
    ensures CompletedInOrder(s, w, s.slotPending, SLOT_UNAVAILABLE)
    ensures CompletedInOrder(s, w, TimerCmds(s.timerPending), TIMEOUT)
  {
    hide Later, CompletedInOrder;
    LaterTrans(s, t, u);
    LaterTrans(s, u, v);
    LaterSame(v, w);
    LaterTrans(s, v, w);
    CompletedStays(s, v, w, s.slotPending, SLOT_UNAVAILABLE);
    CompletedStays(s, v, w, TimerCmds(s.timerPending), TIMEOUT);
  }

  /** A new command was handed over. */
  lemma SubmitProgress(s: State, t: State, c: CmdId, u: State, polite: bool)
    requires Inv(s) && Rest(s) && c == s.nextCmd && c in t.cmds && t == Create(s, t.cmds[c])
    requires Progress(t, u, {c}, {}) && CalmStep(t, u, polite)
    ensures Rest(u) && Onward(s, u, polite) && c !in s.cmds
  {
    hide Progress, Holding, Onward, InvParked, InvDelayed, InvQueued, InvPool, InvTimer, InvHands, Refusing, InvTold;
    CreateProgress(s, t.cmds[c], u);
    CalmSame(s, t, u, polite);
    RestKept(s, u, {});
    ProgressOnward(s, u, {}, polite);
  }

  lemma AllowancesFree(s: State, t: State)
    requires Inv(s) && Rest(s)
    requires t == s.(env := s.env.(reachable := t.env.reachable), budget := t.budget, fuel := t.fuel)
    ensures Inv(t) && Rest(t)
  {
    hide InvParked, InvDelayed, InvQueued, InvPool, InvTimer, InvHands, InvOk, InvTold;
  }

  lemma ProgressRemoved(s: State, t: State, take: set<CmdId>, drop: set<string>)
    requires Progress(s, t, take, drop)
    ensures OnlyRemoved(s.history, t.history)
  {
    hide CmdsProgress, PoolProgress, CmdsAged, CountersProgress;
  }

  lemma ProgressLater(s: State, t: State, take: set<CmdId>, drop: set<string>)
    requires Progress(s, t, take, drop)
    ensures Later(s, t) && t.now == s.now && t.budget <= s.budget
  {
    hide CmdsProgress, PoolProgress, CmdsAged, ListsProgress, TableProgress;
  }

  lemma ProgressDelays(s: State, t: State, take: set<CmdId>, drop: set<string>)
    requires Progress(s, t, take, drop)
    ensures s.timerPending <= t.timerPending && t.now == s.now
    ensures forall i :: |s.timerPending| <= i < |t.timerPending| ==>
      t.timerPending[i].at == Deadline(s.now, s.env.interval)
  {
    hide CmdsProgress, PoolProgress, CmdsAged;
  }

  // ---- Asking for the table.

  /** The table has been asked for: the answer is awaited, or there is a query that was not there before. */
  ghost predicate AskedFor(s: State, t: State) {
    t.halted || t.flag == UPDATING || exists q :: s.nextCmd <= q && q in t.cmds && t.cmds[q].kind == SlotQuery
  }

  lemma AskedForSince(r: State, s: State, t: State, u: State)
    requires AskedFor(t, u) && Later(s, t) && r.nextCmd == s.nextCmd
    ensures AskedFor(r, u)
  {
    hide CmdsAged;
  }

  /** A connection can be opened to every endpoint that is known. */
  ghost predicate AllReachable(s: State, init: string) {
    init in s.env.reachable && HostsIn(s.history, s.env.reachable)
  }

  lemma OnwardReachable(s: State, t: State, polite: bool, init: string)
    requires Onward(s, t, polite)
    ensures AllReachable(s, init) ==> AllReachable(t, init)
  {
    hide HostsIn, Later, Quiet, OnlyRemoved;
    if AllReachable(s, init) {
      HostsStayIn(s.history, t.history, s.env.reachable);
    }
  }

  lemma ReachableSame(s: State, t: State, u: State, init: string)
    requires t.env == s.env && t.history == s.history && t.nextCmd == s.nextCmd
    ensures AllReachable(s, init) ==> AllReachable(t, init)
    ensures AskedFor(t, u) ==> AskedFor(s, u)
  {
  }

  lemma MovedReachable(s: State, t: State, slot: nat, key: Key, init: string)
    requires t.env == s.env && t.history == s.history + [Edit.Moved(slot, key)]
    ensures AllReachable(s, init) && key.name in s.env.reachable ==> AllReachable(t, init)
  {
    if AllReachable(s, init) && key.name in s.env.reachable {
      forall i: int, k | k in Replay(t.history, i) ensures k.name in s.env.reachable {
        assert t.history[..|s.history|] == s.history;
        assert k in Replay(s.history, i) || k == key;
      }
    }
  }

  /** All hosts of all slots are among the given ones. */
  ghost predicate HostsIn(h: seq<Edit>, names: set<string>) {
    forall slot: int :: forall k <- Replay(h, slot) :: k.name in names
  }

  lemma {:induction false} HostsStayIn(h: seq<Edit>, h': seq<Edit>, names: set<string>)
    requires HostsIn(h, names) && OnlyRemoved(h, h')
    ensures HostsIn(h', names)
    decreases |h'|
  {
    if |h'| == |h| {
      assert h' == h;
    } else {
      var shorter := h'[..|h'| - 1];
      HostsStayIn(h, shorter, names);
      var e := h'[|h'| - 1];
      assert e.Remove?;
      forall slot: int, k | k in Replay(h', slot) ensures k.name in names {
        assert Replay(h', slot) == WithoutLeader(Replay(shorter, slot), e.name);
        FewerHosts(Replay(shorter, slot), e.name, k);
      }
    }
  }
}
