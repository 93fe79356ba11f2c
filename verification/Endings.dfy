/** When a call of the cluster client surely ends, and when it surely does not. */
module Endings {
  import opened Types
  import opened Connections
  import opened SlotTables
  import opened Ledger

  // ---- Hosts that serve.

  /** The host has no pooled connection, or one that takes commands. */
  predicate Serving(pool: Pool, k: Key) {
    k.name in pool ==> !pool[k.name].Refusing()
  }

  predicate Sheltering(hosts: seq<Key>, pool: Pool, besides: set<string>) {
    exists j :: 0 <= j < |hosts| && Serving(pool, hosts[j]) && hosts[j].name !in besides
  }

  /** Every slot has a host that serves, not counting those in `besides`. */
  ghost predicate Sheltered(pool: Pool, h: seq<Edit>, besides: set<string>) {
    forall i :: 0 <= i < SLOT_NUMBER ==> Sheltering(Replay(h, i), pool, besides)
  }

  /** Only hosts that do not serve are removed, so that the others go on sheltering every slot. */
  lemma ShelterKept(pool: Pool, h: seq<Edit>, pool': Pool, h': seq<Edit>, drop: set<string>, besides: set<string>)
    requires Sheltered(pool, h, besides) && TableProgress(pool, h, h', drop) && drop <= besides
    requires Refusing(pool') <= Refusing(pool) + besides
    ensures Sheltered(pool', h', besides)
  {
    forall i | 0 <= i < SLOT_NUMBER ensures Sheltering(Replay(h', i), pool', besides) {
      assert Sheltering(Replay(h, i), pool, besides);
      var hosts := Replay(h, i);
      var j :| 0 <= j < |hosts| && Serving(pool, hosts[j]) && hosts[j].name !in besides;
      HostStays(h, h', i, hosts[j]);
      var l :| 0 <= l < |Replay(h', i)| && Replay(h', i)[l] == hosts[j];
      RefusingHas(pool, hosts[j].name);
      RefusingHas(pool', hosts[j].name);
    }
  }

  lemma ShelterLess(pool: Pool, h: seq<Edit>, besides: set<string>, besides': set<string>)
    requires Sheltered(pool, h, besides) && besides' <= besides
    ensures Sheltered(pool, h, besides')
  {
    forall i | 0 <= i < SLOT_NUMBER ensures Sheltering(Replay(h, i), pool, besides') {
      assert Sheltering(Replay(h, i), pool, besides);
    }
  }

  // ---- Calm states.

  /** None of the commands has a user's callback: whatever becomes of them, nobody submits. */
  predicate Silent(list: seq<CmdId>, cmds: Cmds) {
    forall c <- list :: c in cmds && !cmds[c].Rings()
  }

  /** Meeting the connection cannot lead to another meeting: it takes commands, or it is given up before
      anybody who submits is called. */
  predicate CalmConn(v: ConnState, cmds: Cmds, polite: bool) {
    !v.Refusing() || (!Stuck(v) && (polite || Silent(v.replyList, cmds)))
  }

  /** The connection of the initial endpoint is not met in vain. */
  ghost predicate CalmInit(s: State, polite: bool) {
    s.env.init in s.pool ==> CalmConn(s.pool[s.env.init], s.cmds, polite)
  }

  /** Every call made in such a state ends. Connections other than that of the initial endpoint are met only as
      long as the slot table leads to them, and that one only where the table leads nowhere. */
  ghost predicate Calm(s: State, polite: bool) {
    CalmInit(s, polite) || Sheltered(s.pool, s.history, {})
  }

  ghost predicate CalmStep(s: State, t: State, polite: bool) {
    Calm(s, polite) ==> Unhurried(s, t)
  }

  /** As CalmStep, for functions that only call back: with polite callbacks they end anyway. */
  ghost predicate BackStep(s: State, t: State, polite: bool) {
    polite || Calm(s, polite) ==> Unhurried(s, t)
  }

  /** What decides whose callbacks the commands have does not change. */
  ghost predicate KindsKept(cmds: Cmds, cmds': Cmds) {
    forall c <- cmds :: c in cmds' && cmds'[c].kind == cmds[c].kind && cmds'[c].given == cmds[c].given
  }

  lemma KindsAged(cmds: Cmds, cmds': Cmds)
    requires CmdsAged(cmds, cmds')
    ensures KindsKept(cmds, cmds')
  {
  }

  /** One command is new, or changes but for whose callback it has. */
  lemma KindsOne(cmds: Cmds, c: CmdId, w: CmdState)
    requires c in cmds ==> w.kind == cmds[c].kind && w.given == cmds[c].given
    ensures KindsKept(cmds, cmds[c := w])
  {
  }

  lemma SilentKept(list: seq<CmdId>, cmds: Cmds, cmds': Cmds)
    requires Silent(list, cmds) && KindsKept(cmds, cmds')
    ensures Silent(list, cmds')
  {
  }

  lemma InitGrown(s: State, t: State, drop: set<string>, polite: bool)
    requires PoolProgress(s.pool, s.seqAlloc, t.pool, drop) && CmdsAged(s.cmds, t.cmds) && t.env == s.env
    requires CalmInit(s, polite)
    ensures CalmInit(t, polite)
  {
    hide CmdsAged, Silent, KindsKept;
    KindsAged(s.cmds, t.cmds);
    var n := s.env.init;
    if n in s.pool && Silent(s.pool[n].replyList, s.cmds) {
      SilentKept(s.pool[n].replyList, s.cmds, t.cmds);
    }
  }

  /** In a call the connection of the initial endpoint does not turn bad, whatever is released. */
  lemma InitKept(s: State, t: State, polite: bool, take: set<CmdId>, drop: set<string>)
    requires Progress(s, t, take, drop) && CalmInit(s, polite)
    ensures CalmInit(t, polite)
  {
    hide ListsProgress, TableProgress, CmdsProgress, CmdsAged, PoolProgress, CalmInit;
    InitGrown(s, t, drop, polite);
  }

  lemma PoolRefusing(pool: Pool, alloc: nat, pool': Pool, drop: set<string>)
    requires PoolProgress(pool, alloc, pool', drop)
    ensures Refusing(pool') <= Refusing(pool)
  {
  }

  lemma ProgressTable(s: State, t: State, take: set<CmdId>, drop: set<string>)
    requires Progress(s, t, take, drop)
    ensures TableProgress(s.pool, s.history, t.history, drop)
  {
    hide ListsProgress, TableProgress, CmdsProgress, CmdsAged, PoolProgress;
  }

  /** A call that releases only connections that refuse commands leads from a calm state to a calm one. */
  lemma CalmKept(s: State, t: State, polite: bool, take: set<CmdId>)
    requires Progress(s, t, take, {}) && Calm(s, polite)
    ensures Calm(t, polite)
  {
    hide Progress, TableProgress, CalmInit, Sheltered, Refusing;
    if CalmInit(s, polite) {
      InitKept(s, t, polite, take, {});
    } else {
      ProgressTable(s, t, take, {});
      RefusingShrinks(s, t, take, {});
      ShelterKept(s.pool, s.history, t.pool, t.history, {}, {});
    }
  }

  /** A connection that does not refuse commands, or has to stay, loses the first command of its list. */
  lemma CalmDequeue(s: State, n: string, polite: bool)
    requires n in s.pool && s.pool[n].replyList != [] && s.pool[n].replyList[0] in s.cmds && !MayGo(s.pool[n])
    ensures Calm(s, polite) ==> Calm(Dequeue(s, n), polite)
  {
    hide Sheltered, Silent, Refusing;
    var t, m := Dequeue(s, n), s.env.init;
    if CalmInit(s, polite) {
      if m in s.pool && Silent(s.pool[m].replyList, s.cmds) && m != n {
        SilentKept(s.pool[m].replyList, s.cmds, t.cmds);
      }
    } else if Calm(s, polite) {
      RefusingSame(s.pool, t.pool, n);
      SameTable(s.pool, s.history);
      ShelterKept(s.pool, s.history, t.pool, t.history, {}, {});
    }
  }

  lemma RefusingSame(pool: Pool, pool': Pool, n: string)
    requires n in pool && n in pool' && pool' == pool[n := pool'[n]] && pool'[n].context == pool[n].context
    ensures Refusing(pool') == Refusing(pool)
  {
  }

  lemma DroppedBack(s: State, t: State, n: string, polite: bool)
    requires n in s.pool && s.pool[n].replyList != [] && s.pool[n].replyList[0] in s.cmds && !MayGo(s.pool[n])
    requires BackStep(Dequeue(s, n), t, polite)
    ensures BackStep(s, t, polite)
  {
    hide Calm;
    CalmDequeue(s, n, polite);
  }

  lemma DroppedKept(s: State, t: State, n: string, code: Code)
    requires Dropped(s, t, n, code)
    ensures (s.halted ==> t.halted) && t.env == s.env && t.cmds.Keys >= s.cmds.Keys
  {
    hide ListsProgress, TableProgress, CmdsAged, PoolProgress;
  }

  /** A connection loses a command from its list, to its callback. */
  lemma DroppedCalm(s: State, t: State, n: string, code: Code, polite: bool)
    requires Dropped(s, t, n, code) && Calm(s, polite) && (s.pool[n].Refusing() ==> Stuck(s.pool[n]))
    ensures Calm(t, polite)
  {
    hide ListsProgress, TableProgress, CmdsProgress, CmdsAged, Refusing, Sheltered, Silent, KindsKept;
    if CalmInit(s, polite) {
      var m := s.env.init;
      KindsAged(s.cmds, t.cmds);
      if m != n && m in t.pool {
        assert m in t.pool - {n} && (t.pool - {n})[m] == t.pool[m];
        if m in s.pool {
          assert m in s.pool - {n} && (s.pool - {n})[m] == s.pool[m];
          if Silent(s.pool[m].replyList, s.cmds) {
            SilentKept(s.pool[m].replyList, s.cmds, t.cmds);
          }
        }
      }
    } else {
      RefusingElsewhere(s.pool, s.seqAlloc, t.pool, n);
      ShelterKept(s.pool, s.history, t.pool, t.history, {}, {});
    }
  }

  lemma RefusingElsewhere(pool: Pool, alloc: nat, pool': Pool, n: string)
    requires PoolProgress(pool - {n}, alloc, pool' - {n}, {}) && n in pool && n in pool'
    requires pool'[n].Refusing() ==> pool[n].Refusing()
    ensures Refusing(pool') <= Refusing(pool)
  {
    forall m | m in Refusing(pool') ensures m in Refusing(pool) {
      if m != n {
        assert m in pool' - {n} && (pool' - {n})[m] == pool'[m];
      }
    }
  }

  /** The connections, the table and whose callbacks there are decide. */
  lemma CalmFrame(s: State, t: State, polite: bool)
    requires t.pool == s.pool && t.env == s.env && t.history == s.history && KindsKept(s.cmds, t.cmds)
    ensures Calm(s, polite) ==> Calm(t, polite)
  {
    hide Sheltered, KindsKept, Silent;
    var n := s.env.init;
    if n in s.pool && Silent(s.pool[n].replyList, s.cmds) {
      SilentKept(s.pool[n].replyList, s.cmds, t.cmds);
    }
  }

  lemma CalmSame(s: State, s': State, t: State, polite: bool)
    requires s'.pool == s.pool && s'.env == s.env && s'.history == s.history && KindsKept(s.cmds, s'.cmds)
    requires Unhurried(s, s') && CalmStep(s', t, polite)
    ensures CalmStep(s, t, polite)
  {
    hide Calm, KindsKept;
    CalmFrame(s, s', polite);
  }

  lemma BackSame(s: State, s': State, t: State, polite: bool)
    requires s'.pool == s.pool && s'.env == s.env && s'.history == s.history && KindsKept(s.cmds, s'.cmds)
    requires Unhurried(s, s') && BackStep(s', t, polite)
    ensures BackStep(s, t, polite)
  {
    hide Calm, KindsKept;
    CalmFrame(s, s', polite);
  }

  /** Only an allowance was spent, and not in a calm state. */
  lemma FoundSame(s: State, s': State, t: State, polite: bool)
    requires s' == s.(fuel := s'.fuel) && (Calm(s, polite) ==> s'.fuel == s.fuel) && CalmStep(s', t, polite)
    ensures CalmStep(s, t, polite)
  {
    hide Calm;
    CalmFrame(s, s', polite);
  }

  lemma CalmTrans(s: State, t: State, u: State, polite: bool, take: set<CmdId>)
    requires Progress(s, t, take, {}) && CalmStep(s, t, polite) && CalmStep(t, u, polite)
    ensures CalmStep(s, u, polite)
  {
    hide Progress, Calm;
    if Calm(s, polite) {
      CalmKept(s, t, polite, take);
    }
  }

  /** A callback that submits one command, and then goes on. */
  lemma BackTrans(s: State, t: State, u: State, polite: bool)
    requires polite ==> Calm(s, polite)
    requires Progress(s, t, {}, {}) && CalmStep(s, t, polite) && BackStep(t, u, polite)
    ensures BackStep(s, u, polite)
  {
    hide Progress, Calm;
    if Calm(s, polite) {
      CalmKept(s, t, polite, {});
    }
  }

  lemma BackCalm(s: State, t: State, polite: bool)
    requires BackStep(s, t, polite)
    ensures CalmStep(s, t, polite)
  {
  }

  lemma UnhurriedBack(s: State, t: State, polite: bool)
    requires polite || Calm(s, polite) ==> Unhurried(s, t)
    ensures BackStep(s, t, polite)
  {
    hide Calm;
  }

  lemma UnhurriedCalm(s: State, t: State, polite: bool)
    requires Unhurried(s, t)
    ensures CalmStep(s, t, polite)
  {
  }

  lemma CalmEnd(s: State, t: State, t': State, polite: bool)
    requires CalmStep(s, t, polite) && Unhurried(t, t')
    ensures CalmStep(s, t', polite)
  {
  }

  lemma SettledCalm(s: State, polite: bool)
    requires Settled(s)
    ensures Calm(s, polite)
  {
    RefusingHas(s.pool, s.env.init);
  }

  /** A connection is opened and authenticated, and the user is told. */
  lemma OpenSteps(s: State, s1: State, s2: State, t: State, polite: bool)
    requires Progress(s, s1, {}, {}) && Unhurried(s, s1) && SettledStep(s, s1)
    requires Progress(s1, s2, {}, {}) && CalmStep(s1, s2, polite) && SettledStep(s1, s2)
    requires BackStep(s2, t, polite) && SettledStep(s2, t)
    ensures CalmStep(s, t, polite) && SettledStep(s, t)
  {
    hide Progress;
    UnhurriedCalm(s, s1, polite);
    BackCalm(s2, t, polite);
    ProgressThen(s, s1, s2, {}, {});
    CalmTrans(s, s1, s2, polite, {});
    CalmTrans(s, s2, t, polite, {});
  }

  lemma RerouteCalm(s: State, mid: State, t: State, u: State, polite: bool)
    requires Progress(s, mid, {}, {}) && BackStep(s, mid, polite)
    requires t.pool == mid.pool && t.env == mid.env && t.history == mid.history && KindsKept(mid.cmds, t.cmds)
    requires Unhurried(mid, t) && CalmStep(t, u, polite)
    ensures CalmStep(s, u, polite)
  {
    hide Progress, Calm, KindsKept;
    if Calm(s, polite) {
      CalmKept(s, mid, polite, {});
      CalmFrame(mid, t, polite);
    }
  }

  // ---- Releases.

  /** Releasing the connection ends, and leads to a calm state: nobody who submits is called while it can be
      found, or the state is calm even with the release begun. */
  ghost predicate Mild(s: State, n: string, closeFd: bool, polite: bool) {
    n in s.pool &&
    ((Calm(s, polite) && Silent(s.pool[n].replyList, s.cmds)) || Calm(BeginRelease(s, n, closeFd), polite))
  }

  ghost predicate Gentle(s: State, n: string, closeFd: bool, polite: bool) {
    polite || Mild(s, n, closeFd, polite)
  }

  lemma RefusingBegins(s: State, n: string, closeFd: bool)
    requires n in s.pool
    ensures Refusing(BeginRelease(s, n, closeFd).pool) <= Refusing(s.pool) + if closeFd then {n} else {}
  {
  }

  /** A release that does not close the context ends in any calm state. */
  lemma OpenIsGentle(s: State, n: string, polite: bool)
    requires n in s.pool && Calm(s, polite)
    ensures Gentle(s, n, false, polite) && (CalmInit(s, polite) || Mild(s, n, false, polite))
  {
    hide Sheltered, Refusing, Silent;
    var t := BeginRelease(s, n, false);
    if !CalmInit(s, polite) {
      RefusingBegins(s, n, false);
      SameTable(s.pool, s.history);
      ShelterKept(s.pool, s.history, t.pool, t.history, {}, {});
    }
  }

  /** One that closes it does so if it is not that of the initial endpoint, or if every slot has another host
      that serves. */
  lemma CloseIsMild(s: State, n: string, polite: bool)
    requires n in s.pool
    requires (CalmInit(s, polite) && n != s.env.init) || Sheltered(s.pool, s.history, {n})
    ensures Mild(s, n, true, polite)
  {
    hide Sheltered, Refusing, Silent;
    var t := BeginRelease(s, n, true);
    if Sheltered(s.pool, s.history, {n}) {
      RefusingBegins(s, n, true);
      SameTable(s.pool, s.history);
      TableWeaken(s.pool, s.history, s.history, {n});
      ShelterKept(s.pool, s.history, t.pool, t.history, {n}, {n});
      ShelterLess(t.pool, t.history, {n}, {});
    }
  }

  /** When the context is gone, the connection does not refuse commands any more. */
  lemma ContextGone(s: State, t: State, n: string, polite: bool)
    requires n in s.pool && n in t.pool && t.pool[n].context.None? && t.pool == s.pool[n := t.pool[n]]
    requires t.env == s.env && t.history == s.history && KindsKept(s.cmds, t.cmds)
    ensures Calm(s, polite) ==> Calm(t, polite)
  {
    hide Sheltered, KindsKept, Silent, Refusing;
    var m := s.env.init;
    if CalmInit(s, polite) {
      if m in s.pool && Silent(s.pool[m].replyList, s.cmds) {
        SilentKept(s.pool[m].replyList, s.cmds, t.cmds);
      }
    } else if Calm(s, polite) {
      RefusingGone(s.pool, t.pool, n);
      SameTable(s.pool, s.history);
      ShelterKept(s.pool, s.history, t.pool, t.history, {}, {});
    }
  }

  lemma RefusingGone(pool: Pool, pool': Pool, n: string)
    requires n in pool' && pool'[n].context.None? && pool' == pool[n := pool'[n]]
    ensures Refusing(pool') <= Refusing(pool)
  {
  }

  lemma CalmErase(s: State, n: string, polite: bool)
    ensures Calm(s, polite) ==> Calm(s.(pool := s.pool - {n}), polite)
  {
    hide Sheltered, Silent, Refusing;
    if Calm(s, polite) && !CalmInit(s, polite) {
      assert Refusing(s.pool - {n}) <= Refusing(s.pool) by {
        RefusingFewer(s.pool, n);
      }
      SameTable(s.pool, s.history);
      ShelterKept(s.pool, s.history, s.pool - {n}, s.history, {}, {});
    }
  }

  lemma RefusingFewer(pool: Pool, n: string)
    ensures Refusing(pool - {n}) <= Refusing(pool)
  {
  }

  /** The table forgets a host that does not serve. */
  lemma GaveUpCalm(s: State, t: State, n: string, polite: bool)
    requires n in s.pool && s.pool[n].Refusing() && t == s.(flag := t.flag, history := s.history + [Remove(n)])
    ensures Calm(s, polite) ==> Calm(t, polite)
  {
    hide Sheltered, Silent, Refusing;
    if Calm(s, polite) && !CalmInit(s, polite) {
      assert TableProgress(s.pool, s.history, t.history, {});
      ShelterKept(s.pool, s.history, t.pool, t.history, {}, {});
    }
  }

  /** Whatever happens in a release, it leads from a calm state to a calm one. */
  lemma ReleaseCalm(s: State, t: State, n: string, polite: bool)
    requires Progress(s, t, {}, {n}) && n in s.pool && Calm(s, polite)
    requires Mild(s, n, false, polite) ==> Calm(t, polite)
    ensures Calm(t, polite)
  {
    hide Progress, Mild, CalmInit, Sheltered;
    OpenIsGentle(s, n, polite);
    if CalmInit(s, polite) {
      InitKept(s, t, polite, {}, {n});
    }
  }

  /** The client would be calm even without some of the hosts. */
  ghost predicate CalmBut(s: State, besides: set<string>, polite: bool) {
    CalmInit(s, polite) || Sheltered(s.pool, s.history, besides)
  }

  lemma CalmButNone(s: State, polite: bool)
    ensures CalmBut(s, {}, polite) == Calm(s, polite)
  {
  }

  /** The table forgets a host, which may serve. */
  lemma ForgotCalm(s: State, t: State, n: string, polite: bool)
    requires t == s.(flag := t.flag, history := s.history + [Remove(n)])
    ensures CalmBut(s, {n}, polite) ==> Calm(t, polite)
  {
    hide Sheltered, Silent, Refusing;
    if CalmBut(s, {n}, polite) && !CalmInit(s, polite) {
      assert TableProgress(s.pool, s.history, t.history, {n});
      ShelterKept(s.pool, s.history, t.pool, t.history, {n}, {n});
      ShelterLess(t.pool, t.history, {n}, {});
    }
  }

  /** A slot gets one host, which serves. */
  lemma MovedCalm(s: State, t: State, slot: nat, key: Key, polite: bool)
    requires t == s.(history := s.history + [Moved(slot, key)])
    requires Calm(s, polite) && (CalmInit(s, polite) || Serving(s.pool, key))
    ensures Calm(t, polite)
  {
    hide Silent;
    if !CalmInit(s, polite) {
      assert t.history[..|s.history|] == s.history;
      forall i | 0 <= i < SLOT_NUMBER ensures Sheltering(Replay(t.history, i), t.pool, {}) {
        assert Sheltering(Replay(s.history, i), s.pool, {});
        if i == slot {
          assert Replay(t.history, i)[0] == key;
        }
      }
    }
  }

  // ---- Meetings.

  /** What the recursion is led by where a connection is named: it is stuck and the table does not lead to it. */
  ghost function Astray(pool: Pool, h: seq<Edit>, conn: Option<string>): nat {
    if conn.Some? && conn.value in pool && Stuck(pool[conn.value]) && !LeadsSome(h, conn.value) then 1 else 0
  }

  /** In a calm state the connection of the initial endpoint is not met in vain. */
  lemma VainCalm(s: State, polite: bool)
    requires s.env.init in s.pool && Stuck(s.pool[s.env.init]) && !Sheltered(s.pool, s.history, {})
    ensures !Calm(s, polite)
  {
  }

  // ---- Traps.

  /** All hosts refuse commands and have to stay. */
  predicate AllStuck(hosts: seq<Key>, pool: Pool) {
    forall j :: 0 <= j < |hosts| ==> hosts[j].name in pool && Stuck(pool[hosts[j].name])
  }

  predicate Mentions(hosts: seq<Key>, n: string) {
    exists j :: 0 <= j < |hosts| && hosts[j].name == n
  }

  /** All hosts refuse commands, and none that can be given up is named twice. */
  predicate Doomed(hosts: seq<Key>, pool: Pool) {
    && (forall j :: 0 <= j < |hosts| ==> hosts[j].name in pool && pool[hosts[j].name].Refusing())
    && (forall j, l :: 0 <= j < l < |hosts| && hosts[j].name == hosts[l].name ==> Stuck(pool[hosts[j].name]))
  }

  predicate DoomedWithout(hosts: seq<Key>, pool: Pool, n: string) {
    Doomed(hosts, pool) && !Mentions(hosts, n)
  }

  /** The slot is doomed, also once the connection is given up. */
  predicate DoomedAfter(hosts: seq<Key>, pool: Pool, n: string) {
    Doomed(hosts, pool) && ((n in pool && Stuck(pool[n])) || !Mentions(hosts, n) || Leads(hosts, n))
  }

  ghost predicate NoneServes(h: seq<Edit>, pool: Pool) {
    forall i :: 0 <= i < SLOT_NUMBER ==> AllStuck(Replay(h, i), pool)
  }

  /** Asked for any host, the table leads to connections that refuse commands until it leads to the initial
      endpoint: no slot has a host that could go, or one is doomed and the random choice falls on such a slot. */
  ghost predicate Cornered(h: seq<Edit>, pool: Pool, unlucky: bool) {
    NoneServes(h, pool) || (unlucky && exists i :: 0 <= i < SLOT_NUMBER && Doomed(Replay(h, i), pool))
  }

  ghost predicate InitStuck(s: State) {
    s.env.init in s.pool && Stuck(s.pool[s.env.init])
  }

  /** The table is to be asked for, the initial endpoint refuses commands but stays, since it runs a hiredis
      callback or is being released, and the table is of no help. */
  ghost predicate Trapped(s: State) {
    s.flag == INVALID && InitStuck(s) && Cornered(s.history, s.pool, s.env.unlucky)
  }

  /** To meet the connection leads into a trap, whatever the flag: it refuses commands, and once it is given up
      the client is trapped. */
  ghost predicate Pitfall(s: State, n: string) {
    && InitStuck(s) && n in s.pool && s.pool[n].Refusing()
    && (NoneServes(s.history, s.pool)
        || (s.env.unlucky && exists i :: 0 <= i < SLOT_NUMBER && DoomedAfter(Replay(s.history, i), s.pool, n)))
  }

  /** Whatever connection is chosen for the slot, to meet it leads into a trap. */
  ghost predicate Snared(s: State, slot: int) {
    if 0 <= slot < SLOT_NUMBER && Replay(s.history, slot) != []
    then Pitfall(s, Replay(s.history, slot)[0].name)
    else InitStuck(s) && Cornered(s.history, s.pool, s.env.unlucky)
  }

  /** The client is trapped, and is so without the connection, which can be released. */
  ghost predicate TrappedBut(s: State, n: string) {
    && s.flag == INVALID && InitStuck(s) && n in s.pool && MayGo(s.pool[n])
    && (NoneServes(s.history, s.pool)
        || (s.env.unlucky && exists i :: 0 <= i < SLOT_NUMBER && DoomedWithout(Replay(s.history, i), s.pool, n)))
  }

  /** In a trap a callback leaves the connections and the table alone, or it does not end. */
  ghost predicate TrapStep(s: State, t: State) {
    Trapped(s) ==> t.halted || (t.pool == s.pool && t.history == s.history && t.flag == INVALID)
  }

  lemma TrappedSame(s: State, t: State)
    requires t.flag == s.flag && t.pool == s.pool && t.history == s.history && t.env == s.env
    ensures Trapped(s) ==> Trapped(t)
  {
  }

  lemma TrapFirst(s: State, t: State, u: State)
    requires t.flag == s.flag && t.pool == s.pool && t.history == s.history && t.env == s.env && TrapStep(t, u)
    ensures TrapStep(s, u)
  {
    hide Cornered;
  }

  lemma TrapLast(s: State, t: State, u: State)
    requires TrapStep(s, t) && u.flag == t.flag && u.pool == t.pool && u.history == t.history && u.halted == t.halted
    ensures TrapStep(s, u)
  {
    hide Trapped;
  }

  lemma TrappedSnares(s: State)
    ensures Trapped(s) ==> s.flag == INVALID && Snared(s, -1)
  {
    hide Cornered;
  }

  lemma SnaredSame(s: State, t: State, slot: int)
    requires t.pool == s.pool && t.history == s.history && t.env == s.env
    ensures Snared(s, slot) ==> Snared(t, slot)
  {
    hide Cornered, Pitfall;
    PitfallSame(s, t, if Replay(s.history, slot) == [] then "" else Replay(s.history, slot)[0].name);
  }

  lemma PitfallSame(s: State, t: State, n: string)
    requires t.pool == s.pool && t.history == s.history && t.env == s.env
    ensures Pitfall(s, n) ==> Pitfall(t, n)
  {
  }

  lemma PitfallRefuses(s: State, n: string)
    requires Pitfall(s, n)
    ensures n in s.pool && s.pool[n].Refusing()
  {
  }

  /** A removal leaves a doomed slot doomed; a host that can be given up is gone from it if it led. */
  lemma DoomedRemove(hosts: seq<Key>, pool: Pool, n: string)
    requires Doomed(hosts, pool)
    ensures Doomed(WithoutLeader(hosts, n), pool)
    ensures (Leads(hosts, n) && !Stuck(pool[n])) || !Mentions(hosts, n) ==> !Mentions(WithoutLeader(hosts, n), n)
  {
    var rest := WithoutLeader(hosts, n);
    if Leads(hosts, n) && |hosts| > 1 {
      assert rest[0] == hosts[|hosts| - 1] && forall j :: 0 < j < |rest| ==> rest[j] == hosts[j];
    }
  }

  lemma StuckRemove(hosts: seq<Key>, pool: Pool, n: string)
    requires AllStuck(hosts, pool)
    ensures AllStuck(WithoutLeader(hosts, n), pool)
  {
    var rest := WithoutLeader(hosts, n);
    if Leads(hosts, n) && |hosts| > 1 {
      assert rest[0] == hosts[|hosts| - 1] && forall j :: 0 < j < |rest| ==> rest[j] == hosts[j];
    }
  }

  lemma NoneServesRemove(h: seq<Edit>, pool: Pool, n: string)
    requires NoneServes(h, pool)
    ensures NoneServes(h + [Remove(n)], pool)
  {
    assert (h + [Remove(n)])[..|h|] == h;
    forall i | 0 <= i < SLOT_NUMBER ensures AllStuck(Replay(h + [Remove(n)], i), pool) {
      assert AllStuck(Replay(h, i), pool);
      StuckRemove(Replay(h, i), pool, n);
    }
  }

  /** The connection is given up: the table forgets it and is invalid. */
  lemma PitfallTraps(s: State, t: State, n: string)
    requires Pitfall(s, n) && t == s.(flag := INVALID, history := s.history + [Remove(n)])
    ensures if Stuck(s.pool[n]) then Trapped(t) else TrappedBut(t, n)
  {
    hide Doomed, Mentions, WithoutLeader, AllStuck, NoneServes;
    if NoneServes(s.history, s.pool) {
      NoneServesRemove(s.history, s.pool, n);
    } else {
      var i :| 0 <= i < SLOT_NUMBER && DoomedAfter(Replay(s.history, i), s.pool, n);
      assert t.history[..|s.history|] == s.history;
      DoomedRemove(Replay(s.history, i), s.pool, n);
      assert Replay(t.history, i) == WithoutLeader(Replay(s.history, i), n);
    }
  }

  /** Other connections may change as long as they refuse commands and stay if they stayed. */
  lemma DoomedFrame(hosts: seq<Key>, pool: Pool, pool': Pool, n: string)
    requires Doomed(hosts, pool) && ((n in pool' && Stuck(pool'[n])) || !Mentions(hosts, n))
    requires forall m <- pool | m != n :: m in pool' && pool'[m] == pool[m]
    ensures Doomed(hosts, pool')
  {
  }

  lemma NoneServesFrame(h: seq<Edit>, pool: Pool, pool': Pool, n: string)
    requires NoneServes(h, pool) && (n in pool && Stuck(pool[n]) ==> n in pool' && Stuck(pool'[n]))
    requires forall m <- pool | m != n :: m in pool' && pool'[m] == pool[m]
    ensures NoneServes(h, pool')
  {
    forall i | 0 <= i < SLOT_NUMBER ensures AllStuck(Replay(h, i), pool') {
      assert AllStuck(Replay(h, i), pool);
    }
  }

  /** The release begins. */
  lemma TrappedBegins(s: State, n: string)
    requires TrappedBut(s, n)
    ensures Trapped(BeginRelease(s, n, false))
  {
    hide Doomed, Mentions, NoneServes;
    var t := BeginRelease(s, n, false);
    if NoneServes(s.history, s.pool) {
      NoneServesFrame(s.history, s.pool, t.pool, n);
    } else {
      var i :| 0 <= i < SLOT_NUMBER && DoomedWithout(Replay(s.history, i), s.pool, n);
      DoomedFrame(Replay(s.history, i), s.pool, t.pool, n);
    }
  }

  /** A connection that is being released loses a command. */
  lemma TrappedPops(s: State, t: State, n: string)
    requires Trapped(s) && n in s.pool && Stuck(s.pool[n]) && n in t.pool && Stuck(t.pool[n])
    requires t.pool == s.pool[n := t.pool[n]] && t.history == s.history && t.flag == INVALID && t.env == s.env
    ensures Trapped(t)
  {
    hide Doomed, Mentions, NoneServes;
    if NoneServes(s.history, s.pool) {
      NoneServesFrame(s.history, s.pool, t.pool, n);
    } else {
      var i :| 0 <= i < SLOT_NUMBER && Doomed(Replay(s.history, i), s.pool);
      DoomedFrame(Replay(s.history, i), s.pool, t.pool, n);
    }
  }

  /** Without the connection the client is still trapped. */
  lemma TrappedWithout(s: State, t: State, n: string)
    requires TrappedBut(s, n) && t.history == s.history && t.flag == INVALID && t.env == s.env
    requires forall m <- s.pool | m != n :: m in t.pool && t.pool[m] == s.pool[m]
    ensures Trapped(t)
  {
    hide Doomed, Mentions, NoneServes;
    if NoneServes(s.history, s.pool) {
      NoneServesFrame(s.history, s.pool, t.pool, n);
    } else {
      var i :| 0 <= i < SLOT_NUMBER && DoomedWithout(Replay(s.history, i), s.pool, n);
      DoomedFrame(Replay(s.history, i), s.pool, t.pool, n);
    }
  }

  // ---- What a call leaves alone.

  /** Nothing has changed that decides whether calls end. */
  ghost predicate Still(s: State, t: State) {
    Unhurried(s, t) && t.pool == s.pool && t.history == s.history && t.env == s.env
  }

  /** Of the connections and the table, only the list of one connection has changed. */
  ghost predicate OnlyList(s: State, t: State, n: string) {
    && n in s.pool && n in t.pool && t.pool == s.pool[n := s.pool[n].(replyList := t.pool[n].replyList)]
    && t.history == s.history && t.env == s.env
  }

  /** Commands were called back and taken off the list of a connection: if no user was called, or in a trap,
      nothing else has changed, unless the call does not end. */
  ghost predicate ListStep(s: State, t: State, n: string, list: seq<CmdId>) {
    && (Silent(list, s.cmds) ==> Unhurried(s, t) && OnlyList(s, t, n))
    && (Trapped(s) && n in s.pool && Stuck(s.pool[n]) ==> t.halted || (OnlyList(s, t, n) && t.flag == INVALID))
  }

  lemma ListRefl(s: State, n: string)
    requires n in s.pool
    ensures ListStep(s, s, n, [])
  {
    hide Cornered;
  }

  lemma ListNext(s: State, t: State, u: State, n: string, list: seq<CmdId>, k: nat)
    requires k < |list| && ListStep(s, t, n, list[..k]) && ListStep(t, u, n, [list[k]]) && (t.halted ==> u.halted)
    requires list[k] in s.cmds && list[k] in t.cmds && t.cmds[list[k]] == s.cmds[list[k]]
    ensures ListStep(s, u, n, list[..k + 1])
  {
    hide Trapped;
    if Silent(list[..k + 1], s.cmds) {
      SilentParts(list, k, s.cmds, t.cmds);
    }
    if Trapped(s) && n in s.pool && Stuck(s.pool[n]) && !t.halted {
      TrappedPops(s, t, n);
    }
  }

  lemma SilentParts(list: seq<CmdId>, k: nat, cmds: Cmds, cmds': Cmds)
    requires k < |list| && Silent(list[..k + 1], cmds) && list[k] in cmds && list[k] in cmds'
    requires cmds'[list[k]] == cmds[list[k]]
    ensures Silent(list[..k], cmds) && Silent([list[k]], cmds')
  {
    assert list[..k + 1] == list[..k] + [list[k]];
    assert list[k] in list[..k + 1];
  }

  /** One command is taken off the list and called back. */
  lemma ListDropped(s: State, t: State, n: string, c: CmdId)
    requires n in s.pool && s.pool[n].replyList != [] && c == s.pool[n].replyList[0] && c in s.cmds
    requires !s.cmds[c].Rings() ==> Still(Dequeue(s, n), t)
    requires TrapStep(Dequeue(s, n), t) && t.env == s.env
    ensures ListStep(s, t, n, [c])
  {
    hide Trapped;
    if Trapped(s) && Stuck(s.pool[n]) {
      TrappedFlag(s);
      TrappedPops(s, Dequeue(s, n), n);
    }
  }

  lemma TrappedFlag(s: State)
    requires Trapped(s)
    ensures s.flag == INVALID
  {
  }

  lemma TrapRefl(s: State)
    ensures TrapStep(s, s)
  {
    hide Cornered;
  }

  lemma TrapHalts(s: State, t: State)
    requires Trapped(s) ==> t.halted
    ensures TrapStep(s, t)
  {
  }

  lemma HaltedKept(s: State, t: State, take: set<CmdId>, drop: set<string>)
    requires Progress(s, t, take, drop)
    ensures (s.halted ==> t.halted) && t.env == s.env
  {
    hide ListsProgress, TableProgress, CmdsProgress, CmdsAged, PoolProgress;
  }

  lemma ElsewhereKept(s: State, t: State, n: string, take: set<CmdId>)
    requires Elsewhere(s, t, n, take)
    ensures (s.halted ==> t.halted) && t.env == s.env && KindsKept(s.cmds, t.cmds)
  {
    hide ListsProgress, TableProgress, CmdsProgress, CmdsAged, PoolProgress, KindsKept;
    KindsAged(s.cmds, t.cmds);
  }

  lemma MayGoOpen(s: State, n: string)
    ensures TrappedBut(s, n) ==> n in s.pool && MayGo(s.pool[n])
  {
  }

  lemma UnhurriedRefl(s: State)
    ensures Unhurried(s, s)
  {
  }

  lemma ListSilent(s: State, t: State, n: string, list: seq<CmdId>)
    requires ListStep(s, t, n, list)
    ensures Silent(list, s.cmds) ==> Unhurried(s, t) && OnlyList(s, t, n)
  {
    hide Trapped, Silent;
  }

  lemma ListTrapped(s: State, t: State, n: string, list: seq<CmdId>)
    requires ListStep(s, t, n, list) && Trapped(s) && n in s.pool && Stuck(s.pool[n]) && !t.halted
    ensures OnlyList(s, t, n) && t.flag == INVALID
  {
    hide Trapped, Silent;
  }

  lemma BackUnhurried(s: State, t: State, polite: bool)
    requires BackStep(s, t, polite)
    ensures polite || Calm(s, polite) ==> Unhurried(s, t)
  {
    hide Calm;
  }

  /** A connection was released but for its place in the pool; r is the state with the release begun. */
  lemma MildEnds(s: State, r: State, t: State, u: State, n: string, closeFd: bool, polite: bool)
    requires n in s.pool && r == BeginRelease(s, n, closeFd) && Mild(s, n, closeFd, polite)
    requires n in t.pool && (Calm(r, polite) ==> Calm(t, polite))
    requires Silent(s.pool[n].replyList, r.cmds) ==> OnlyList(r, t, n)
    requires n in u.pool && u.pool[n].context.None? && u.pool == t.pool[n := u.pool[n]]
    requires u.env == t.env && t.env == s.env && u.history == t.history && u.cmds == t.cmds && KindsKept(s.cmds, t.cmds)
    ensures Calm(u, polite)
  {
    hide Calm, Silent, KindsKept;
    KindsRefl(t.cmds);
    if Calm(r, polite) {
      ContextGone(t, u, n, polite);
    } else {
      ContextGone(s, u, n, polite);
    }
  }

  lemma KindsRefl(cmds: Cmds)
    ensures KindsKept(cmds, cmds)
  {
  }

  /** What is left of a trap once the connection is without its context, or gone. */
  ghost predicate Forsaken(s: State, t: State, n: string) {
    && t.history == s.history && t.flag == INVALID && t.env == s.env
    && forall m <- s.pool | m != n :: m in t.pool && t.pool[m] == s.pool[m]
  }

  lemma ForsakenErased(s: State, t: State, u: State, n: string)
    requires Forsaken(s, t, n) && u.pool == t.pool - {n} && u.history == t.history && u.flag == INVALID
    requires u.env == t.env
    ensures Forsaken(s, u, n)
  {
  }

  lemma ForsakenTrapped(s: State, t: State, n: string)
    requires TrappedBut(s, n) && Forsaken(s, t, n)
    ensures Trapped(t)
  {
    hide TrappedBut, Trapped;
    TrappedWithout(s, t, n);
  }

  /** A connection is released but for its place in the pool: the release begins, its commands are called back,
      the context goes. */
  lemma ReleaseEnds(s: State, r: State, t: State, u: State, n: string, closeFd: bool, polite: bool)
    requires n in s.pool && r == BeginRelease(s, n, closeFd) && ListStep(r, t, n, s.pool[n].replyList)
    requires (polite || Calm(r, polite) ==> Unhurried(r, t)) && (Calm(r, polite) ==> Calm(t, polite))
    requires n in t.pool && t.env == s.env && KindsKept(s.cmds, t.cmds)
    requires n in u.pool && u.pool[n].context.None? && u == t.(pool := t.pool[n := u.pool[n]], seqAlloc := u.seqAlloc)
    ensures Gentle(s, n, closeFd, polite) ==> Unhurried(s, u)
    ensures Mild(s, n, closeFd, polite) ==> Calm(u, polite)
    ensures TrappedBut(s, n) && !closeFd ==> u.halted || Forsaken(s, u, n)
  {
    hide Calm, Silent, KindsKept, ListStep, Trapped, TrappedBut;
    ListSilent(r, t, n, s.pool[n].replyList);
    if Mild(s, n, closeFd, polite) {
      MildEnds(s, r, t, u, n, closeFd, polite);
    }
    if TrappedBut(s, n) && !closeFd && !u.halted {
      TrappedBegins(s, n);
      MayGoOpen(s, n);
      ListTrapped(r, t, n, s.pool[n].replyList);
    }
  }
}
