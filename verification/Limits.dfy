/** Where calls of the cluster client do not end, in concrete states and up to the exact boundary. */
module Limits {
  import opened Types
  import opened Connections
  import opened Timers
  import opened SlotTables
  import opened EndpointNames
  import opened Endings
  import opened Ledger
  import opened Sweeps

  function Idle(key: Key, flag: SlotFlag, pool: Pool, cmds: Cmds, parked: seq<CmdId>, next: nat): State {
    State(flag, parked, pool, Time(0, 0), [], [], 2, [], 0, 0, false, Env(Time(0, 100_000), {}, key.name, false),
          cmds, next, {}, {}, {}, 0, [])
  }

  /** A connection to the initial endpoint whose context is closing. */
  function Closing(key: Key, inCallback: bool, list: seq<CmdId>): ConnState {
    ConnState(key, CONNECTED, Some(Context(0, true, false, inCallback, NoError)), 1, list)
  }

  function Parked(kind: Kind, attempts: nat, submits: seq<string>): CmdState
    requires attempts <= TTL_MAX
  {
    CmdState(kind, true, TTL_MAX - attempts, -1, true, OK, Home.Parked, 0, attempts, submits, 0, false)
  }

  /** What a reset leaves behind that was called from inside a callback of the only connection. */
  lemma TrappedAtRest(key: Key)
    requires Named(key)
    ensures var s := Idle(key, INVALID, map[key.name := Closing(key, true, [])], map[], [], 0);
      Inv(s) && Rest(s) && Trapped(s)
  {
  }

  /** Every slot was moved to one host. */
  function AllMoved(key: Key, n: nat): seq<Edit> {
    seq(n, i requires 0 <= i < n => Edit.Moved(i, key))
  }

  lemma {:induction false} AllMovedLead(key: Key, n: nat, slot: nat)
    requires slot < n
    ensures Replay(AllMoved(key, n), slot) == [key]
  {
    var h := AllMoved(key, n);
    assert h[..n - 1] == AllMoved(key, n - 1);
    if slot < n - 1 {
      AllMovedLead(key, n - 1, slot);
    }
  }

  /** The same connection does no harm while another host serves every slot. */
  lemma ShelteredAtRest(key: Key, other: Key)
    requires other.name != key.name && Named(key)
    ensures var s := Idle(key, VALID, map[key.name := Closing(key, true, [])], map[], [], 0)
                       .(history := AllMoved(other, SLOT_NUMBER));
      Inv(s) && Rest(s) && InitStuck(s) && !CalmInit(s, true) && Calm(s, false)
  {
    var pool := map[key.name := Closing(key, true, [])];
    forall i | 0 <= i < SLOT_NUMBER ensures Sheltering(Replay(AllMoved(other, SLOT_NUMBER), i), pool, {}) {
      AllMovedLead(other, SLOT_NUMBER, i);
      assert Serving(pool, [other][0]);
    }
  }

  /** The only connection is closing outside a callback, with one command queued. */
  function ClosingQueue(key: Key): State {
    Idle(key, INVALID, map[key.name := Closing(key, false, [0])],
         map[0 := Parked(User, 1, [key.name]).(home := Queued(key.name))], [], 1)
  }

  lemma ClosingQueueKeeps(key: Key)
    requires Named(key)
    ensures var s := ClosingQueue(key); Inv(s) && Rest(s)
  {
  }

  /** No slot is snared there, but to give the connection up traps the user of the command. */
  lemma TrappedByRelease(key: Key)
    requires Named(key)
    ensures var s := ClosingQueue(key);
      Inv(s) && Rest(s) && Entraps(s) && Inv(GivingUp(s)) && forall slot :: !Snared(s, slot)
  {
    hide Inv;
    var s := ClosingQueue(key);
    ClosingQueueKeeps(key);
    var t := s.(history := s.history + [Remove(key.name)]);
    TableKeeps(s, Remove(key.name));
    BeginReleaseKeeps(t, key.name, false);
    var u := GivingUp(s);
    assert t.(flag := INVALID) == t;
    forall i | 0 <= i < SLOT_NUMBER ensures Replay(u.history, i) == [] {
      assert u.history[..0] == [];
    }
    assert NoneServes(u.history, u.pool);
    assert s.pool[key.name].replyList[0] == 0 && s.cmds[0].Rings();
  }

  // ---- The boundary.

  /** What giving up the connection of the initial endpoint comes to while its commands are called back. */
  ghost function GivingUp(s: State): State
    requires s.env.init in s.pool
  {
    BeginRelease(s.(flag := INVALID, history := s.history + [Remove(s.env.init)]), s.env.init, false)
  }

  /** To give the connection of the initial endpoint up traps those of its users that submit. */
  ghost predicate Entraps(s: State) {
    && s.env.init in s.pool && MayGo(s.pool[s.env.init]) && !Silent(s.pool[s.env.init].replyList, s.cmds)
    && Trapped(GivingUp(s))
  }

  /** No slot names a host twice that can be given up. */
  ghost predicate Single(s: State) {
    forall i :: 0 <= i < SLOT_NUMBER ==> AtMostOnce(Replay(s.history, i), s.pool)
  }

  predicate AtMostOnce(hosts: seq<Key>, pool: Pool) {
    forall j, l :: 0 <= j < l < |hosts| && hosts[j].name == hosts[l].name && hosts[j].name in pool ==>
      !MayGo(pool[hosts[j].name])
  }

  /** Where a random slot may be the worst one, the calls that end are those in calm states: in any other, some
      slot is snared, so that a command for it is executed for ever, or the release of the connection of the
      initial endpoint traps its users. */
  lemma EndsOrTraps(s: State, polite: bool)
    requires s.env.unlucky && Single(s)
    ensures Calm(s, polite) <==> !(exists slot :: Snared(s, slot)) && (polite || !Entraps(s))
  {
    hide Snared, Entraps, Sheltered, CalmInit;
    if !Calm(s, polite) {
      Unsheltered(s, polite);
    } else {
      forall slot ensures !Snared(s, slot) {
        if Snared(s, slot) {
          SnaredWild(s, slot, polite);
        }
      }
      if !polite && Entraps(s) {
        EntrapsWild(s);
      }
    }
  }

  /** A slot none of whose hosts serves is doomed. */
  lemma NoneIsDoomed(hosts: seq<Key>, pool: Pool)
    requires !Sheltering(hosts, pool, {}) && AtMostOnce(hosts, pool)
    ensures Doomed(hosts, pool)
  {
    forall j | 0 <= j < |hosts| ensures hosts[j].name in pool && pool[hosts[j].name].Refusing() {
      assert !Serving(pool, hosts[j]);
    }
  }

  lemma DoomedNone(hosts: seq<Key>, pool: Pool)
    requires Doomed(hosts, pool) || AllStuck(hosts, pool)
    ensures !Sheltering(hosts, pool, {})
  {
  }

  lemma Unsheltered(s: State, polite: bool)
    requires s.env.unlucky && Single(s) && !Calm(s, polite)
    ensures (exists slot :: Snared(s, slot)) || (!polite && Entraps(s))
  {
    hide Doomed, Sheltering, AtMostOnce, NoneServes, Silent;
    var i :| 0 <= i < SLOT_NUMBER && !Sheltering(Replay(s.history, i), s.pool, {});
    var hosts := Replay(s.history, i);
    NoneIsDoomed(hosts, s.pool);
    if InitStuck(s) {
      if hosts != [] {
        DoomedLeads(hosts, s.pool);
      }
      assert Snared(s, i);
    } else {
      GivingUpTraps(s, i);
    }
  }

  lemma DoomedLeads(hosts: seq<Key>, pool: Pool)
    requires Doomed(hosts, pool) && hosts != []
    ensures Leads(hosts, hosts[0].name) && hosts[0].name in pool && pool[hosts[0].name].Refusing()
  {
  }

  lemma GivingUpTraps(s: State, i: nat)
    requires s.env.unlucky && i < SLOT_NUMBER && Doomed(Replay(s.history, i), s.pool)
    requires s.env.init in s.pool && MayGo(s.pool[s.env.init])
    ensures Trapped(GivingUp(s))
  {
    hide Doomed, NoneServes, Mentions;
    var t, n := GivingUp(s), s.env.init;
    assert t.history[..|s.history|] == s.history;
    DoomedRemove(Replay(s.history, i), s.pool, n);
    DoomedFrame(Replay(t.history, i), s.pool, t.pool, n);
  }

  lemma SnaredWild(s: State, slot: int, polite: bool)
    requires Snared(s, slot)
    ensures !Calm(s, polite)
  {
    hide Doomed, AllStuck, Sheltering, Mentions;
    if NoneServes(s.history, s.pool) {
      DoomedNone(Replay(s.history, 0), s.pool);
    } else {
      var i :| 0 <= i < SLOT_NUMBER && Doomed(Replay(s.history, i), s.pool);
      DoomedNone(Replay(s.history, i), s.pool);
    }
  }

  lemma EntrapsWild(s: State)
    requires Entraps(s)
    ensures !Calm(s, false)
  {
    hide Doomed, AllStuck, Silent;
    var t := GivingUp(s);
    var i :| 0 <= i < SLOT_NUMBER && (Doomed(Replay(t.history, i), t.pool) || AllStuck(Replay(t.history, i), t.pool));
    assert t.history[..|s.history|] == s.history;
    DoomedNone(Replay(t.history, i), t.pool);
    var hosts := Replay(s.history, i);
    if j :| 0 <= j < |hosts| && Serving(s.pool, hosts[j]) {
      OtherStays(hosts, s.env.init, hosts[j]);
    }
    assert !Sheltering(hosts, s.pool, {});
  }

  /** A host that a slot names twice serves it again once it is given up. */
  lemma TwiceServes(hosts: seq<Key>, pool: Pool, n: string, j: nat)
    requires Leads(hosts, n) && 0 < j < |hosts| && hosts[j].name == n
    ensures Sheltering(WithoutLeader(hosts, n), pool - {n}, {})
  {
    var rest := WithoutLeader(hosts, n);
    var l: nat := if j < |hosts| - 1 then j else 0;
    assert rest[l] == hosts[j] && Serving(pool - {n}, rest[l]);
  }

  /** The table is in force and no connection is closing, but a slot query is parked ahead of another command. */
  function QueryFirst(key: Key): State {
    var cmds := map[0 := Parked(SlotQuery, 1, [key.name]), 1 := Parked(User, 0, [])];
    Idle(key, VALID, map[], cmds, [0, 1], 2)
  }

  lemma QueryFirstKeeps(key: Key)
    ensures var s := QueryFirst(key); Inv(s) && Rest(s) && Settled(s) && !Orderly(s)
  {
    var s := QueryFirst(key);
    assert s.slotPending[0] == 0 && s.cmds[0].kind == SlotQuery;
    assert s.slotPending[1] == 1 && Hasty(s, s.cmds[1].ttl);
  }

  /** When the query cannot be sent, its callback marks the table invalid, and the drain spins. */
  lemma QueryAhead(key: Key)
    ensures var s := QueryFirst(key);
      && Inv(s) && Rest(s) && Settled(s) && !Orderly(s)
      && var t := Destroy(Complete(Unpark(s), 0, CONNECTION), 0).(flag := INVALID);
         Inv(t) && Rest(t) && QueryFailed(s, t, 0) && Spinning(t)
  {
    hide Inv, Settled, Orderly;
    var s := QueryFirst(key);
    QueryFirstKeeps(key);
    UnparkKeeps(s);
    var u := Unpark(s);
    CompleteKeeps(u, 0, CONNECTION);
    DestroyKeeps(Complete(u, 0, CONNECTION), 0);
    var t := Destroy(Complete(u, 0, CONNECTION), 0).(flag := INVALID);
    AllowanceKeeps(Destroy(Complete(u, 0, CONNECTION), 0), t);
    assert t.slotPending[0] == 1 && Hasty(t, t.cmds[1].ttl);
  }
}
