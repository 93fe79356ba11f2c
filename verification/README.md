# hiredis-happ: what its clients keep

hiredis-happ is an asynchronous client for Redis and Redis Cluster on top of hiredis. This project models its
two clients, the cluster client and the client of a single server, with everything they compute on the way,
and proves what holds of every run against any server, clock and network.

## What is modelled

**The life of a command.** A command is created with sixteen lives (its ttl). From then on it is in exactly
one place: parked until the slot table arrives, delayed until the timer fires, in the reply list of one
connection, waiting for the answer to ASKING, or done. Replies (MOVED, ASK, TRYAGAIN, CLUSTERDOWN, network
errors), timer ticks, new slot tables and lost connections move it. `Ledger` holds the client's state as one
value, the invariant `Inv`, and the relation `Progress`, which says how far any call may change the state.
`Sweeps` does the same for the entry points. `Endings` says in which states every call ends and in which it does
not, and `Limits` how far the two complement each other, with concrete states of the second kind. `Accounts` reads
the invariant: `Safe` is what it comes to, in what the client holds and in what the user was told.

**The clients.** `Clusters.Cluster` and `Raws.Raw` are the two classes, method by method, with the mutual
recursion of the source (exec, refusal, release, retry, exec, reload, exec) and callbacks that submit further
commands from wherever they are called. `Run` lets anything happen to a client any number of times.

**The parts.** `ConnectionObjects.Connection` is one connection by itself in every state a caller can find it
in; `SlotTables` the table of 16384 slots, edited in place; `Timers` the two-component clock; `Crc16` and
`Crc16Table` the checksum, by polynomial division and by table; `HashSlots` the hash-tag rule; `Resp` the
picking of arguments out of an encoded command; `EndpointNames`, `Scanning`, `Redirects` and `Replies` what is
read out of names and replies.

## How runs are modelled

The environment is whatever the methods leave open. A variable assigned `*` is an answer of hiredis, the
network or the user.

- hiredis takes a formatted command unless its context is disconnecting or freeing; it may still refuse one for
  reasons of its own.
- hiredis answers only commands that are queued on the connection. That its answers come in order is not
  assumed: commands ahead of the answered one time out, and their callbacks may change the client. What is said of
  a retry in the state before the reply is for the first command of the list, which is the one that is answered when
  they do come in order; of any other it is said that it was retried.
- `reachable` says where a connection can be opened. `Environment` changes it, the flags of any context and what
  the callbacks may still do between any two events.
- A callback may submit any number of commands. `budget` bounds that number within one event and is set anew
  before the next, so it bounds no run.
- `notices` records what the user is told and when: every call of a command's callback with its code, and every
  connection event.
- A connection is stuck while it refuses commands but cannot be released: it runs a hiredis callback, or is being
  released already. `polite` marks clients whose callbacks submit nothing while the connection of the initial
  endpoint is stuck; what is not promised for them alone holds for callbacks that submit whatever they like.
- Two loops of the cluster client need not end: the recursion from exec over a refusal back to exec, and the
  drain of parked commands. `fuel` counts the steps of theirs that are allowed in vain and `halted` says that they
  were not enough, which happens only when none is left. To meet a stuck connection costs fuel only if it is that
  of the initial endpoint, leads no slot, and some slot has no host that serves, that is, one without a pooled
  connection or with one that takes commands. Every contract that promises more than safety says when `fuel` and
  `halted` stay as they are: the call then ends by a measure that does without them, which is led by the commands
  callbacks still submit, the connections that refuse commands, and the hosts in the table.
- `unlucky` resolves the random slot for the worst: it is one all of whose hosts refuse commands, or that has none,
  if there is such a slot. Nothing that is promised to end depends on it.
- Sequence numbers are unbounded: fewer than 2^64 are drawn. Commands are numbered in the order of their
  creation, which stands for the identity of the allocated object.
- The random slot is any slot, and a C string ends at its first NUL. The text of a redirection that is too
  short to hold an address is read as empty.

## Where the code keeps less than it seems to promise

- A delayed command does not always wait for the whole interval, because microseconds are added without carry.
  `Timers.DueExactly` gives the exact delay, `Timers.WaitsInFullWhen` says exactly when it is the whole
  interval, and `Timers.DueAtOnce` is a reading of the clock at which the default interval of 100 ms is over
  after one microsecond.
- `exec` may recurse for ever. A closing connection stays in the pool while it runs a hiredis callback or is being
  released, and then the initial endpoint can be met again without end. Every call ends in a calm state
  (`Endings.Calm`, and `CalmStep`, `BackStep`, `Quiet` in the contracts of `Clusters.Cluster`). A state is calm if
  the connection of the initial endpoint takes commands, or is neither stuck nor has users' commands queued (with
  polite callbacks, is not stuck); and also if every slot has a host that serves, whatever has become of that
  connection, because a call makes the table forget only hosts that refuse commands (`Endings.ShelterKept`).
  A client is trapped (`Endings.Trapped`) if the table is invalid, the connection of the initial endpoint is stuck,
  and the table does not help: none of its hosts serves or can be given up, or there is a slot none of whose hosts
  serves and the random choice falls on such slots. No call that needs the table ends then, and no callback that
  submits a command. With the table in force the same happens to a command for such a slot (`Endings.Snared`, and
  the clauses on it in `Clusters.Cluster.Exec`, `ExecKey` and the methods they call). While the table is on its way
  commands are only parked.
  Where the random slot may be the worst one, that is all: a state that is not calm has a snared slot, or giving up
  the connection of the initial endpoint traps the users of the commands queued there (`Limits.EndsOrTraps`, an
  equivalence). It leaves out slots that name twice a host that can be given up. Such a host serves the slot again
  once it is gone (`Limits.TwiceServes`) but not while its commands are called back, so that neither a promise nor
  its opposite is made. Nor is it shown what lucky choices of the slot come to.
  `Limits.TrappedAtRest` and `Limits.TrappedByRelease` are states of both kinds of trap, and
  `Limits.ShelteredAtRest` is a calm state with that connection stuck. A reset from inside a callback of the initial
  endpoint, which is what CLUSTERDOWN leads to, leaves a client trapped if that connection stays:
  `Clusters.Cluster.Reset`.
- The drain of parked commands need not end, even if no connection is closing. If a parked slot query fails, its
  callback marks the table invalid in the middle of the drain, and every command behind it that is retried at once
  is parked again for ever, at no cost of ttl. `Sweeps.DrainOutcome` says exactly how the drain ends: with every
  command retried once, unless a query fails with such a command behind it. It surely ends if no such command
  waits behind a query, `Sweeps.OrderlyEnds`. `Limits.QueryAhead` is a state in which it does not.
- A redirection to an address with a colon, such as an IPv6 address, is misread, because an address ends at the
  first colon: `Redirects.MovedRead` and `Redirects.AskRead` say exactly which addresses are read as they were
  meant, and `Redirects.ColonRead` that one with a colon in front becomes the sending host at port 0.
- After ASKING a command may have to wait for the timer and is then sent to any connection:
  `Clusters.Cluster.OnReplyAsking` promises the connection only if the retry does not wait.
- A removal takes the leading host out of a slot once. If it stood at the end of the list as well, it leads the
  slot again: `SlotTables.StillLeads`.
- A failed connection attempt is reported to the user twice, once for hiredis' event and once by the release:
  `Clusters.Cluster.OnConnected` and `Raws.Raw.OnConnected`.

## Model

| member | source | states |
|---|---|---|
| Accounts.LedgerExact | src/detail/happ_cluster.cpp:309-447 | between two entries every command has exactly one holder among the parked list, the timer list, all reply lists and the ASKING in flight, or is still held by a call whose recursion was cut, until it is done; nothing else is held; it is done iff destroyed, and its callback has run exactly once by then and never before; a user was told of it exactly once, with the code it carries, iff it is his and done, and of nothing else |
| Accounts.AlwaysSafe | src/detail/happ_cmd.cpp:27-47 | the invariant gives the exact ledger for every command, nothing left in hand unless the client was halted, attempts plus ttl always sixteen, at most sixteen submissions, slots in range, unique sequences, timeouts that only meet connecting connections, and a sorted timer list |
| Accounts.ToldExact | src/detail/happ_cmd.cpp:125-136 | over the whole trace of what the users were told, a command is told once with its final code iff it is a user's and done, and else never |
| Clusters.Cluster.Run | src/detail/happ_cluster.cpp:797-949 | after any number of any events, in any order, the client is safe: no command was forgotten, told twice, changed after it was done, or given a life back |
| Clusters.Cluster.Event | src/detail/happ_cluster.cpp:716-751 | every single event, or move of the environment, keeps the invariant and lets commands only age |
| Ledger.FinishProgress | src/detail/happ_cluster.cpp:774-795 | a completion with anything its callback did in between changes no other command but those that lose their connection |
| Ledger.SubmitKeeps | src/detail/happ_connection.cpp:87-161 | handing a command to a connection that takes it keeps every part of the invariant |
| Ledger.OpenKeeps | src/detail/happ_cluster.cpp:564-579 | a new connection with its connect timeout keeps sequences unique and timeouts aimed at connecting connections |
| Ledger.EndReleaseKeeps | src/detail/happ_connection.cpp:57-71 | the new sequence after a release disarms every earlier connect timeout |
| Clusters.Cluster.UserCallback | src/detail/happ_cmd.cpp:125-136 | the user is told first; whatever commands the callback then submits, the invariant holds and the lists are only added to; without a submission nothing else changes |
| Clusters.Cluster.CallCmd | src/detail/happ_cmd.cpp:125-136 | the callback is taken out of the command before it runs, so that none is left to call; the command is done, as the next completion and with that code if there was a callback |
| Clusters.Cluster.Finish | src/detail/happ_cluster.cpp:774-795 | the command is completed with that code as the next completion and destroyed; the next thing a user is told is that command and code; only the callback of a slot query marks the table invalid |
| Clusters.Cluster.SetDisconnected | src/detail/happ_connection.cpp:57-71 | ends with an empty reply list, no context and a new sequence, each queued command completed once in order with CONNECTION, although every callback may submit again; a second call changes nothing; it ends by itself with polite callbacks, and in a calm state if no user's command is queued there or the state is calm with the release begun, and then leaves a calm state behind |
| Clusters.Cluster.DrainList | src/detail/happ_connection.cpp:278-295 | the re-entrant loop over the reply list completes exactly that list in order; it ends by itself in a calm state, with polite callbacks, and without commands |
| Clusters.Cluster.ReleaseConnection | src/detail/happ_cluster.cpp:613-652 | the connection leaves the pool after its commands were failed in order and the user was told, as a failed attempt or a lost connection; during a release it is left to that; nothing else is released |
| Clusters.Cluster.RemoveConnectionKey | src/detail/happ_cluster.cpp:1182-1196 | the table is marked invalid and the host removed from every slot it leads, and nothing else changes |
| Clusters.Cluster.GiveUp | src/detail/happ_cluster.cpp:393-403 | a closing connection is released if it may be; a stuck one stays, and only the table forgets it; it ends in every calm state, and in a pitfall leaves the client trapped |
| Clusters.Cluster.ExecOn | src/detail/happ_cluster.cpp:364-419 | the command is handed over exactly once: queued, parked, delayed or done; a spent ttl fails it, else it costs ttl and the connection is the next it is submitted to; the recursion ends in every calm state, also where the connection of the initial endpoint is stuck but every slot has a host that serves; it does not for a command with more than half of its lives left if the connection is a pitfall |
| Clusters.Cluster.RedisCmd | src/detail/happ_connection.cpp:87-161 | the code of a submission in every state of the connection, and the new state: queued at the end, or not at all |
| Clusters.Cluster.Refused | src/detail/happ_cluster.cpp:389-415 | a refusal by a connection that is not closing fails the command with the right code; after one by a closing connection the command has forgotten its slot and is delayed, parked or failed on a spent ttl |
| Clusters.Cluster.Reroute | src/detail/happ_cluster.cpp:393-408 | the retry after a refusal ends in every calm state, led by the closing connections and then by the hosts in the table, and does not for a command with more than half of its lives left if the connection is a pitfall; where the command goes is pinned down |
| Clusters.Cluster.Retry | src/detail/happ_cluster.cpp:421-447 | a retry that need not wait goes to the named connection, or else is executed: submitted to the master of its slot if that is connected or can be and failed with CONNECTION if not, submitted to some connection or failed with CONNECTION if the slot has no master, parked while the table is not in force, failed on a spent ttl; any other joins the timer list with its deadline and nothing else changes |
| Clusters.Cluster.AddTimerCmd | src/detail/happ_cluster.cpp:693-714 | with a running timer the command is delayed and nothing else changes; without a usable one it fails |
| Clusters.Cluster.GetSlotMaster | src/detail/happ_cluster.cpp:489-501 | the first host of the slot; without one the first host of some slot, or the initial endpoint if that slot has none |
| Clusters.Cluster.Exec | src/detail/happ_cluster.cpp:319-362 | the fate of a command in every case: failed on a spent ttl, parked while the table is not in force, submitted next to the master of its slot if that is connected or can be, failed with CONNECTION if it cannot, submitted somewhere or failed with CONNECTION if the slot has no master; ends in every calm state, inside callbacks too, so whenever every slot has a host that serves; does not end if the client is trapped, or with the table in force if the slot of the command is snared and more than half of its lives are left |
| Clusters.Cluster.ExecFound | src/detail/happ_cluster.cpp:346-361 | a submission to a connection the table led to ends by the hosts left in the table; only that of the initial endpoint, stuck and leading no slot, can be met again in vain, and only while some slot has no host that serves |
| SlotTables.LeaderGone | src/detail/happ_cluster.cpp:1182-1196 | removals never bring a host into the table, and that of a host that leads a slot leaves strictly fewer in all |
| Endings.ShelterKept | src/detail/happ_cluster.cpp:393-403 | as long as only hosts that refuse commands are removed, apart from some that are not counted, every slot that has another host that serves goes on having one |
| Endings.PitfallTraps | src/detail/happ_cluster.cpp:393-408 | once a connection that is a pitfall is given up, the client is trapped, or is so once the connection is out of the pool |
| Clusters.Cluster.SubmitOne | src/detail/happ_cmd.cpp:125-136 | a command submitted by a callback ends in every calm state, is only parked in a frozen one, and does not end in a trap |
| SlotTables.HostStays | src/detail/happ_cluster.cpp:1182-1196 | removals keep every host of another name in its slot |
| Limits.EndsOrTraps | src/detail/happ_cluster.cpp:386-419 | if the random slot is the worst one and no slot names a host twice that can be given up: a state is calm iff no slot is snared and, unless callbacks are polite, giving up the connection of the initial endpoint does not trap the users of the commands queued there; commands that nobody is told of do not count |
| Limits.TwiceServes | src/detail/happ_cluster.cpp:1187-1193 | a host that a slot names twice serves it again once it is given up, which is why such slots are left out there |
| Limits.TrappedAtRest | src/detail/happ_cluster.cpp:401-408 | a concrete state at rest in which exec never ends: the only connection closing inside its callback, the table empty |
| Limits.ShelteredAtRest | src/detail/happ_cluster.cpp:489-501 | a concrete state at rest in which the connection of the initial endpoint is stuck in the same way, but every call ends, because another host serves every slot |
| Limits.TrappedByRelease | src/detail/happ_connection.cpp:57-71 | a concrete state at rest in which no slot is snared, but giving up the only connection traps the user of its one command |
| Clusters.Cluster.ExecKey | src/detail/happ_cluster.cpp:309-362 | the key decides the slot and the slot the connection: the command is executed as any other, and nothing else is touched; the caller gets it back iff it is not done; it does not end in a trap, or with the table in force if the slot is snared |
| Clusters.Cluster.Connect | src/detail/happ_cluster.cpp:336-361 | the connection of a slot is that of its first host, if pooled or reachable; without a host the initial endpoint comes into play only while some slot has none; where the slot is snared a pitfall is met |
| Clusters.Cluster.ParkCmd | src/detail/happ_cluster.cpp:327-334 | the command is parked, and the table asked for if every known endpoint can be reached |
| Clusters.Cluster.MakeConnection | src/detail/happ_cluster.cpp:537-611 | made iff not pooled and reachable, taking commands then, with AUTH submitted to it |
| Clusters.Cluster.OpenConnection | src/detail/happ_cluster.cpp:564-579 | a connecting connection with a fresh sequence, and a connect timeout for that sequence while the timer runs |
| Clusters.Cluster.ReloadSlots | src/detail/happ_cluster.cpp:449-487 | nothing happens while the table is on its way; else, if every known endpoint can be reached, a fresh query is sent, and the table counts as asked for while that is alive |
| Clusters.Cluster.DrainPending | src/detail/happ_cluster.cpp:1039-1044 | whatever happens, every parked command is retried: it ends delayed, submitted again or failed with CONNECTION, and none is left parked if the loop ends. From a state with the table in force and no connection closing: the loop ends iff no slot query fails with a command behind it that is retried at once; the commands up to one that fails are retried once in order just as at the start, to the master of their slot or, if they have to wait, into the timer list, and those behind it are delayed; if none fails, the table stays in force and as it was; started in a spinning state it never ends |
| Clusters.Cluster.OnReplyUpdateSlot | src/detail/happ_cluster.cpp:951-1045 | a usable reply replaces the whole table before the drain, in which every parked command is retried, and which ends as DrainPending says if no connection is closing; any other reply marks the table invalid, the requeue of the query being left out |
| Sweeps.OrderlyEnds | src/detail/happ_cluster.cpp:1039-1044 | the drain ends whatever fails, if no command that is retried at once waits behind a slot query |
| Limits.QueryAhead | src/detail/happ_cluster.cpp:956-978 | a concrete state at rest with the table in force and no connection closing from which the drain spins once the parked query has failed |
| Clusters.Cluster.RetryFirst | src/detail/happ_cluster.cpp:1041-1043 | the oldest parked command is retried as any other: to the master of its slot, failed if that cannot be reached, to some connection without a master, parked again, or to the timer list if it has to wait |
| Clusters.Cluster.FireFirst | src/detail/happ_cluster.cpp:728-731 | the first delayed command is executed as any other: failed on a spent ttl, parked, submitted to the master of its slot, or failed with CONNECTION |
| Sweeps.HostsStayIn | src/detail/happ_cluster.cpp:1182-1196 | removals never bring a host into a slot |
| Sweeps.DrainStep | src/detail/happ_cluster.cpp:1039-1044 | one retry of the drain places that command and leaves those behind it as they were |
| Sweeps.SpinsOn | src/detail/happ_cluster.cpp:1039-1044 | once the table is invalid in the middle of the drain, a retry only moves a command to the end of the list, at no cost of ttl, or to the timer list, and one that does not wait stays in the list for ever |
| Clusters.Cluster.PopReply | src/detail/happ_connection.cpp:245-274 | exactly the commands ahead of the popped one time out, in order; what is left is the old rest followed by what callbacks appended; a command that is not queued changes nothing |
| Clusters.Cluster.CallReply | src/detail/happ_connection.cpp:205-243 | a queued command, the only kind hiredis answers, is completed once with the translated code after those ahead of it timed out in order, and nothing else is touched; the reply to a slot query replaces the table and has every parked command retried; the cases of a missing context and of a command that is not queued are in ConnectionObjects |
| Clusters.Cluster.OnReply | src/detail/happ_cluster.cpp:797-949 | the outcome of every reply, in terms of its text: delivered once with the right code (HIREDIS for an error line or a failed context, else CONNECTION while the context closes, else the one the command carries), which the user is told; retried as any other after a network error or TRYAGAIN; sent on after ASK; after MOVED retried at the endpoint it names, under the name of its address and port, after only that slot changed; delivered and all reset after CLUSTERDOWN; a slot table replaces the old one and has every parked command retried; in each case no other command, connection, list or slot is touched but as a call may; the call ends in every calm state, after MOVED if the named host serves or the initial endpoint is not met in vain, for a slot table under the condition of the drain and for CLUSTERDOWN under that of the reset |
| Clusters.Cluster.OnMoved | src/detail/happ_cluster.cpp:897-919 | the slot gets the named endpoint as its one host, with its address (that of the sending host if empty), its port and the name made of both; the command is retried with that table, so that its next submission goes there, the table is asked for, and nothing else is touched |
| Clusters.Cluster.OnMovedReply | src/detail/happ_cluster.cpp:877-922 | a slot out of range or an unreadable address delivers the error, in the latter case with the table marked invalid; anything else is followed, with the slot of the command corrected first |
| Clusters.Cluster.OnAsk | src/detail/happ_cluster.cpp:841-876 | ASKING goes to the connection named after address and port whenever that takes it, and the command waits for the answer in no list; else the command is retried as any other, and nothing else is touched |
| Clusters.Cluster.OnReplyAsking | src/detail/happ_cluster.cpp:1047-1086 | after OK, in any mixture of case, the command goes to that connection unless it has to wait; after a network error it is retried as any other; anything else fails it once with CONNECTION, and an answered slot query takes its reply; nothing else is touched |
| Clusters.Cluster.OnConnected | src/detail/happ_cluster.cpp:1088-1124 | success leaves the connection connected and out of reach of every connect timeout; failure fails its commands in order and is reported twice; nothing else is touched; in both cases an invalid table is asked for if every known endpoint can be reached |
| Clusters.Cluster.SetConnected | src/detail/happ_connection.cpp:73-85 | only a connecting connection becomes connected, with a new sequence |
| Clusters.Cluster.OnDisconnected | src/detail/happ_cluster.cpp:1126-1137 | the connection is released, its commands fail in order, and after an error the table forgets it; it ends in a state that is calm without the forgotten host |
| Clusters.Cluster.Reset | src/detail/happ_cluster.cpp:175-253 | every connection is gone or closing, every parked and every delayed command has failed once in order with its own code, no other command is failed but those that lose their connection, the table is empty and the clock is set back; it ends with polite callbacks, and whatever callbacks submit if the initial endpoint has no connection, or if no slot query waits and no context carries an error; from inside a callback of the initial endpoint it leaves the client trapped |
| Clusters.Cluster.Disconnect | src/detail/happ_cluster.cpp:193-197 | the context refuses commands from then on; an idle one is released at once, and after an error the table forgets the host, both in the middle of the reset |
| Clusters.Cluster.Proc | src/detail/happ_cluster.cpp:716-751 | exactly the commands due at entry fire, in order, and are counted; each of them is executed: failed on a spent ttl, parked while the table is not in force, submitted again, or failed with CONNECTION, and from a settled start just as Exec says in that state unless a slot query ahead of it has failed; none that is left is due; exactly the connections that were still connecting in the phase of a passed timeout, and had not been given up as closing, are released for it, their commands failing in order and the user being told; no other command, connection or host is touched but as a call may; it ends with polite callbacks, in a state that is calm for the initial endpoint unless that itself timed out, and if every slot has a host that serves besides those that timed out |
| Sweeps.FiringEnds | src/detail/happ_cluster.cpp:722-734 | on a sorted list the loop stops exactly after what was due, although what it fires may be delayed again |
| Sweeps.ExpiringNext | src/detail/happ_cluster.cpp:738-748 | a connection whose timeout was dealt with never comes back under the same sequence |
| Sweeps.ExpiredKnown | src/detail/happ_cluster.cpp:738-748 | a timeout whose sequence still matches belongs to a connection that has been connecting all the time and has a context |
| Sweeps.ClockKeeps | src/detail/happ_cluster.cpp:716-720 | the timer list stays sorted and ahead of no later deadline when the clock advances |
| Sweeps.ConnectedKeeps | src/detail/happ_connection.cpp:73-85 | a new sequence on connecting keeps all sequences apart and the invariant |
| Timers.DueExactly | src/detail/happ_cluster.cpp:705-726 | a delayed command is due iff the elapsed microseconds reach the interval's seconds plus the smaller of its microseconds and what was left of the second |
| Timers.WaitsInFullWhen | src/detail/happ_cluster.cpp:708-709 | every delay is at least the interval iff the microseconds of reading and interval fit into one second |
| Timers.DueAtOnce | include/detail/hiredis_happ_config.h.in:126-134 | a reading at which the default interval is over after one microsecond |
| Connections.MakeSequence | src/detail/happ_connection.cpp:303-326 | a drawn sequence is new and not zero |
| ConnectionObjects.Connection.constructor | src/detail/happ_connection.cpp:12-15 | a new connection is disconnected and has a sequence |
| ConnectionObjects.Connection.SetConnecting | src/detail/happ_connection.cpp:34-55 | the context is attached with a new sequence unless there is none, an attempt is under way, or it is there already |
| ConnectionObjects.Connection.SetConnected | src/detail/happ_connection.cpp:73-85 | only a connecting connection becomes connected, with a new sequence |
| ConnectionObjects.Connection.SetDisconnected | src/detail/happ_connection.cpp:57-71 | the callbacks called are exactly those of the old list, in order, with CONNECTION; the loop ends although each may submit again |
| ConnectionObjects.Connection.Release | src/detail/happ_connection.cpp:278-295 | in any state of the connection the loop ends, and the callbacks called are those of the queued commands in order and then of those that were submitted meanwhile and still taken; none of these if the connection takes none or its context is closed for it |
| ConnectionObjects.Connection.Dispose | src/detail/happ_connection.cpp:17-17 | the destructor calls back exactly what was queued, whatever state the connection is in |
| ConnectionObjects.Connection.PopReply | src/detail/happ_connection.cpp:245-274 | without a command the front is popped; a command that is not queued changes nothing; one that is times out exactly those ahead of it, and what is left is the old rest followed by new commands |
| ConnectionObjects.Connection.CallReply | src/detail/happ_connection.cpp:205-243 | a command is completed exactly once in each case, with NOT_FOUND if there is no context or it is not queued |
| ConnectionObjects.Connection.RedisCmd | src/detail/happ_connection.cpp:87-161 | the code in every state, and the list grows iff the command was taken |
| Raws.Raw.Run | src/detail/happ_raw.cpp:85-113 | after any number of any events the client is safe, no command told twice; there is no way for it to halt |
| Raws.Raw.Exec | src/detail/happ_raw.cpp:167-196 | the recursion ends on ttl alone, even inside a callback: a spent ttl fails the command, else it is submitted if there is a connection or can be, and fails with CONNECTION if not |
| Raws.Raw.ExecOn | src/detail/happ_raw.cpp:198-249 | a submission costs ttl and goes to the connection there is; a spent ttl or a missing connection fails the command, each with its code |
| Raws.Raw.Refused | src/detail/happ_raw.cpp:223-245 | a refusal fails the command with the right code; a closing connection is released outside its callback and the command submitted again or delayed |
| Raws.Raw.Retry | src/detail/happ_raw.cpp:251-277 | a retry that need not wait is executed at once, any other is delayed and changes nothing else |
| Raws.Raw.MakeConnection | src/detail/happ_raw.cpp:283-355 | made iff there is none and the server is reachable; AUTH is submitted to it and the user is told; else nothing changes |
| Raws.Raw.ReleaseConnection | src/detail/happ_raw.cpp:357-397 | the connection is forgotten with its connect timeout after its commands failed in order |
| Raws.Raw.OnReply | src/detail/happ_raw.cpp:537-581 | any reply but a network error is delivered once with the right code; after a network error the command is executed again or delayed; no other command is touched but those ahead, which time out |
| Raws.Raw.OnConnected | src/detail/happ_raw.cpp:583-613 | success disarms the connect timeout; failure fails the commands in order and is reported twice; nothing else is touched |
| Raws.Raw.FireFirst | src/detail/happ_raw.cpp:471-474 | the first delayed command is executed: failed on a spent ttl, submitted if there is a connection or can be, else failed with CONNECTION |
| Raws.Raw.Proc | src/detail/happ_raw.cpp:459-493 | exactly the commands due at entry fire, in order, and are counted; each is executed, and submitted if the server can be reached or a connection was up at entry, failed with CONNECTION if neither there was a connection nor can be; no other command is touched but those that lose their connection; a connection still connecting in the phase of a passed timeout is ended, its commands failing in order and the user being told, unless it was closing; a connection that is up and takes commands stays |
| Raws.Raw.ExpireConnection | src/detail/happ_raw.cpp:481-490 | the connection is ended iff its sequence is the recorded one, and then it was connecting and had a context |
| Raws.Raw.Reset | src/detail/happ_raw.cpp:85-113 | the connection is gone or closing, every delayed command has failed once in order and no other but those that lose their connection, and timeout and clock are set back |
| SlotTables.SlotTable.Rebuild | src/detail/happ_cluster.cpp:981-1032 | each of the 16384 slots holds the hosts of the last range that covers it, every write being in bounds whatever the ends of the ranges |
| SlotTables.SlotTable.RebuildRange | src/detail/happ_cluster.cpp:991-1030 | a range with any ends overwrites exactly the slots it covers |
| SlotTables.SlotTable.PickHosts | src/detail/happ_cluster.cpp:1003-1018 | the usable endpoints of a range in the order of the reply, each as Replies reads it |
| SlotTables.SlotTable.PickEndpointOf | src/detail/happ_cluster.cpp:75-119 | the imperative reading of an entry agrees with the one stated of entries |
| Replies.AddressRead | src/detail/happ_cluster.cpp:81-91 | an entry with an address stands for that address and port, whoever sent it |
| Replies.PeerRead | src/detail/happ_cluster.cpp:93-111 | an entry with a nil or empty address stands for the host the connection was made to, else for its source address, else it is not used |
| Replies.EntrySkipped | src/detail/happ_cluster.cpp:77-115 | an entry is not used if its address begins with a question mark or is no text, or its port is outside 0 to 65535 |
| Replies.RangeNext | src/detail/happ_cluster.cpp:1003-1018 | the entries of a range count one by one in the order of the reply, those that are not used leaving no gap |
| Replies.RangeHosts | src/detail/happ_cluster.cpp:1003-1018 | a range of proper entries gives exactly their endpoints in that order, each with its own address and port and named after both |
| SlotTables.RangeRead | src/detail/happ_cluster.cpp:986-1032 | so a slot that such a range covers, and no range after it, has just those hosts after a rebuild |
| SlotTables.HostsNamed | src/detail/happ_connection.cpp:353-357 | every host of the table is named after its own address and port |
| SlotTables.SlotTable.Move | src/detail/happ_cluster.cpp:903-906 | one slot gets the one host, no other slot changes |
| SlotTables.SlotTable.RemoveKey | src/detail/happ_cluster.cpp:1182-1196 | in place over the whole table, each slot led by the name loses its leader |
| SlotTables.LastCoveringDecides | src/detail/happ_cluster.cpp:986-1032 | the last well-formed range that covers a slot decides its hosts |
| SlotTables.UncoveredIsEmpty | src/detail/happ_cluster.cpp:982-984 | a slot that no range covers is empty after a rebuild |
| SlotTables.RemovalTakesOne | src/detail/happ_cluster.cpp:1187-1193 | a removal takes exactly one occurrence of the name from a slot it leads and keeps all other hosts |
| SlotTables.StillLeads | src/detail/happ_cluster.cpp:1187-1193 | the name leads a slot after its removal iff it stood at the end of that list too, so never among distinct hosts |
| SlotTables.MovedSticks | src/detail/happ_cluster.cpp:903-906 | the host MOVED named is what the slot holds until a rebuild, a reset, another MOVED for it or the removal of that host |
| SlotTables.SlotTable.MovedHolds | src/detail/happ_cluster.cpp:489-493 | so every lookup of the slot yields it until then |
| Replies.CString | src/detail/happ_cluster.cpp:88-90 | the text up to the first NUL |
| Crc16.CrcIsRemainder | src/detail/crc16.cpp:31-36 | the checksum of any message is the remainder of its polynomial, moved up by 16 powers, divided by x^16 + x^12 + x^5 + 1 |
| Crc16.CrcLinear | src/detail/crc16.cpp:31-36 | the checksum is linear under exclusive or of messages of equal length |
| Crc16.RegisterInjective | src/detail/crc16.cpp:31-36 | a 16-bit register is determined by its coefficients |
| Crc16Table.TabIsDivision | src/detail/crc16.cpp:8-27 | all 256 entries of the table are the division of their index |
| Crc16Table.TableFeedIs | src/detail/crc16.cpp:34-34 | one step through the table is eight steps of the division |
| Crc16Table.Checksum | src/detail/crc16.cpp:31-36 | the loop over a buffer computes the checksum of the division |
| HashSlots.HashSlot | src/detail/happ_cluster.cpp:49-73 | the two scanning loops compute the checksum modulo 16384 of the hash tag if the key has one, else of the whole key; -1 for no key or an empty one |
| HashSlots.TagIsHashed | src/detail/happ_cluster.cpp:54-72 | with a hash tag (first opening brace, first closing brace after it, something between) the tag alone is hashed |
| HashSlots.UntaggedIsHashedWhole | src/detail/happ_cluster.cpp:59-70 | without one the whole key is hashed |
| HashSlots.TagDecidesSlot | src/detail/happ_cluster.cpp:49-73 | a key shares the slot of its tag, whatever stands around the tag |
| HashSlots.KeySlot | src/detail/happ_cluster.cpp:49-73 | a slot is -1 or in range, and -1 exactly without a key |
| Resp.PickArgument | src/detail/happ_cmd.cpp:148-181 | the scanning of the C library yields the argument, its length and where to go on, or that nothing is left |
| Resp.PickBulk | src/detail/happ_cmd.cpp:162-180 | a bulk string is picked whole whatever bytes it holds and whatever follows |
| Resp.PickAllEncode | src/detail/happ_cmd.cpp:148-185 | round trip: the arguments of any encoded command come back in order and whole, then nothing |
| Resp.PickArguments | src/detail/happ_cmd.cpp:148-185 | picking the command and then argument after argument yields just those, until nothing is left |
| EndpointNames.MakeName | src/detail/happ_connection.cpp:328-351 | the name is the address, a colon and the decimal port |
| EndpointNames.WriteDigits | src/detail/happ_connection.cpp:341-346 | the digits are written backwards into eight characters without overrunning them |
| EndpointNames.NameIsInjective | src/detail/happ_connection.cpp:328-351 | different endpoints have different names |
| Accounts.PooledEndpoint | src/detail/happ_connection.cpp:353-357 | the connection pooled under the name of an endpoint was made to that address and port |
| Clusters.Cluster.RedirectsDiffer | src/detail/happ_cluster.cpp:851-856 | redirections to different endpoints lead to different names in the pool, whoever sent them |
| EndpointNames.PickName | src/detail/happ_connection.cpp:359-381 | the loops over a name read the address and the port cut to 16 bits |
| EndpointNames.PickMakeName | src/detail/happ_connection.cpp:328-381 | a name is taken apart into what it was made of iff the address has no colon and no leading blank |
| Scanning.ScanDecimal | src/detail/happ_connection.cpp:377-378 | a decimal numeral is read back, whatever follows it |
| Redirects.MovedRead | src/detail/happ_cluster.cpp:877-899 | a MOVED reply as the server writes it is read as slot, address and port iff the address has no colon and no white space |
| Redirects.AskRead | src/detail/happ_cluster.cpp:841-851 | so is an ASK reply |
| Clusters.Cluster.MovedReplyRead | src/detail/happ_cluster.cpp:877-906 | the text of a MOVED reply with a plain address is followed to just the slot, the address and the port it says |
| Clusters.Cluster.AskReplyRead | src/detail/happ_cluster.cpp:841-856 | the text of an ASK reply with a plain address names just that address and port |
| Redirects.WordsDecide | src/detail/happ_cluster.cpp:841-936 | an error text asks for what its first word says, ASK, MOVED, TRYAGAIN or CLUSTERDOWN in any mixture of case, and for nothing iff it begins with none of them |
| Redirects.TryAgainRead | src/detail/happ_cluster.cpp:923-931 | TRYAGAIN with any text after it is a request to try again |
| Redirects.ClusterDownRead | src/detail/happ_cluster.cpp:932-936 | CLUSTERDOWN with any text after it says that the cluster is down |
| Sweeps.MovedSends | src/detail/happ_cluster.cpp:903-910 | a command of the moved slot that need not wait is submitted to the new master next, if that is connected or can be |
| Redirects.ColonRead | src/detail/happ_cluster.cpp:897-906 | a MOVED reply to an address that begins with two colons is read as one to the sending host at port 0 |

## Left out

- Commands and connections of the clients are records in maps, not objects: that a pointer is used after its
  object was freed, or that an iterator of the pool is invalidated, is not expressed. `ConnectionObjects`
  has the connection as an object by itself.
- Clusters.Cluster.OnReplyUpdateSlot: the query of the slot table is treated as finished after an unusable
  reply. With commands parked, the code hands it to the timer or destroys it, while its caller destroys it as well;
  and while the timer is not running, to hand it to the timer is to execute it again at once
  (src/detail/happ_cluster.cpp:705-713), so that a query whose connection refuses it can be executed without end,
  in calm states too: after the first connection attempt has failed, say, with commands parked before any tick.
  Every promise that a call ends is made for clients that do without this branch.
- Clusters.Cluster.OnReply: promises that the call ends for a slot table only if its query is the first of the
  reply list, because the callbacks of timed-out commands may park others.
- Clusters.Cluster.PopReply: excludes a connection that is closing outside its callback, which the callbacks of
  the commands ahead could release under the loop.
- Clusters.Cluster.CallReply: excludes a missing context and a command that is not queued, because hiredis answers
  from inside a callback of the context, and only what is queued. `ConnectionObjects` has these cases.
- Clusters.Cluster.Reset: with callbacks that submit what they like, promises that it ends only if the initial
  endpoint has no connection, or if no slot query waits and no context carries an error; what happens else depends
  on the random slots.
- Limits.EndsOrTraps: says nothing of slots that name twice a host that can be given up, nor of random slots that
  are not the worst ones.
- Clusters.Cluster.OnReplyAsking: does not promise that the command reaches the connection ASK named, because
  the code may delay it and forget the connection.
- Late hiredis callbacks for commands that a release with close_fd destroyed: assumed not to occur, as is a
  disconnect event for a connection that is gone.
- SUBSCRIBE, UNSUBSCRIBE and MONITOR, which redis_cmd destroys without a callback, and redis_raw_cmd.
- Users who call release, reset or a connection's methods from inside a callback, or change intervals and
  timeouts during a run.
- That every command is eventually done: a server that never answers keeps it queued.
- Text that sscanf would write past its buffer, numbers that do not fit an int, and pick_argument without
  places for its results.
- Allocation failures, formatting of commands, the AUTH text and its reply, keep-alive, logging, dump, getters
  and setters: nothing of interest holds of them.
