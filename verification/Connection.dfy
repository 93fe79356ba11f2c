/** Commands and the connections that carry them. */
module Connections {
  import opened Types

  /** Who owns the command's callback: the user, the slot-table query or the AUTH exchange. */
  datatype Kind = User | SlotQuery | Auth

  type CmdId = nat

  /** Where a command is. Every command is in exactly one of these places. */
  datatype Home =
    | InHand                  // held by a running function, on its way to another place
    | Parked                  // waiting for the slot table
    | Delayed                 // waiting for the timer
    | Queued(name: string)    // submitted, in that connection's reply list
    | Asking(name: string)    // its ASKING request is in flight on that connection
    | Done                    // its callback has had its one call

  /** What the user is told: a command is called back, a connection is being made, an attempt has ended, a
      connection was lost. */
  datatype Notice =
    | Told(cmd: CmdId, code: Code)
    | ConnectBegan(name: string)
    | ConnectEnded(name: string, ok: bool)
    | ConnectionLost(name: string)

  /** A command, with what the ledger records of its life. */
  datatype CmdState = CmdState(
    kind: Kind,
    given: bool,              // a callback was supplied
    ttl: nat,
    slot: int,
    callback: bool,           // the callback is still to be called
    errorCode: Code,
    home: Home,
    calls: nat,               // how often the callback was called
    attempts: nat,            // how often the ttl was spent
    submits: seq<string>,     // the connections it was submitted to, in order
    finishedAt: nat,          // its position among all completions
    destroyed: bool)
  {
    /** What holds of a command in any place: the bounded number of attempts, the slot range, and
        that the callback has run exactly when the command is done, and then once. Only a command with
        some ttl left is parked. */
    predicate Ok() {
      && attempts + ttl == TTL_MAX
      && |submits| <= attempts
      && -1 <= slot < SLOT_NUMBER
      && callback == (given && home != Done)
      && calls == (if given && home == Done then 1 else 0)
      && (destroyed ==> home == Done)
      && (home == Parked ==> ttl > 0)
    }

    /** The callback is a user's. */
    predicate Rings() {
      kind == User && given
    }

    /** The command once it has been called back with `code`, as completion number `when`. */
    function Completed(code: Code, when: nat): CmdState {
      if callback
      then this.(home := Done, finishedAt := when, errorCode := code, callback := false, calls := calls + 1)
      else this.(home := Done, finishedAt := when)
    }
  }

  function NewCmd(kind: Kind, given: bool): CmdState {
    CmdState(kind, given, TTL_MAX, -1, given, OK, InHand, 0, 0, [], 0, false)
  }

  datatype Status = DISCONNECTED | CONNECTING | CONNECTED

  /** The error state of a hiredis context. */
  datatype ContextError = NoError | Io | Eof | OtherError

  /** What the client reads of a hiredis context. */
  datatype Context = Context(id: nat, disconnecting: bool, freeing: bool, inCallback: bool, err: ContextError)

  predicate NoDup<T(==)>(s: seq<T>) {
    forall i, j :: 0 <= i < j < |s| ==> s[i] != s[j]
  }

  /** Where a list first holds an element. */
  function IndexOf<T(==)>(s: seq<T>, x: T): (i: nat)
    requires x in s
    ensures i < |s| && s[i] == x && x !in s[..i]
  {
    if s[0] == x then 0
    else
      var i := 1 + IndexOf(s[1..], x);
      assert s[..i] == [s[0]] + s[1..][..i - 1];
      i
  }

  datatype ConnState = ConnState(
    key: Key, status: Status, context: Option<Context>, sequence: nat, replyList: seq<CmdId>)
  {
    /** hiredis is closing the context and refuses commands. */
    predicate Refusing() {
      context.Some? && (context.value.disconnecting || context.value.freeing)
    }

    predicate InCallback() {
      context.Some? && context.value.inCallback
    }

    /** The result of handing a command over; `accepts` is hiredis' answer if it is not closing. */
    function Accepts(accepts: bool): Code {
      if context.None? then CREATE
      else if status == DISCONNECTED then CONNECTION
      else if Refusing() || !accepts then HIREDIS
      else OK
    }
  }

  /** Draws the next non-zero operation sequence from the process-wide counter. */
  method MakeSequence(alloc: nat) returns (sequence: nat, next: nat)
    ensures alloc <= sequence && sequence != 0 && next == sequence + 1
  {
    sequence, next := alloc, alloc + 1;
    while sequence == 0
      invariant alloc <= sequence && next == sequence + 1
      decreases 1 - sequence
    {
      sequence, next := next, next + 1;
    }
  }
}
