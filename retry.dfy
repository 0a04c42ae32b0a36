/** The data-access retry: an operation runs against a shared database client; when it fails
    with the transient "prepared statement" error (message containing that phrase, or code
    42P05), the client disconnects and connects once and the operation runs exactly once more.
    Any other error, or a failure of the reconnect or of the retry, propagates.

    The database is abstracted as a script of replies: each call the client makes (`$connect`,
    `$disconnect`, or one run of the operation) takes the next reply; an exhausted script
    answers `Ok`. `WithPrisma` is the shared helper; `FindManyWithRetry` is the copy of the
    same pattern inlined in the film listing route, which does not connect first. */
module Retry {
  import opened Values
  import Text

  /** What a thrown database error carries: an optional message and an optional code. */
  datatype DbError = DbError(message: Option<string>, code: Option<string>)

  datatype Reply = Ok | Fail(error: DbError)

  datatype Call = Connect | Disconnect | Run

  /** How a wrapped operation ends: it returns the value produced by its `run`-th run
      (counted from 1 within this call), or it throws. */
  datatype Outcome = Returned(run: nat) | Thrown(error: DbError)

  /** The outcome of one wrapped operation with the calls it made, in order. */
  datatype Attempt = Attempt(outcome: Outcome, calls: seq<Call>)

  /** The error classification: the message mentions "prepared statement", or the code is
      42P05 (duplicate prepared statement). */
  predicate IsTransient(e: DbError) {
    (e.message.Some? && Text.Contains(e.message.value, "prepared statement"))
    || e.code == Some("42P05")
  }

  /** The reply to the call at position `i` of the script. */
  function ReplyAt(rs: seq<Reply>, i: nat): Reply {
    if i < |rs| then rs[i] else Ok
  }

  function Runs(calls: seq<Call>): nat {
    if calls == [] then 0 else (if calls[0] == Run then 1 else 0) + Runs(calls[1..])
  }

  /** The catch block: `e` was thrown after `priorRuns` runs of the operation, and `rest` is
      the script from there on. A transient error leads to one disconnect, one connect and one
      more run; the result lists the calls the catch block makes. */
  function Recover(e: DbError, rest: seq<Reply>, priorRuns: nat): Attempt {
    if !IsTransient(e) then Attempt(Thrown(e), [])
    else if ReplyAt(rest, 0).Fail? then Attempt(Thrown(ReplyAt(rest, 0).error), [Disconnect])
    else if ReplyAt(rest, 1).Fail? then Attempt(Thrown(ReplyAt(rest, 1).error), [Disconnect, Connect])
    else if ReplyAt(rest, 2).Fail? then Attempt(Thrown(ReplyAt(rest, 2).error), [Disconnect, Connect, Run])
    else Attempt(Returned(priorRuns + 1), [Disconnect, Connect, Run])
  }

  /** `a` preceded by the calls `prefix`. */
  function After(prefix: seq<Call>, a: Attempt): Attempt {
    Attempt(a.outcome, prefix + a.calls)
  }

  /** `withPrisma(operation)`: connect and run inside one `try`, so a failing connect is
      classified like a failing run. */
  function WithPrismaSpec(rs: seq<Reply>): Attempt {
    if ReplyAt(rs, 0).Fail? then After([Connect], Recover(ReplyAt(rs, 0).error, Drop(rs, 1), 0))
    else if ReplyAt(rs, 1).Fail? then After([Connect, Run], Recover(ReplyAt(rs, 1).error, Drop(rs, 2), 1))
    else Attempt(Returned(1), [Connect, Run])
  }

  /** The listing route's inlined copy: run, and on a transient error reconnect and run once
      more. */
  function FindManySpec(rs: seq<Reply>): Attempt {
    if ReplyAt(rs, 0).Fail? then After([Run], Recover(ReplyAt(rs, 0).error, Drop(rs, 1), 1))
    else Attempt(Returned(1), [Run])
  }

  function Drop(rs: seq<Reply>, n: nat): seq<Reply> {
    if n <= |rs| then rs[n..] else []
  }

  /** Whether the client is connected after call `c` answered by `r`: a successful connect
      connects it, a disconnect leaves it disconnected whatever its reply, and a run changes
      nothing. */
  function AfterCall(connected: bool, c: Call, r: Reply): bool {
    match c
    case Connect => connected || r.Ok?
    case Disconnect => false
    case Run => connected
  }

  /** Whether the client is connected after the calls `calls`, answered in order by the
      script `rs`, starting from `connected`. */
  function ConnectedAfter(connected: bool, calls: seq<Call>, rs: seq<Reply>): bool
    decreases |calls|
  {
    if calls == [] then connected
    else ConnectedAfter(AfterCall(connected, calls[0], ReplyAt(rs, 0)), calls[1..], Drop(rs, 1))
  }

  /** The error that reaches `withPrisma`'s catch block, if any: a failing connect, or else a
      failing first run. */
  function FirstError(rs: seq<Reply>): Option<DbError> {
    if ReplyAt(rs, 0).Fail? then Some(ReplyAt(rs, 0).error)
    else if ReplyAt(rs, 1).Fail? then Some(ReplyAt(rs, 1).error)
    else None
  }

  /** The calls `withPrisma`'s `try` block makes: the connect, and the run unless the connect
      failed. */
  function Tried(rs: seq<Reply>): seq<Call> {
    if ReplyAt(rs, 0).Fail? then [Connect] else [Connect, Run]
  }

  /** `withPrisma` is its `try` block followed, after an error, by the catch block. */
  lemma {:induction false} WithPrismaSplit(rs: seq<Reply>)
    ensures FirstError(rs).None? ==> WithPrismaSpec(rs) == Attempt(Returned(1), Tried(rs))
    ensures FirstError(rs).Some? ==>
      WithPrismaSpec(rs) == After(Tried(rs), Recover(FirstError(rs).value, Drop(rs, |Tried(rs)|), Runs(Tried(rs))))
  {
    assert Runs([Connect]) == 0;
    assert Runs([Connect, Run]) == 1;
  }

  /** When connecting and the first run succeed, that run's value is returned and the
      operation ran exactly once. */
  lemma {:induction false} FirstSuccessRunsOnce(rs: seq<Reply>)
    requires FirstError(rs) == None
    ensures WithPrismaSpec(rs).outcome == Returned(1)
    ensures WithPrismaSpec(rs).calls == [Connect, Run]
  {
  }

  lemma {:induction false} RunsAppend(a: seq<Call>, b: seq<Call>)
    ensures Runs(a + b) == Runs(a) + Runs(b)
  {
    if a == [] {
      assert a + b == b;
    } else {
      assert (a + b)[1..] == a[1..] + b;
      RunsAppend(a[1..], b);
    }
  }

  /** Dropping `m` replies and then `n` more drops `m + n`. */
  lemma {:induction false} DropDrop(rs: seq<Reply>, m: nat, n: nat)
    ensures Drop(Drop(rs, m), n) == Drop(rs, m + n)
  {
    if m <= |rs| && n <= |rs| - m {
      assert rs[m..][n..] == rs[m + n..];
    }
  }

  /** Running the calls `p` and then `q` is running `q` from where `p` left the client and
      the script. */
  lemma {:induction false} ConnectedAfterAppend(connected: bool, p: seq<Call>, q: seq<Call>, rs: seq<Reply>)
    ensures ConnectedAfter(connected, p + q, rs)
         == ConnectedAfter(ConnectedAfter(connected, p, rs), q, Drop(rs, |p|))
    decreases |p|
  {
    if p == [] {
      assert p + q == q;
      assert Drop(rs, 0) == rs;
    } else {
      assert (p + q)[0] == p[0] && (p + q)[1..] == p[1..] + q;
      ConnectedAfterAppend(AfterCall(connected, p[0], ReplyAt(rs, 0)), p[1..], q, Drop(rs, 1));
      DropDrop(rs, 1, |p| - 1);
    }
  }

  /** The first reply after dropping one is the second reply. */
  lemma {:induction false} ReplyAfterDrop(rs: seq<Reply>)
    ensures ReplyAt(Drop(rs, 1), 0) == ReplyAt(rs, 1)
  {
  }

  /** The catch block runs the operation at most once. */
  lemma {:induction false} RecoverRunsAtMostOnce(e: DbError, rest: seq<Reply>, priorRuns: nat)
    ensures Runs(Recover(e, rest, priorRuns).calls) <= 1
  {
    assert Runs([Disconnect, Connect, Run]) == 1;
  }

  /** The operation never runs more than twice, in either wrapper. */
  lemma {:induction false} AtMostTwoRuns(rs: seq<Reply>)
    ensures Runs(WithPrismaSpec(rs).calls) <= 2
    ensures Runs(FindManySpec(rs).calls) <= 2
  {
    if ReplyAt(rs, 0).Fail? {
      var e := ReplyAt(rs, 0).error;
      RecoverRunsAtMostOnce(e, Drop(rs, 1), 0);
      RunsAppend([Connect], Recover(e, Drop(rs, 1), 0).calls);
      RecoverRunsAtMostOnce(e, Drop(rs, 1), 1);
      RunsAppend([Run], Recover(e, Drop(rs, 1), 1).calls);
    } else if ReplyAt(rs, 1).Fail? {
      var e1 := ReplyAt(rs, 1).error;
      RecoverRunsAtMostOnce(e1, Drop(rs, 2), 1);
      RunsAppend([Connect, Run], Recover(e1, Drop(rs, 2), 1).calls);
    }
  }

  /** A non-transient error is rethrown unchanged: no disconnect and no further run follow
      the failing connect or run. */
  lemma {:induction false} NonTransientRethrown(rs: seq<Reply>)
    requires FirstError(rs).Some? && !IsTransient(FirstError(rs).value)
    ensures WithPrismaSpec(rs).outcome == Thrown(FirstError(rs).value)
    ensures WithPrismaSpec(rs).calls == [Connect] || WithPrismaSpec(rs).calls == [Connect, Run]
  {
  }

  /** A transient error, whether from the connect or from the first run, is followed by
      exactly one disconnect, then at most one connect and at most one more run; a failure
      of any of these propagates as the outcome. */
  lemma {:induction false} TransientReconnectsOnce(rs: seq<Reply>)
    requires FirstError(rs).Some? && IsTransient(FirstError(rs).value)
    ensures var k := if ReplyAt(rs, 0).Fail? then 1 else 2;
      var a := WithPrismaSpec(rs);
      var rest := Drop(rs, k);
      && a.calls[..k] == [Connect, Run][..k]
      && a.calls[k..] == (if ReplyAt(rest, 0).Fail? then [Disconnect]
                          else if ReplyAt(rest, 1).Fail? then [Disconnect, Connect]
                          else [Disconnect, Connect, Run])
      && (ReplyAt(rest, 0).Fail? ==> a.outcome == Thrown(ReplyAt(rest, 0).error))
      && (ReplyAt(rest, 0).Ok? && ReplyAt(rest, 1).Fail? ==> a.outcome == Thrown(ReplyAt(rest, 1).error))
      && (ReplyAt(rest, 0).Ok? && ReplyAt(rest, 1).Ok? && ReplyAt(rest, 2).Fail? ==>
            a.outcome == Thrown(ReplyAt(rest, 2).error))
      && (ReplyAt(rest, 0).Ok? && ReplyAt(rest, 1).Ok? && ReplyAt(rest, 2).Ok? ==>
            a.outcome == Returned(k))
  {
  }

  /** A message mentioning a prepared statement is transient whatever its code; so is code
      42P05 whatever the message. */
  lemma {:induction false} PreparedStatementIsTransient(before: string, after: string, code: Option<string>, message: Option<string>)
    ensures IsTransient(DbError(Some(before + "prepared statement" + after), code))
    ensures IsTransient(DbError(message, Some("42P05")))
  {
    var m := before + "prepared statement" + after;
    assert Text.OccursAt(m, "prepared statement", |before|);
  }

  /** A run that fails with a transient error and then succeeds after the reconnect: the
      listing route returns the second run's value. */
  lemma {:induction false} TransientThenSuccess(e: DbError)
    requires IsTransient(e)
    ensures FindManySpec([Fail(e), Ok, Ok, Ok]) == Attempt(Returned(2), [Run, Disconnect, Connect, Run])
    ensures WithPrismaSpec([Ok, Fail(e), Ok, Ok, Ok]) == Attempt(Returned(2), [Connect, Run, Disconnect, Connect, Run])
  {
  }

  /** The catch block leaves the client as it was after a non-transient error; after a
      transient one, connected exactly when both the disconnect and the connect succeeded,
      which a retry that returns needs. */
  lemma {:induction false} RecoverConnected(connected: bool, e: DbError, rest: seq<Reply>, priorRuns: nat)
    ensures var a := Recover(e, rest, priorRuns);
      && (!IsTransient(e) ==> ConnectedAfter(connected, a.calls, rest) == connected)
      && (IsTransient(e) ==>
            (ConnectedAfter(connected, a.calls, rest) <==> ReplyAt(rest, 0).Ok? && ReplyAt(rest, 1).Ok?))
      && (a.outcome.Returned? ==> ConnectedAfter(connected, a.calls, rest))
  {
    var a := Recover(e, rest, priorRuns);
    if IsTransient(e) {
      var r1 := Drop(rest, 1);
      var r2 := Drop(r1, 1);
      ReplyAfterDrop(rest);
      if ReplyAt(rest, 0).Fail? {
        assert a.calls == [Disconnect];
      } else if ReplyAt(rest, 1).Fail? {
        assert a.calls == [Disconnect, Connect];
        assert a.calls[1..] == [Connect];
      } else {
        assert a.calls == [Disconnect, Connect, Run];
        assert a.calls[1..] == [Connect, Run] && a.calls[1..][1..] == [Run];
        assert ConnectedAfter(false, [Connect, Run], r1) == ConnectedAfter(true, [Run], r2);
      }
    }
  }

  /** `withPrisma` that returns leaves the client connected, whatever it was before. */
  lemma {:induction false} WithPrismaReturnsConnected(connected: bool, rs: seq<Reply>)
    requires WithPrismaSpec(rs).outcome.Returned?
    ensures ConnectedAfter(connected, WithPrismaSpec(rs).calls, rs)
  {
    if ReplyAt(rs, 0).Fail? {
      var a := Recover(ReplyAt(rs, 0).error, Drop(rs, 1), 0);
      ConnectedAfterAppend(connected, [Connect], a.calls, rs);
      RecoverConnected(ConnectedAfter(connected, [Connect], rs), ReplyAt(rs, 0).error, Drop(rs, 1), 0);
    } else if ReplyAt(rs, 1).Fail? {
      var a := Recover(ReplyAt(rs, 1).error, Drop(rs, 2), 1);
      ConnectedAfterAppend(connected, [Connect, Run], a.calls, rs);
      RecoverConnected(ConnectedAfter(connected, [Connect, Run], rs), ReplyAt(rs, 1).error, Drop(rs, 2), 1);
    } else {
      assert [Connect, Run][1..] == [Run];
    }
  }

  /** The listing route's retry leaves the client as it was when the first run succeeds or
      fails for good; after a transient error, connected exactly when the disconnect and the
      connect succeeded. Returning leaves it connected, unless the first run returned on a
      client that was not connected. */
  lemma {:induction false} FindManyConnected(connected: bool, rs: seq<Reply>)
    ensures var a := FindManySpec(rs);
      && (ReplyAt(rs, 0).Ok? ==> ConnectedAfter(connected, a.calls, rs) == connected)
      && (ReplyAt(rs, 0).Fail? && !IsTransient(ReplyAt(rs, 0).error) ==>
            ConnectedAfter(connected, a.calls, rs) == connected)
      && (ReplyAt(rs, 0).Fail? && IsTransient(ReplyAt(rs, 0).error) ==>
            (ConnectedAfter(connected, a.calls, rs) <==> ReplyAt(rs, 1).Ok? && ReplyAt(rs, 2).Ok?))
      && (a.outcome.Returned? ==> ConnectedAfter(connected, a.calls, rs) || (a.calls == [Run] && !connected))
  {
    if ReplyAt(rs, 0).Fail? {
      var a := Recover(ReplyAt(rs, 0).error, Drop(rs, 1), 1);
      ConnectedAfterAppend(connected, [Run], a.calls, rs);
      RecoverConnected(connected, ReplyAt(rs, 0).error, Drop(rs, 1), 1);
      ReplyAfterDrop(rs);
      ReplyAfterDrop(Drop(rs, 1));
      DropDrop(rs, 1, 1);
    }
  }

  /** The shared database client: whether it is connected, the replies still to come, every
      call made so far, and the number of operation runs so far. */
  class Client {
    var connected: bool
    var replies: seq<Reply>
    var trace: seq<Call>
    var runs: nat

    constructor (script: seq<Reply>)
      ensures !connected && replies == script && trace == [] && runs == 0
    {
      connected := false;
      replies := script;
      trace := [];
      runs := 0;
    }

    /** The calls `calls`, answered in order by the script `rs`, took the client from trace
        `t0`, `n0` runs and connection state `c0` to its present state. */
    ghost predicate Moved(calls: seq<Call>, t0: seq<Call>, rs: seq<Reply>, n0: nat, c0: bool)
      reads this
    {
      && trace == t0 + calls && replies == Drop(rs, |calls|) && runs == n0 + Runs(calls)
      && connected == ConnectedAfter(c0, calls, rs)
    }

    /** The client ended as the attempt `a` describes, with outcome `out`. */
    ghost predicate Done(a: Attempt, out: Outcome, t0: seq<Call>, rs: seq<Reply>, n0: nat, c0: bool)
      reads this
    {
      out == a.outcome && Moved(a.calls, t0, rs, n0, c0)
    }

    /** Takes the next reply from the script and records the call. */
    method Step(c: Call) returns (r: Reply)
      modifies this
      ensures r == ReplyAt(old(replies), 0) && replies == Drop(old(replies), 1)
      ensures trace == old(trace) + [c]
      ensures runs == old(runs) + (if c == Run then 1 else 0)
      ensures connected == AfterCall(old(connected), c, r)
    {
      r := ReplyAt(replies, 0);
      replies := Drop(replies, 1);
      trace := trace + [c];
      if c == Run { runs := runs + 1; }
      if c == Connect && r.Ok? { connected := true; }
      if c == Disconnect { connected := false; }
    }

    /** The catch block shared by both wrappers. */
    method Recovering(e: DbError, priorRuns: nat) returns (out: Outcome)
      modifies this
      ensures Done(Recover(e, old(replies), priorRuns), out, old(trace), old(replies), old(runs), old(connected))
    {
      if !IsTransient(e) {
        return Thrown(e);
      }
      var d := Step(Disconnect);
      if d.Fail? { return Thrown(d.error); }
      var c := Step(Connect);
      if c.Fail? { return Thrown(c.error); }
      var r := Step(Run);
      if r.Fail? { return Thrown(r.error); }
      out := Returned(priorRuns + 1);
    }

    /** The `try` block of `withPrisma`: connect, then run the operation; the first error
        ends the block and is handed to the catch block with the number of runs so far. */
    method TryBlock() returns (failure: Option<DbError>, ran: nat)
      modifies this
      ensures failure == FirstError(old(replies)) && ran == Runs(Tried(old(replies)))
      ensures Moved(Tried(old(replies)), old(trace), old(replies), old(runs), old(connected))
    {
      ghost var rs, t0, c0 := replies, trace, connected;
      var c := Step(Connect);
      if c.Fail? {
        return Some(c.error), 0;
      }
      ReplyAfterDrop(rs);
      var r := Step(Run);
      DropDrop(rs, 1, 1);
      assert [Connect, Run][1..] == [Run];
      assert Runs([Connect, Run]) == 1;
      if r.Fail? {
        return Some(r.error), 1;
      }
      return None, 1;
    }

    /** `withPrisma(operation)`. */
    method WithPrisma() returns (out: Outcome)
      modifies this
      ensures Done(WithPrismaSpec(old(replies)), out, old(trace), old(replies), old(runs), old(connected))
    {
      ghost var rs, t0, n0, c0 := replies, trace, runs, connected;
      var failure, ran := TryBlock();
      ghost var p := Tried(rs);
      WithPrismaSplit(rs);
      if failure.None? {
        return Returned(1);
      }
      ghost var rest, c1 := replies, connected;
      out := Recovering(failure.value, ran);
      ghost var a := Recover(failure.value, rest, ran);
      DropDrop(rs, |p|, |a.calls|);
      RunsAppend(p, a.calls);
      ConnectedAfterAppend(c0, p, a.calls, rs);
      assert trace == t0 + (p + a.calls);
      assert WithPrismaSpec(rs) == After(p, a);
    }

    /** The listing route's `findMany` with its inlined retry. */
    method FindManyWithRetry() returns (out: Outcome)
      modifies this
      ensures Done(FindManySpec(old(replies)), out, old(trace), old(replies), old(runs), old(connected))
    {
      ghost var rs, t0, c0 := replies, trace, connected;
      var r := Step(Run);
      if r.Fail? {
        ghost var rest := replies;
        out := Recovering(r.error, 1);
        ghost var a := Recover(r.error, rest, 1);
        DropDrop(rs, 1, |a.calls|);
        RunsAppend([Run], a.calls);
        ConnectedAfterAppend(c0, [Run], a.calls, rs);
        assert trace == t0 + ([Run] + a.calls);
        return;
      }
      out := Returned(1);
    }
  }
}
