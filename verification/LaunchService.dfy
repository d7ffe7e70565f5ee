/**
 `launch` and its polling loop as written, over the operation table, with other processes' writes
 happening at every `await`.
 */
module LaunchService {
  import opened Wrappers
  import opened LaunchOperations

  /** A write to the operation table by another process. */
  datatype Act =
    | InsertAct(key: Key, hash: Hash)
    | CompleteAct(key: Key, ws: WorkspaceId)
    | FailAct(key: Key, code: Code)

  /** Other processes update an operation only while they execute it, so never one that is executed
      here, and never a workspace that is already recorded. */
  function Perform(ops: map<Key, Operation>, executing: set<Key>, act: Act): map<Key, Operation> {
    match act
    case InsertAct(key, hash) => if key in ops then ops else ops[key := NewOperation(hash)]
    case CompleteAct(key, ws) =>
      if key in ops && key !in executing && ops[key].workspace.None? then ops[key := Completed(ops[key], ws)] else ops
    case FailAct(key, code) => if key in ops && key !in executing then ops[key := MarkedFailed(ops[key], code)] else ops
  }

  /** Rows keep their hash and their workspace. */
  ghost predicate RowsEvolve(a: map<Key, Operation>, b: map<Key, Operation>) {
    forall k | k in a :: k in b && b[k].hash == a[k].hash && (a[k].workspace.Some? ==> b[k].workspace == a[k].workspace)
  }

  datatype Outcome = Made(ws: WorkspaceId) | Threw(code: Code)

  /** How an awaited write ends for the caller; one that reports an error may have been committed. */
  datatype WriteEnd = Works | Breaks(committed: bool, code: Code)

  function TimesLaunched(launches: map<Key, nat>, key: Key): nat {
    if key in launches then launches[key] else 0
  }

  /** The reply is what the row says when it is given: another hash is a reused key, a recorded workspace
      is replayed, a failure without one is thrown with its code; and only an operation that has neither
      is in progress, and only for a caller that has polled it for five seconds. */
  ghost predicate Settled(ops: map<Key, Operation>, key: Key, hash: Hash, reply: Reply, polledMs: int) {
    && key in ops
    && var op := ops[key];
    && (op.hash != hash ==> reply == KeyReused)
    && (op.hash == hash && op.workspace.Some? ==> reply == Success(op.workspace.value, true))
    && (op.hash == hash && op.workspace.None? && op.status == FAILED ==>
          reply == Error(if op.lastErrorCode.Some? && |op.lastErrorCode.value| > 0 then op.lastErrorCode.value
                         else "LAUNCH_OPERATION_FAILED"))
    && (op.hash == hash && op.workspace.None? && op.status != FAILED ==> reply == InProgress && 5000 <= polledMs)
  }

  /** What an execution leaves behind.  The row has the workspace exactly if a save of it was committed;
      the reply is the workspace exactly if that save was also heard of; and a failure is on record
      exactly if it was recorded. */
  ghost predicate Executed(op: Operation, hash: Hash, outcome: Outcome, save: WriteEnd, recorded: bool, reply: Reply) {
    && op.hash == hash
    && op.workspace == (if outcome.Made? && (save.Works? || save.committed) then Some(outcome.ws) else None)
    && (outcome.Made? && save.Works? ==> reply == Success(outcome.ws, false))
    && (outcome.Made? && save.Breaks? ==> reply == Error(save.code))
    && (outcome.Threw? ==> reply == Error(outcome.code))
    && op.lastErrorCode == (if reply.Error? && recorded then Some(reply.code) else None)
    && (op.status == FAILED <==> reply.Error? && recorded)
    && (op.status == COMPLETED <==> op.workspace.Some? && !(reply.Error? && recorded))
  }

  class Service {
    var ops: map<Key, Operation>
    var executing: set<Key>
    var launches: map<Key, nat>

    constructor ()
      ensures ops == map[] && executing == {} && launches == map[]
    {
      ops, executing, launches := map[], {}, map[];
    }

    /** An `await`: other processes write. */
    method Others(acts: seq<Act>)
      modifies this`ops
      ensures RowsEvolve(old(ops), ops)
      ensures forall k | k in executing && k in old(ops) :: ops[k] == old(ops)[k]
      ensures acts == [] ==> ops == old(ops)
    {
      for i := 0 to |acts|
        invariant RowsEvolve(old(ops), ops)
        invariant forall k | k in executing && k in old(ops) :: k in ops && ops[k] == old(ops)[k]
        invariant acts == [] ==> ops == old(ops)
      {
        ops := Perform(ops, executing, acts[i]);
      }
    }

    /** Polls the operation every 100 ms until it is settled or 5 s have passed. */
    method WaitForOperationWorkspace(key: Key, ghost hash: Hash, clock: nat -> int, others: nat -> seq<Act>)
      returns (reply: Reply, polls: nat)
      requires key in ops && ops[key].hash == hash
      requires forall i: nat :: clock(0) + OPERATION_POLL_MS * i <= clock(i)
      modifies this`ops
      ensures RowsEvolve(old(ops), ops) && Settled(ops, key, hash, reply, clock(polls) - clock(0))
      ensures reply.InProgress? <==> clock(polls) - clock(0) >= OPERATION_POLL_TIMEOUT_MS
      ensures polls <= 50
    {
      polls := 0;
      while clock(polls) - clock(0) < OPERATION_POLL_TIMEOUT_MS
        invariant key in ops && ops[key].hash == hash && RowsEvolve(old(ops), ops) && polls <= 50
        invariant polls > 0 ==> ops[key].workspace.None? && ops[key].status != FAILED
        decreases 50 - polls
      {
        Others(others(polls));
        var r := OnPoll(ops[key]);
        if r.Some? {
          return r.value, polls;
        }
        assert clock(0) + OPERATION_POLL_MS * polls <= clock(polls);
        polls := polls + 1;
      }
      reply := InProgress;
    }

    /** The reply an existing row settles at once, or else polling. */
    method Replay(key: Key, hash: Hash, settled: Option<Reply>, clock: nat -> int, others: nat -> seq<Act>)
      returns (reply: Reply, polls: nat)
      requires key in ops && (settled == OnExisting(ops[key], hash) || settled == OnConflict(ops[key], hash))
      requires forall i: nat :: clock(0) + OPERATION_POLL_MS * i <= clock(i)
      modifies this`ops
      ensures RowsEvolve(old(ops), ops) && Settled(ops, key, hash, reply, clock(polls) - clock(0))
    {
      if settled.Some? {
        return settled.value, 0;
      }
      reply, polls := WaitForOperationWorkspace(key, hash, clock, others);
    }

    /** The winner of the insert launches, then saves the workspace or records the failure. */
    method Execute(key: Key, hash: Hash, outcome: Outcome, save: WriteEnd, recorded: bool, others: seq<Act>)
      returns (reply: Reply)
      requires key in ops && ops[key] == NewOperation(hash) && key !in executing
      modifies this
      ensures RowsEvolve(old(ops), ops) && executing == old(executing) && key in ops
      ensures launches == old(launches)[key := TimesLaunched(old(launches), key) + 1]
      ensures Executed(ops[key], hash, outcome, save, recorded, reply)
    {
      launches := launches[key := TimesLaunched(launches, key) + 1];
      executing := executing + {key};
      Others(others);
      if outcome.Made? && (save.Works? || save.committed) {
        ops := ops[key := Completed(ops[key], outcome.ws)];
      }
      if outcome.Made? && save.Works? {
        reply := Success(outcome.ws, false);
      } else {
        var code := if outcome.Threw? then outcome.code else save.code;
        if recorded {
          ops := ops[key := MarkedFailed(ops[key], code)];
        }
        reply := Error(code);
      }
      executing := executing - {key};
    }

    /** The whole handler.  `others(0)` to `others(3)` happen at its awaits before polling, and
        `others(4 + i)` before the i-th poll.  It launches at most once, and never when a row was there;
        it replies what the row says, what its own execution led to, or the error of its insert.  An
        operation that has its workspace is replayed by every later request with its hash. */
    method Launch(key: Key, hash: Hash, insert: WriteEnd, outcome: Outcome, save: WriteEnd, recorded: bool,
                  clock: nat -> int, others: nat -> seq<Act>)
      returns (reply: Reply, launched: bool, polls: nat)
      requires key !in executing
      requires forall i: nat :: clock(0) + OPERATION_POLL_MS * i <= clock(i)
      modifies this
      ensures RowsEvolve(old(ops), ops) && executing == old(executing)
      ensures launches == if launched then old(launches)[key := TimesLaunched(old(launches), key) + 1]
              else old(launches)
      ensures key in old(ops) ==> !launched && Settled(ops, key, hash, reply, clock(polls) - clock(0))
      ensures key in old(ops) && old(ops)[key].hash == hash && old(ops)[key].workspace.Some? ==>
                reply == Success(old(ops)[key].workspace.value, true)
      ensures key !in old(ops) && insert.Works? && (forall i :: others(i) == []) ==> launched
      ensures launched ==> insert.Works? && key in ops && Executed(ops[key], hash, outcome, save, recorded, reply)
      ensures !launched ==>
        || Settled(ops, key, hash, reply, clock(polls) - clock(0))
        || (insert.Breaks? && reply == Error(insert.code) && (insert.committed ==> key in ops))
    {
      Others(others(0));
      launched, polls := false, 0;
      if key in ops {
        reply, polls := Replay(key, hash, OnExisting(ops[key], hash), clock, (i: nat) => others(i + 4));
        return;
      }
      Others(others(1));
      if insert.Breaks? {
        if insert.committed && key !in ops {
          ops := ops[key := NewOperation(hash)];
        }
        return Error(insert.code), false, 0;
      }
      if key in ops {
        Others(others(2));
        reply, polls := Replay(key, hash, OnConflict(ops[key], hash), clock, (i: nat) => others(i + 4));
        return;
      }
      ops := ops[key := NewOperation(hash)];
      launched := true;
      reply := Execute(key, hash, outcome, save, recorded, others(3));
    }
  }
}
