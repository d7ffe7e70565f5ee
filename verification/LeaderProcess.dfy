/** The worker's two variables and the leader record as the timers change them. */
module LeaderProcess {
  import opened Wrappers
  import opened Leadership

  class Process {
    const id: WorkerId
    var isLeader: bool
    var currentFencingToken: Option<Token>
    var leaderRetryCount: nat
    var exited: bool

    constructor (workerId: WorkerId)
      ensures id == workerId && State() == Worker(false, None) && leaderRetryCount == 0 && !exited
    {
      id, isLeader, currentFencingToken, leaderRetryCount, exited := workerId, false, None, 0, false;
    }

    function State(): Worker
      reads this
    {
      Worker(isLeader, currentFencingToken)
    }

    /** One attempt at the lock: `granted` is the database's answer, or none if the query threw.  With a
        grant the result is the record that is written; if that write throws, leader and token are kept,
        and the count begins again at one.  Otherwise the attempt counts towards giving up. */
    method AcquireLeaderLock(granted: Option<bool>, drawn: Token, writeThrows: bool) returns (upsert: Option<Record>)
      requires !exited && leaderRetryCount < MAX_LEADER_RETRIES
      modifies this
      ensures granted == Some(true) ==>
                && upsert == Some(Record(id, drawn)) && State() == Worker(true, Some(drawn))
                && leaderRetryCount == (if writeThrows then 1 else 0) && !exited
      ensures granted != Some(true) ==>
                upsert.None? && State() == old(State()) && leaderRetryCount == old(leaderRetryCount) + 1
      ensures exited <==> granted != Some(true) && leaderRetryCount == MAX_LEADER_RETRIES
    {
      upsert := None;
      if granted.Some? && granted.value {
        isLeader := true;
        leaderRetryCount := 0;
        currentFencingToken := Some(drawn);
        upsert := Some(Record(id, drawn));
        if !writeThrows {
          return;
        }
      }
      leaderRetryCount := leaderRetryCount + 1;
      if leaderRetryCount >= MAX_LEADER_RETRIES {
        exited := true;
      }
    }

    /** The end of a check in the protocol.  `read` is what the query returned, or none if it threw: then
        this tick begins nothing, and leadership is kept for the next. */
    method VerifyLeaderLock(read: Option<Option<Record>>, ghost x: World, ghost call: CallId)
      returns (stillLeader: bool)
      requires id in x.workers && x.workers[id] == State() && MayCheck(x, id)
      requires call in x.checks && (read.Some? ==> x.checks[call] == Check(id, TokenOf(read.value)))
      modifies this
      ensures var x' := if read.Some? then FinishCheckStep(x, call) else Apply(x, FailCheck(call));
              && x'.workers[id] == State()
              && (stillLeader <==> |x'.begun| > |x.begun|)
      ensures stillLeader <==> read.Some? && TokenOf(read.value) == old(currentFencingToken)
      ensures read.Some? && !stillLeader ==> !isLeader && currentFencingToken.None?
      ensures read.None? ==> State() == old(State())
    {
      if read.None? {
        return false;
      }
      var record := read.value;
      if record.None? || Some(record.value.token) != currentFencingToken {
        isLeader := false;
        currentFencingToken := None;
        return false;
      }
      stillLeader := true;
    }
  }
}
