/**
 Leader election with fencing: workers contend for one advisory lock, the winner writes a fresh token
 to the leader record, and every batch of jobs is preceded by a check of that token.  The lock can be
 lost, workers crash, writes and reads take time, and checks of one worker may overlap.
 */
module Leadership {
  import opened Wrappers

  type WorkerId = nat
  type Token = nat
  type CallId = nat

  /** The module variables of one worker process. */
  datatype Worker = Worker(isLeader: bool, token: Option<Token>)

  datatype Record = Record(author: WorkerId, token: Token)

  datatype Check = Check(worker: WorkerId, seen: Option<Token>)

  /** `upserts` are writes of the record under way, `checks` reads of it under way; `issued` and `begun` are
      history: who drew each token, and which batches began. */
  datatype World = World(
    workers: map<WorkerId, Worker>,
    lock: Option<WorkerId>,
    record: Option<Record>,
    upserts: map<CallId, Record>,
    checks: map<CallId, Check>,
    issued: map<Token, WorkerId>,
    begun: seq<Record>)

  datatype Step =
    | Spawn(w: WorkerId)
    | TryLock(w: WorkerId, token: Token, call: CallId)
    | CommitUpsert(call: CallId)
    | FailUpsert(call: CallId)
    | StartCheck(w: WorkerId, call: CallId)
    | FinishCheck(call: CallId)
    | FailCheck(call: CallId)
    | LoseLock
    | Crash(w: WorkerId)

  /** The lock is granted when it is free, and again to the session that has it. */
  predicate Granted(x: World, w: WorkerId, token: Token, call: CallId) {
    w in x.workers && (x.lock.None? || x.lock.value == w) && token !in x.issued && call !in x.upserts
  }

  function TryLockStep(x: World, w: WorkerId, token: Token, call: CallId): World {
    if !Granted(x, w, token, call) then x
    else x.(workers := x.workers[w := Worker(true, Some(token))], lock := Some(w),
            upserts := x.upserts[call := Record(w, token)], issued := x.issued[token := w])
  }

  function CommitUpsertStep(x: World, call: CallId): World {
    if call in x.upserts then x.(record := Some(x.upserts[call]), upserts := x.upserts - {call}) else x
  }

  function TokenOf(record: Option<Record>): Option<Token> {
    if record.Some? then Some(record.value.token) else None
  }

  predicate MayCheck(x: World, w: WorkerId) {
    w in x.workers && x.workers[w].isLeader && x.workers[w].token.Some?
  }

  /** The guard, and the database's read of the record. */
  function StartCheckStep(x: World, w: WorkerId, call: CallId): World {
    if MayCheck(x, w) && call !in x.checks then x.(checks := x.checks[call := Check(w, TokenOf(x.record))]) else x
  }

  predicate Passes(x: World, r: Check) {
    r.worker in x.workers && x.workers[r.worker].token.Some? && r.seen == x.workers[r.worker].token
  }

  /** The comparison with the current token: a batch begins, or leadership is given up. */
  function FinishCheckStep(x: World, call: CallId): World {
    if call !in x.checks then x
    else
      var r := x.checks[call];
      var x' := x.(checks := x.checks - {call});
      if r.worker !in x.workers then x'
      else if Passes(x, r) then x'.(begun := x.begun + [Record(r.worker, x.workers[r.worker].token.value)])
      else x'.(workers := x.workers[r.worker := Worker(false, None)])
  }

  function CrashStep(x: World, w: WorkerId): World {
    x.(workers := x.workers - {w}, lock := if x.lock == Some(w) then None else x.lock)
  }

  function Apply(x: World, step: Step): World {
    match step
    case Spawn(w) => if w in x.workers then x else x.(workers := x.workers[w := Worker(false, None)])
    case TryLock(w, token, call) => TryLockStep(x, w, token, call)
    case CommitUpsert(call) => CommitUpsertStep(x, call)
    case FailUpsert(call) => x.(upserts := x.upserts - {call})
    case StartCheck(w, call) => StartCheckStep(x, w, call)
    case FinishCheck(call) => FinishCheckStep(x, call)
    case FailCheck(call) => x.(checks := x.checks - {call})
    case LoseLock => x.(lock := None)
    case Crash(w) => CrashStep(x, w)
  }

  function Exec(x: World, steps: seq<Step>): World
    decreases |steps|
  {
    if steps == [] then x else Exec(Apply(x, steps[0]), steps[1..])
  }

  const Start: World := World(map[], None, None, map[], map[], map[], [])

  /** Every token in use was drawn by the worker it stands for. */
  ghost predicate Inv(x: World) {
    && (forall w | w in x.workers && x.workers[w].token.Some? ::
          x.workers[w].token.value in x.issued && x.issued[x.workers[w].token.value] == w)
    && (forall w | w in x.workers :: x.workers[w].isLeader <==> x.workers[w].token.Some?)
    && (x.record.Some? ==> x.record.value.token in x.issued && x.issued[x.record.value.token] == x.record.value.author)
    && (forall c | c in x.upserts ::
        x.upserts[c].token in x.issued && x.issued[x.upserts[c].token] == x.upserts[c].author)
    && (forall c | c in x.checks && x.checks[c].seen.Some? :: x.checks[c].seen.value in x.issued)
  }

  lemma TryLockKeeps(x: World, w: WorkerId, token: Token, call: CallId)
    requires Inv(x)
    ensures Inv(TryLockStep(x, w, token, call))
  {
  }

  lemma ChecksKeep(x: World, step: Step)
    requires Inv(x) && (step.StartCheck? || step.FinishCheck? || step.FailCheck?)
    ensures Inv(Apply(x, step))
  {
  }

  lemma StepKeeps(x: World, step: Step)
    requires Inv(x)
    ensures Inv(Apply(x, step))
  {
    match step
    case TryLock(w, token, call) => TryLockKeeps(x, w, token, call);
    case StartCheck(_, _) => ChecksKeep(x, step);
    case FinishCheck(_) => ChecksKeep(x, step);
    case FailCheck(_) => ChecksKeep(x, step);
    case _ =>
  }

  lemma {:induction false} ExecKeeps(x: World, steps: seq<Step>)
    requires Inv(x)
    ensures Inv(Exec(x, steps))
    decreases |steps|
  {
    if steps == [] {
    } else {
      StepKeeps(x, steps[0]);
      ExecKeeps(Apply(x, steps[0]), steps[1..]);
    }
  }

  // ---------------------------------------------------------------------------------------------
  // Main results
  // ---------------------------------------------------------------------------------------------

  /** A check made now would pass. */
  predicate CanPass(x: World, w: WorkerId) {
    MayCheck(x, w) && x.workers[w].token == TokenOf(x.record)
  }

  /** In every reachable state only the author of the latest record can pass the check, so no two
      workers can, even if both believe to be the leader. */
  lemma OnlyTheAuthorPasses(steps: seq<Step>, w: WorkerId, v: WorkerId)
    requires CanPass(Exec(Start, steps), w)
    ensures Exec(Start, steps).record.Some? && Exec(Start, steps).record.value.author == w
    ensures CanPass(Exec(Start, steps), v) ==> v == w
  {
    ExecKeeps(Start, steps);
  }

  /** `w` is not granted the lock. */
  ghost predicate NotReacquired(x: World, steps: seq<Step>, w: WorkerId)
    decreases |steps|
  {
    steps == [] ||
    (!(steps[0].TryLock? && steps[0].w == w && Granted(x, w, steps[0].token, steps[0].call))
     && NotReacquired(Apply(x, steps[0]), steps[1..], w))
  }

  /** Of the batches after the first `n`, one is `w`'s. */
  ghost predicate BeganAfter(begun: seq<Record>, n: nat, w: WorkerId) {
    exists i :: n <= i < |begun| && begun[i].author == w
  }

  /** A check of `w` that read its current token is under way. */
  ghost predicate PassingCheck(x: World, w: WorkerId) {
    exists c :: c in x.checks && x.checks[c].worker == w && Passes(x, x.checks[c])
  }

  /** A write of the record with `w`'s current token is under way. */
  ghost predicate WriteUnderWay(x: World, w: WorkerId) {
    MayCheck(x, w) && exists c :: c in x.upserts && x.upserts[c] == Record(w, x.workers[w].token.value)
  }

  ghost predicate MayStillBegin(x: World, w: WorkerId) {
    CanPass(x, w) || PassingCheck(x, w) || WriteUnderWay(x, w)
  }

  lemma StuckStep(x: World, step: Step, w: WorkerId)
    requires Inv(x) && !MayStillBegin(x, w)
    requires !(step.TryLock? && step.w == w && Granted(x, w, step.token, step.call))
    ensures !MayStillBegin(Apply(x, step), w)
    ensures var begun := Apply(x, step).begun;
            begun == x.begun || (|begun| == |x.begun| + 1 && x.begun == begun[..|x.begun|]
                                 && begun[|x.begun|].author != w)
  {
    StepKeeps(x, step);
    StuckKeepsCanPass(x, step, w);
    StuckKeepsChecks(x, step, w);
    StuckKeepsWrites(x, step, w);
  }

  lemma StuckKeepsCanPass(x: World, step: Step, w: WorkerId)
    requires Inv(x) && !CanPass(x, w) && !WriteUnderWay(x, w)
    requires !(step.TryLock? && step.w == w && Granted(x, w, step.token, step.call))
    ensures !CanPass(Apply(x, step), w)
  {
  }

  lemma StuckKeepsOwnChecks(x: World, step: Step, w: WorkerId)
    requires Inv(x) && !CanPass(x, w) && !PassingCheck(x, w)
    requires step.StartCheck? || step.FinishCheck? || step.FailCheck?
    ensures !PassingCheck(Apply(x, step), w)
  {
    var x' := Apply(x, step);
    forall c | c in x'.checks && x'.checks[c].worker == w ensures !Passes(x', x'.checks[c]) {
      if c in x.checks && x'.checks[c] == x.checks[c] { assert !Passes(x, x.checks[c]); }
    }
  }

  lemma StuckKeepsChecks(x: World, step: Step, w: WorkerId)
    requires Inv(x) && !CanPass(x, w) && !PassingCheck(x, w)
    requires !(step.TryLock? && step.w == w && Granted(x, w, step.token, step.call))
    ensures !PassingCheck(Apply(x, step), w)
  {
    if step.StartCheck? || step.FinishCheck? || step.FailCheck? {
      StuckKeepsOwnChecks(x, step, w);
    } else {
      var x' := Apply(x, step);
      forall c | c in x'.checks && x'.checks[c].worker == w ensures !Passes(x', x'.checks[c]) {
        assert !Passes(x, x.checks[c]);
      }
    }
  }

  lemma StuckKeepsWrites(x: World, step: Step, w: WorkerId)
    requires Inv(x) && !WriteUnderWay(x, w)
    requires !(step.TryLock? && step.w == w && Granted(x, w, step.token, step.call))
    ensures !WriteUnderWay(Apply(x, step), w)
  {
    var x' := Apply(x, step);
    if MayCheck(x', w) {
      forall c | c in x'.upserts ensures x'.upserts[c] != Record(w, x'.workers[w].token.value) {
        if c in x.upserts && x'.upserts[c] == x.upserts[c] { assert MayCheck(x, w); }
      }
    }
  }

  /** A worker that cannot pass a check and has neither a passing check nor a write of its current token
      under way begins no batch until it is granted the lock again. */
  lemma {:induction false} DisplacedBeginsNothing(x: World, steps: seq<Step>, w: WorkerId)
    requires Inv(x) && !MayStillBegin(x, w) && NotReacquired(x, steps, w)
    ensures var x' := Exec(x, steps);
            && |x.begun| <= |x'.begun| && x'.begun[..|x.begun|] == x.begun
            && !BeganAfter(x'.begun, |x.begun|, w) && !MayStillBegin(x', w)
    decreases |steps|
  {
    if steps == [] {
    } else {
      var x1 := Apply(x, steps[0]);
      StuckStep(x, steps[0], w);
      StepKeeps(x, steps[0]);
      DisplacedBeginsNothing(x1, steps[1..], w);
      LaterBatches(x.begun, x1.begun, Exec(x, steps).begun, w);
    }
  }

  lemma LaterBatches(a: seq<Record>, b: seq<Record>, c: seq<Record>, w: WorkerId)
    requires a == b || (|b| == |a| + 1 && a == b[..|a|] && b[|a|].author != w)
    requires |b| <= |c| && c[..|b|] == b && !BeganAfter(c, |b|, w)
    ensures |a| <= |c| && c[..|a|] == a && !BeganAfter(c, |a|, w)
  {
    assert forall i | 0 <= i < |b| :: c[i] == b[i] by { assert forall i | 0 <= i < |b| :: c[..|b|][i] == c[i]; }
  }

  ghost predicate CanBegin(x: World, w: WorkerId, steps: seq<Step>) {
    NotReacquired(x, steps, w) && BeganAfter(Exec(x, steps).begun, |x.begun|, w)
  }

  lemma {:induction false} UnusedCall(calls: set<CallId>)
    ensures exists c :: c !in calls && forall d | d in calls :: d < c
  {
    if calls == {} {
      assert forall d | d in calls :: d < 0;
    } else {
      var k :| k in calls;
      UnusedCall(calls - {k});
      var c :| c !in calls - {k} && forall d | d in calls - {k} :: d < c;
      var top := if k < c then c else k + 1;
      assert forall d | d in calls :: d == k || d in calls - {k};
      assert top !in calls && forall d | d in calls :: d < top;
    }
  }

  lemma PassingCheckBegins(x: World, w: WorkerId, c: CallId)
    requires c in x.checks && x.checks[c].worker == w && Passes(x, x.checks[c])
    ensures CanBegin(x, w, [FinishCheck(c)])
  {
    var steps := [FinishCheck(c)];
    assert steps[1..] == [] && Exec(x, steps) == Exec(Apply(x, steps[0]), steps[1..]) == Apply(x, steps[0]);
    assert NotReacquired(Apply(x, steps[0]), steps[1..], w);
    assert Exec(x, steps).begun[|x.begun|].author == w;
  }

  lemma CanPassBegins(x: World, w: WorkerId) returns (steps: seq<Step>)
    requires Inv(x) && CanPass(x, w)
    ensures CanBegin(x, w, steps)
  {
    UnusedCall(x.checks.Keys);
    var c: CallId :| c !in x.checks;
    var x1 := StartCheckStep(x, w, c);
    PassingCheckBegins(x1, w, c);
    steps := [StartCheck(w, c), FinishCheck(c)];
    assert steps[1..] == [FinishCheck(c)];
    assert Exec(x, steps) == Exec(x1, steps[1..]);
  }

  lemma WriteBegins(x: World, w: WorkerId) returns (steps: seq<Step>)
    requires Inv(x) && WriteUnderWay(x, w)
    ensures CanBegin(x, w, steps)
  {
    var c :| c in x.upserts && x.upserts[c] == Record(w, x.workers[w].token.value);
    var x1 := CommitUpsertStep(x, c);
    StepKeeps(x, CommitUpsert(c));
    var more := CanPassBegins(x1, w);
    steps := [CommitUpsert(c)] + more;
    assert steps[1..] == more;
    assert Exec(x, steps) == Exec(x1, more);
  }

  /** Which workers can begin a batch without being granted the lock again: exactly those that can pass
      a check now, those with a passing check under way, and those whose write of the record is still
      under way. */
  lemma CanBeginIff(x: World, w: WorkerId)
    requires Inv(x)
    ensures (exists steps :: CanBegin(x, w, steps)) <==> MayStillBegin(x, w)
  {
    if CanPass(x, w) {
      var steps := CanPassBegins(x, w);
      assert CanBegin(x, w, steps);
    } else if PassingCheck(x, w) {
      var c :| c in x.checks && x.checks[c].worker == w && Passes(x, x.checks[c]);
      PassingCheckBegins(x, w, c);
    } else if WriteUnderWay(x, w) {
      var steps := WriteBegins(x, w);
      assert CanBegin(x, w, steps);
    } else {
      forall steps ensures !CanBegin(x, w, steps) {
        if NotReacquired(x, steps, w) { DisplacedBeginsNothing(x, steps, w); }
      }
    }
  }

  /** Another worker wrote the latest record. */
  predicate Displaced(x: World, w: WorkerId) {
    x.record.Some? && x.record.value.author != w
  }

  /** For a displaced worker that leaves two gaps: what was read before, and what is written late. */
  lemma DisplacedCanBeginIff(steps: seq<Step>, w: WorkerId)
    requires Displaced(Exec(Start, steps), w)
    ensures var x := Exec(Start, steps);
            (exists more :: CanBegin(x, w, more)) <==> PassingCheck(x, w) || WriteUnderWay(x, w)
  {
    ExecKeeps(Start, steps);
    CanBeginIff(Exec(Start, steps), w);
  }

  /** The first gap: a check that had read the record before it changed hands still begins its batch. */
  lemma ReadUnderWayStillBegins(x: World, w: WorkerId, v: WorkerId, check: CallId, token: Token, call: CallId)
    requires Inv(x) && check in x.checks && x.checks[check].worker == w && Passes(x, x.checks[check])
    requires v != w && v in x.workers && token !in x.issued && call !in x.upserts
    ensures var x3 := Exec(x, [LoseLock, TryLock(v, token, call), CommitUpsert(call)]);
            && x3.record == Some(Record(v, token)) && !CanPass(x3, w)
            && FinishCheckStep(x3, check).begun == x.begun + [Record(w, x.workers[w].token.value)]
  {
    var steps := [LoseLock, TryLock(v, token, call), CommitUpsert(call)];
    var x1 := Apply(x, steps[0]);
    var x2 := Apply(x1, steps[1]);
    var x3 := Apply(x2, steps[2]);
    assert steps[1..][1..] == steps[2..] && steps[2..][1..] == [];
    assert Exec(x, steps) == Exec(x1, steps[1..]) == Exec(x2, steps[2..]) == Exec(x3, []) == x3;
  }

  /** The second: a worker that lost the lock while its write of the record was under way takes the
      record back when the write arrives, and passes its next check, although another has acquired. */
  lemma WriteUnderWayStillBegins(x: World, w: WorkerId, v: WorkerId, call: CallId, token: Token, call': CallId)
    requires Inv(x) && MayCheck(x, w) && call in x.upserts && x.upserts[call] == Record(w, x.workers[w].token.value)
    requires v != w && v in x.workers && token !in x.issued && call' !in x.upserts
    ensures var x3 := Exec(x, [LoseLock, TryLock(v, token, call'), CommitUpsert(call')]);
            && x3.record == Some(Record(v, token)) && !CanPass(x3, w)
            && CanPass(CommitUpsertStep(x3, call), w) && exists more :: CanBegin(x3, w, more)
  {
    var steps := [LoseLock, TryLock(v, token, call'), CommitUpsert(call')];
    var x1 := Apply(x, steps[0]);
    var x2 := Apply(x1, steps[1]);
    var x3 := Apply(x2, steps[2]);
    assert steps[1..][1..] == steps[2..] && steps[2..][1..] == [];
    assert Exec(x, steps) == Exec(x1, steps[1..]) == Exec(x2, steps[2..]) == Exec(x3, []) == x3;
    ExecKeeps(x, steps);
    assert call in x3.upserts;
    CanBeginIff(x3, w);
  }

  // ---------------------------------------------------------------------------------------------
  // Taking over
  // ---------------------------------------------------------------------------------------------

  lemma ExecFirst(x: World, steps: seq<Step>, step: Step, rest: seq<Step>)
    requires steps == [step] + rest
    ensures Exec(x, steps) == Exec(Apply(x, step), rest)
  {
    assert steps[0] == step && steps[1..] == rest;
  }

  /** A worker that starts, is granted the free lock, writes its record, and checks it. */
  function LeadingRun(v: WorkerId, token: Token, call: CallId): seq<Step> {
    [Spawn(v), TryLock(v, token, call), CommitUpsert(call), StartCheck(v, call), FinishCheck(call)]
  }

  /** The world once the worker has written its record. */
  ghost function Acquired(x: World, v: WorkerId, token: Token): World {
    x.(workers := x.workers[v := Worker(true, Some(token))], lock := Some(v), record := Some(Record(v, token)),
       issued := x.issued[token := v])
  }

  lemma FreeLockIsAcquired(x: World, v: WorkerId, token: Token, call: CallId, rest: seq<Step>)
    requires x.lock == None && v !in x.workers && token !in x.issued && call !in x.upserts
    ensures Exec(x, [Spawn(v), TryLock(v, token, call), CommitUpsert(call)] + rest) == Exec(Acquired(x, v, token), rest)
  {
    var x1 := x.(workers := x.workers[v := Worker(false, None)]);
    var x2 := TryLockStep(x1, v, token, call);
    assert x2.upserts - {call} == x.upserts;
    assert CommitUpsertStep(x2, call) == Acquired(x, v, token);
    ExecFirst(x, [Spawn(v), TryLock(v, token, call), CommitUpsert(call)] + rest, Spawn(v),
              [TryLock(v, token, call), CommitUpsert(call)] + rest);
    ExecFirst(x1, [TryLock(v, token, call), CommitUpsert(call)] + rest, TryLock(v, token, call),
              [CommitUpsert(call)] + rest);
    ExecFirst(x2, [CommitUpsert(call)] + rest, CommitUpsert(call), rest);
  }

  lemma AuthorBegins(x: World, v: WorkerId, token: Token, call: CallId)
    requires v in x.workers && x.workers[v] == Worker(true, Some(token)) && x.record == Some(Record(v, token))
    requires call !in x.checks
    ensures Exec(x, [StartCheck(v, call), FinishCheck(call)]) == x.(begun := x.begun + [Record(v, token)])
  {
    var x1 := StartCheckStep(x, v, call);
    assert x1.checks - {call} == x.checks;
    ExecFirst(x, [StartCheck(v, call), FinishCheck(call)], StartCheck(v, call), [FinishCheck(call)]);
    ExecFirst(x1, [FinishCheck(call)], FinishCheck(call), []);
  }

  lemma FreeLockLeads(x: World, v: WorkerId, token: Token, call: CallId)
    requires x.lock == None && v !in x.workers && token !in x.issued && call !in x.upserts && call !in x.checks
    ensures Exec(x, LeadingRun(v, token, call))
         == Acquired(x, v, token).(begun := x.begun + [Record(v, token)])
  {
    var rest := [StartCheck(v, call), FinishCheck(call)];
    assert LeadingRun(v, token, call) == [Spawn(v), TryLock(v, token, call), CommitUpsert(call)] + rest;
    FreeLockIsAcquired(x, v, token, call, rest);
    AuthorBegins(Acquired(x, v, token), v, token, call);
  }

  /** After any run, when the worker with the lock crashes or loses it, a worker that starts then can acquire
      it, take the record over, and begin a batch under its own token. */
  lemma TakeoverIsPossible(steps: seq<Step>, w: WorkerId, v: WorkerId, token: Token, call: CallId)
    requires var x := Exec(Start, steps);
             && x.lock in {None, Some(w)} && v != w && v !in x.workers
             && token !in x.issued && call !in x.upserts && call !in x.checks
    ensures var x := Exec(Start, steps);
            var crashed := Exec(x, [Crash(w)] + LeadingRun(v, token, call));
            var lost := Exec(x, [LoseLock] + LeadingRun(v, token, call));
            && crashed.workers == (x.workers - {w})[v := Worker(true, Some(token))]
            && lost.workers == x.workers[v := Worker(true, Some(token))]
            && crashed.lock == lost.lock == Some(v) && crashed.record == lost.record == Some(Record(v, token))
            && crashed.begun == lost.begun == x.begun + [Record(v, token)]
  {
    var x := Exec(Start, steps);
    var run := LeadingRun(v, token, call);
    ExecFirst(x, [Crash(w)] + run, Crash(w), run);
    ExecFirst(x, [LoseLock] + run, LoseLock, run);
    FreeLockLeads(CrashStep(x, w), v, token, call);
    FreeLockLeads(x.(lock := None), v, token, call);
  }

  // ---------------------------------------------------------------------------------------------
  // Giving up
  // ---------------------------------------------------------------------------------------------

  const MAX_LEADER_RETRIES: nat := 60

  function Pow(b: real, n: nat): real {
    if n == 0 then 1.0 else b * Pow(b, n - 1)
  }

  /** The wait after the n-th failed attempt. */
  function BackoffMs(n: nat): real {
    var ms := 5000.0 * Pow(1.2, if n < 20 then n else 20);
    if ms < 30_000.0 then ms else 30_000.0
  }

  function WaitedMs(n: nat): real {
    if n == 0 then 0.0 else WaitedMs(n - 1) + BackoffMs(n)
  }

  lemma {:induction false} PowGrows(n: nat, m: nat)
    requires n <= m
    ensures 1.0 <= Pow(1.2, n) <= Pow(1.2, m)
  {
    if n < m {
      PowGrows(n, m - 1);
    } else if n > 0 {
      PowGrows(n - 1, m - 1);
    }
  }

  /** The powers of the first ten waits, between thousandths. */
  lemma PowersAre()
    ensures Pow(1.2, 1) == 1.2 && Pow(1.2, 2) == 1.44 && Pow(1.2, 3) == 1.728 && Pow(1.2, 4) == 2.0736
    ensures Pow(1.2, 5) == 2.48832 && Pow(1.2, 6) == 2.985984 && Pow(1.2, 7) == 3.5831808
    ensures Pow(1.2, 8) == 4.29981696 && Pow(1.2, 9) == 5.159780352 && Pow(1.2, 10) == 6.1917364224
  {
    assert Pow(1.2, 0) == 1.0;
    assert Pow(1.2, 1) == 1.2 * Pow(1.2, 0);
    assert Pow(1.2, 2) == 1.2 * Pow(1.2, 1);
    assert Pow(1.2, 3) == 1.2 * Pow(1.2, 2);
    assert Pow(1.2, 4) == 1.2 * Pow(1.2, 3);
    assert Pow(1.2, 5) == 1.2 * Pow(1.2, 4);
    assert Pow(1.2, 6) == 1.2 * Pow(1.2, 5);
    assert Pow(1.2, 7) == 1.2 * Pow(1.2, 6);
    assert Pow(1.2, 8) == 1.2 * Pow(1.2, 7);
    assert Pow(1.2, 9) == 1.2 * Pow(1.2, 8);
    assert Pow(1.2, 10) == 1.2 * Pow(1.2, 9);
  }

  lemma TenthBackoffIsFull(n: nat)
    requires n >= 10
    ensures BackoffMs(n) == 30_000.0
  {
    PowersAre();
    PowGrows(10, if n < 20 then n else 20);
  }

  /** The first nine waits take about two minutes. */
  lemma FirstWaits()
    ensures 124_000.0 < WaitedMs(9) < 125_000.0
  {
    PowersAre();
    assert WaitedMs(0) == 0.0;
    assert WaitedMs(1) == WaitedMs(0) + BackoffMs(1);
    assert WaitedMs(2) == WaitedMs(1) + BackoffMs(2);
    assert WaitedMs(3) == WaitedMs(2) + BackoffMs(3);
    assert WaitedMs(4) == WaitedMs(3) + BackoffMs(4);
    assert WaitedMs(5) == WaitedMs(4) + BackoffMs(5);
    assert WaitedMs(6) == WaitedMs(5) + BackoffMs(6);
    assert WaitedMs(7) == WaitedMs(6) + BackoffMs(7);
    assert WaitedMs(8) == WaitedMs(7) + BackoffMs(8);
    assert WaitedMs(9) == WaitedMs(8) + BackoffMs(9);
  }

  lemma {:induction false} LaterWaits(n: nat)
    requires n >= 9
    ensures WaitedMs(n) == WaitedMs(9) + (n - 9) as real * 30_000.0
  {
    if n > 9 {
      LaterWaits(n - 1);
      TenthBackoffIsFull(n);
    }
  }

  /** A worker that never gets the lock gives up after 27 minutes, not after five. */
  lemma GivingUpTakesLong()
    ensures 27.0 * 60_000.0 < WaitedMs(MAX_LEADER_RETRIES - 1) < 27.1 * 60_000.0
  {
    FirstWaits();
    LaterWaits(MAX_LEADER_RETRIES - 1);
  }
}
