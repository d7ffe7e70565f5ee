/**
 The cleanup job of one workspace: closing its sessions, releasing its gateway lease, deleting its
 VM, freeing its GPU and finishing the rows.  Attempts may overlap (the worker's tick is not guarded
 against re-entry) and may start from a stale listing; every write or call of an attempt may fail
 before or after taking effect, and the worker may crash between any two of them.
 */
module Teardown {
  import opened Wrappers
  import opened Metering

  type GpuId = nat

  datatype Vm = VmRunning | VmStopped | VmGone
  datatype GpuStatus = FREE | ALLOCATED
  datatype Gpu = Gpu(status: GpuStatus, owner: Option<WorkspaceId>)
  datatype Allocation = Allocation(gpu: GpuId, released: bool)
  datatype JobStatus = JobPending | JobRunning | JobRetry | JobFailed | JobDone
  datatype Job = Job(status: JobStatus, attemptCount: nat, maxAttempts: nat, nextAttemptAt: Option<int>)

  /** Where an attempt stands: the write or call it makes next. */
  datatype Pc =
    | ReadWorkspace | ListSessions | CloseSession | ReleasePorts | StopVm | DeleteVm
    | FreeGpu | ReleaseAllocation | ReleaseEndpoint | MarkTerminated | FinishJob | RecordError

  /** `started` is the attempt count the job row had when the attempt began; the rest is what it read. */
  datatype Attempt = Attempt(pc: Pc, started: nat, jitter: int, hasVm: bool, gpu: Option<GpuId>, todo: seq<Snapshot>)

  /** The rows, VM and gateway lease of the workspace; `otherRows` holds the GPUs that allocation rows of
      other workspaces name, released rows included. */
  datatype Site = Site(
    ws: WorkspaceId,
    present: bool,
    hasVm: bool,
    db: Db,
    endpointReleased: Option<bool>,
    gatewayHolds: bool,
    vm: Vm,
    gpus: map<GpuId, Gpu>,
    otherRows: set<GpuId>,
    allocation: Option<Allocation>,
    terminated: bool,
    job: Job,
    now: int)

  /** `picked` holds the ticks that have listed the job and not begun it yet.  `extra` is history: it
      counts crashes, re-enqueues, overlapping or stale starts, and error records that were lost. */
  datatype World = World(site: Site, picked: set<Pid>, attempts: map<Pid, Attempt>, extra: nat)

  datatype Step =
    | Tick(ms: nat)
    | Pick(pid: Pid)
    | Begin(pid: Pid)
    | Go(pid: Pid)
    | Fail(pid: Pid, effect: bool, jitter: int)
    | Crash(pid: Pid)
    | Enqueue
    | OtherCloses(id: SessionId)
    | OtherClaims(gpu: GpuId, other: WorkspaceId)

  // ---------------------------------------------------------------------------------------------
  // One attempt
  // ---------------------------------------------------------------------------------------------

  predicate Open(db: Db, ws: WorkspaceId, id: SessionId) {
    id in db.sessions && db.sessions[id].workspaceId == ws && db.sessions[id].status == RUNNING
  }

  predicate IsLeast(ids: set<SessionId>, id: SessionId) {
    id in ids && forall j | j in ids :: id <= j
  }

  lemma {:induction false} HasLeast(ids: set<SessionId>)
    requires ids != {}
    ensures exists id :: IsLeast(ids, id)
  {
    var k :| k in ids;
    if ids == {k} {
      assert IsLeast(ids, k);
    } else {
      HasLeast(ids - {k});
      var m :| IsLeast(ids - {k}, m);
      var least := if k <= m then k else m;
      forall j | j in ids ensures least <= j {
        assert j == k || j in ids - {k};
      }
      assert IsLeast(ids, least);
    }
  }

  function Least(ids: set<SessionId>): (id: SessionId)
    requires ids != {}
    ensures id in ids
  {
    HasLeast(ids);
    var id :| id in ids && IsLeast(ids, id); id
  }

  function Listed(db: Db, ids: set<SessionId>): seq<Snapshot>
    requires ids <= db.sessions.Keys
  {
    if ids == {} then [] else [SnapshotOf(db, Least(ids))] + Listed(db, ids - {Least(ids)})
  }

  /** `findMany` of the workspace's RUNNING sessions. */
  function OpenSessions(db: Db, ws: WorkspaceId): seq<Snapshot> {
    Listed(db, set id | id in db.sessions && Open(db, ws, id))
  }

  function AfterClose(db: Db, snap: Snapshot, endMs: int): Db {
    var r := CloseTx(db, snap, endMs);
    if r.Some? then r.value else db
  }

  function NoneOrReleased(e: Option<bool>): Option<bool> {
    if e.Some? then Some(true) else None
  }

  /** The delay before the next attempt: the table's, give or take a tenth. */
  function Delay(started: nat, jitter: int): (ms: int)
    ensures 9 * NextBackoff(started) <= 10 * ms <= 11 * NextBackoff(started)
    ensures 9 * NextBackoff(started) <= 10 * (NextBackoff(started) + jitter) <= 11 * NextBackoff(started) ==>
              ms == NextBackoff(started) + jitter
  {
    var base: int := NextBackoff(started);
    if -base <= 10 * jitter <= base then base + jitter else base
  }

  function ErrorRecorded(job: Job, started: nat, nowMs: int, jitter: int): Job {
    var exhausted := started >= job.maxAttempts;
    job.(status := if exhausted then JobFailed else JobRetry,
         nextAttemptAt := if exhausted then None else Some(nowMs + Delay(started, jitter)))
  }

  function JobFinished(job: Job): Job {
    job.(status := JobDone, nextAttemptAt := None)
  }

  /** A GPU whose row is gone is left out. */
  function WithoutOwner(gpus: map<GpuId, Gpu>, g: Option<GpuId>): map<GpuId, Gpu> {
    if g.Some? && g.value in gpus then gpus[g.value := Gpu(FREE, None)] else gpus
  }

  /** What the next write or call does. */
  function Effect(s: Site, a: Attempt): Site {
    match a.pc
    case ReadWorkspace => if s.present then s else s.(job := JobFinished(s.job))
    case ListSessions => s
    case CloseSession => if a.todo == [] then s else s.(db := AfterClose(s.db, a.todo[0], s.now))
    case ReleasePorts => s.(gatewayHolds := false, endpointReleased := NoneOrReleased(s.endpointReleased))
    case StopVm => if a.hasVm && s.vm == VmRunning then s.(vm := VmStopped) else s
    case DeleteVm => if a.hasVm then s.(vm := VmGone) else s
    case FreeGpu => s.(gpus := WithoutOwner(s.gpus, a.gpu))
    case ReleaseAllocation =>
      if a.gpu.Some? && s.allocation.Some? then s.(allocation := Some(s.allocation.value.(released := true))) else s
    case ReleaseEndpoint => s.(endpointReleased := NoneOrReleased(s.endpointReleased))
    case MarkTerminated => s.(terminated := true)
    case FinishJob => s.(job := JobFinished(s.job))
    case RecordError => s.(job := ErrorRecorded(s.job, a.started, s.now, a.jitter))
  }

  function GpuOf(s: Site): Option<GpuId> {
    if s.allocation.Some? then Some(s.allocation.value.gpu) else None
  }

  function AfterVm(a: Attempt): Pc {
    if a.gpu.Some? then FreeGpu else ReleaseEndpoint
  }

  /** Where the attempt goes when that succeeded; `None` is its return. */
  function Next(s: Site, a: Attempt): Option<Attempt> {
    match a.pc
    case ReadWorkspace => if s.present then Some(Attempt(ListSessions, a.started, 0, s.hasVm, GpuOf(s), [])) else None
    case ListSessions => Some(a.(pc := CloseSession, todo := OpenSessions(s.db, s.ws)))
    case CloseSession => Some(if a.todo == [] then a.(pc := ReleasePorts) else a.(todo := a.todo[1..]))
    case ReleasePorts => Some(a.(pc := if a.hasVm then StopVm else AfterVm(a)))
    case StopVm => Some(a.(pc := DeleteVm))
    case DeleteVm => Some(a.(pc := AfterVm(a)))
    case FreeGpu => Some(a.(pc := ReleaseAllocation))
    case ReleaseAllocation => Some(a.(pc := ReleaseEndpoint))
    case ReleaseEndpoint => Some(a.(pc := MarkTerminated))
    case MarkTerminated => Some(a.(pc := FinishJob))
    case FinishJob => None
    case RecordError => None
  }

  /** An error ends in the catch block, except that a failing stop is ignored and a failing catch
      block leaves the job as it is. */
  function OnError(a: Attempt, jitter: int): Option<Attempt> {
    match a.pc
    case StopVm => Some(a.(pc := DeleteVm))
    case RecordError => None
    case _ => Some(a.(pc := RecordError, jitter := jitter))
  }

  function Put(w: World, s: Site, pid: Pid, a: Option<Attempt>): World {
    w.(site := s, attempts := if a.Some? then w.attempts[pid := a.value] else w.attempts - {pid})
  }

  function GoStep(w: World, pid: Pid): World {
    if pid !in w.attempts then w else Put(w, Effect(w.site, w.attempts[pid]), pid, Next(w.site, w.attempts[pid]))
  }

  function FailStep(w: World, pid: Pid, effect: bool, jitter: int): World {
    if pid !in w.attempts then w
    else
      var a := w.attempts[pid];
      var lost := a.pc == RecordError && !effect;
      var s := if effect then Effect(w.site, a) else w.site;
      Put(w.(extra := if lost then w.extra + 1 else w.extra), s, pid, OnError(a, jitter))
  }

  predicate Startable(job: Job) {
    job.status in {JobPending, JobRunning, JobRetry}
  }

  /** The listing of `processWorkspaceCleanupJobs`. */
  predicate CanPick(w: World, pid: Pid) {
    && pid !in w.picked && pid !in w.attempts
    && Startable(w.site.job)
    && (w.site.job.nextAttemptAt.None? || w.site.job.nextAttemptAt.value <= w.site.now)
  }

  function Started(job: Job): Job {
    job.(status := JobRunning, attemptCount := job.attemptCount + 1)
  }

  function FirstPlace(started: nat): Attempt {
    Attempt(ReadWorkspace, started, 0, false, None, [])
  }

  function BeginStep(w: World, pid: Pid): World {
    if pid !in w.picked then w
    else
      var job := Started(w.site.job);
      World.World(w.site.(job := job), w.picked - {pid},
            w.attempts[pid := FirstPlace(job.attemptCount)],
            if w.attempts == map[] && Startable(w.site.job) then w.extra else w.extra + 1)
  }

  function CrashStep(w: World, pid: Pid): World {
    w.(picked := w.picked - {pid}, attempts := w.attempts - {pid},
       extra := if pid in w.attempts then w.extra + 1 else w.extra)
  }

  function EnqueueStep(w: World): World {
    w.(site := w.site.(job := w.site.job.(status := JobPending, nextAttemptAt := Some(w.site.now))),
       extra := w.extra + 1)
  }

  function OtherClosesStep(w: World, id: SessionId): World {
    if id in w.site.db.sessions
      then w.(site := w.site.(db := AfterClose(w.site.db, SnapshotOf(w.site.db, id), w.site.now))) else w
  }

  predicate IsOwn(s: Site, g: GpuId) {
    s.allocation.Some? && s.allocation.value.gpu == g
  }

  /** Another workspace's claiming transaction: the GPU is FREE, and no allocation row names it, released
      or not, for the insert would violate the unique column and undo the update. */
  predicate CanBeClaimed(s: Site, g: GpuId, other: WorkspaceId) {
    g in s.gpus && s.gpus[g].status == FREE && g !in s.otherRows && !IsOwn(s, g) && other != s.ws
  }

  function OtherClaimsStep(w: World, g: GpuId, other: WorkspaceId): World {
    if !CanBeClaimed(w.site, g, other) then w
    else w.(site := w.site.(gpus := w.site.gpus[g := Gpu(ALLOCATED, Some(other))], otherRows := w.site.otherRows + {g}))
  }

  ghost function Apply(w: World, step: Step): World {
    match step
    case Tick(ms) => w.(site := w.site.(now := w.site.now + ms))
    case Pick(pid) => if CanPick(w, pid) then w.(picked := w.picked + {pid}) else w
    case Begin(pid) => BeginStep(w, pid)
    case Go(pid) => GoStep(w, pid)
    case Fail(pid, effect, jitter) => FailStep(w, pid, effect, jitter)
    case Crash(pid) => CrashStep(w, pid)
    case Enqueue => EnqueueStep(w)
    case OtherCloses(id) => OtherClosesStep(w, id)
    case OtherClaims(g, other) => OtherClaimsStep(w, g, other)
  }

  ghost function Exec(w: World, steps: seq<Step>): World
    decreases |steps|
  {
    if steps == [] then w else Exec(Apply(w, steps[0]), steps[1..])
  }

  // ---------------------------------------------------------------------------------------------
  // What an attempt has achieved
  // ---------------------------------------------------------------------------------------------

  function Rank(pc: Pc): nat {
    match pc
    case ReadWorkspace => 0
    case ListSessions => 1
    case CloseSession => 2
    case ReleasePorts => 3
    case StopVm => 4
    case DeleteVm => 5
    case FreeGpu => 6
    case ReleaseAllocation => 7
    case ReleaseEndpoint => 8
    case MarkTerminated => 9
    case FinishJob => 10
    case RecordError => 11
  }

  ghost predicate SessionsClosed(s: Site) {
    forall id :: !Open(s.db, s.ws, id)
  }

  predicate LeaseReleased(s: Site) {
    !s.gatewayHolds && s.endpointReleased != Some(false)
  }

  predicate VmDeleted(s: Site) {
    s.hasVm ==> s.vm == VmGone
  }

  predicate GpuFreed(s: Site) {
    s.allocation.Some? && s.allocation.value.gpu in s.gpus ==> s.gpus[s.allocation.value.gpu] == Gpu(FREE, None)
  }

  predicate AllocationReleased(s: Site) {
    s.allocation.Some? ==> s.allocation.value.released
  }

  /** Everything the job is for. */
  ghost predicate TornDown(s: Site) {
    SessionsClosed(s) && LeaseReleased(s) && VmDeleted(s) && GpuFreed(s) && AllocationReleased(s) && s.terminated
  }

  /** The effects that precede an attempt's place hold, whoever brought them about. */
  ghost predicate Achieved(s: Site, rank: nat) {
    && (rank >= 3 ==> SessionsClosed(s))
    && (rank >= 4 ==> LeaseReleased(s))
    && (rank >= 6 ==> VmDeleted(s))
    && (rank >= 7 ==> GpuFreed(s))
    && (rank >= 8 ==> AllocationReleased(s))
    && (rank >= 10 ==> s.terminated)
  }

  ghost predicate AttemptOk(s: Site, a: Attempt) {
    a.pc != RecordError ==>
      && Achieved(s, Rank(a.pc))
      && (a.pc != ReadWorkspace ==> s.present && a.hasVm == s.hasVm && a.gpu == GpuOf(s))
      && (a.pc == CloseSession ==>
            && (forall snap | snap in a.todo :: snap.id in s.db.sessions && snap == SnapshotOf(s.db, snap.id)
                                                && s.db.sessions[snap.id].workspaceId == s.ws)
            && (forall id | Open(s.db, s.ws, id) :: SnapshotOf(s.db, id) in a.todo))
  }

  ghost predicate Inv(w: World) {
    && RowsMatch(w.site.db) && OneRunningEach(w.site.db)
    && forall pid | pid in w.attempts :: AttemptOk(w.site, w.attempts[pid])
  }

  /** Nothing a run does to the tables touches another workspace's sessions. */
  ghost predicate DbAdvances(ws: WorkspaceId, a: Db, b: Db) {
    && RowsMatch(b) && OneRunningEach(b) && DbSettled(a, b)
    && b.sessions.Keys == a.sessions.Keys
  }

  /** The facts of a workspace that no step changes, and the effects that no step undoes. */
  ghost predicate Advances(a: Site, b: Site) {
    && b.ws == a.ws && b.present == a.present && b.hasVm == a.hasVm
    && DbAdvances(a.ws, a.db, b.db)
    && b.gpus.Keys == a.gpus.Keys && GpuOf(b) == GpuOf(a)
    && (AllocationReleased(a) ==> AllocationReleased(b))
    && (GpuFreed(a) ==> GpuFreed(b))
    && (b.endpointReleased.Some? <==> a.endpointReleased.Some?)
    && (LeaseReleased(a) ==> LeaseReleased(b))
    && (a.vm == VmGone ==> b.vm == VmGone) && (!a.hasVm ==> b.vm == a.vm)
    && (a.terminated ==> b.terminated)
    && b.job.maxAttempts == a.job.maxAttempts
  }

  lemma AdvancesTransitive(a: Site, b: Site, c: Site)
    requires Advances(a, b) && Advances(b, c)
    ensures Advances(a, c)
  {
  }

  lemma {:induction false} ListedAll(db: Db, ids: set<SessionId>)
    requires ids <= db.sessions.Keys
    ensures forall snap | snap in Listed(db, ids) :: snap.id in ids && snap == SnapshotOf(db, snap.id)
    ensures forall id | id in ids :: SnapshotOf(db, id) in Listed(db, ids)
  {
    if ids != {} {
      ListedAll(db, ids - {Least(ids)});
      forall id | id in ids ensures SnapshotOf(db, id) in Listed(db, ids) {
        if id == Least(ids) { assert Listed(db, ids)[0] == SnapshotOf(db, id); }
      }
    }
  }

  lemma AttemptSurvives(s: Site, s': Site, a: Attempt)
    requires AttemptOk(s, a) && Advances(s, s')
    ensures AttemptOk(s', a)
  {
    forall id | Open(s'.db, s.ws, id) ensures Open(s.db, s.ws, id) && SnapshotOf(s'.db, id) == SnapshotOf(s.db, id) {
    }
  }

  ghost predicate Keeps(w: World, w': World) {
    Inv(w') && Advances(w.site, w'.site)
  }

  /** A step that advances the site and leaves attempt `pid` in order leaves all attempts in order. */
  lemma AttemptsSurvive(w: World, w': World, pid: Pid)
    requires Inv(w) && Advances(w.site, w'.site)
    requires forall q | q in w'.attempts && q != pid :: q in w.attempts && w'.attempts[q] == w.attempts[q]
    requires pid in w'.attempts ==> AttemptOk(w'.site, w'.attempts[pid])
    ensures Keeps(w, w')
  {
    forall q | q in w'.attempts ensures AttemptOk(w'.site, w'.attempts[q]) {
      if q != pid { AttemptSurvives(w.site, w'.site, w.attempts[q]); }
    }
  }

  lemma AllAttemptsSurvive(w: World, w': World)
    requires Inv(w) && Advances(w.site, w'.site)
    requires forall q | q in w'.attempts :: q in w.attempts && w'.attempts[q] == w.attempts[q]
    ensures Keeps(w, w')
  {
    forall q | q in w'.attempts ensures AttemptOk(w'.site, w'.attempts[q]) {
      AttemptSurvives(w.site, w'.site, w.attempts[q]);
    }
  }

  lemma CloseDbAdvances(ws: WorkspaceId, db: Db, id: SessionId, endMs: int)
    requires RowsMatch(db) && OneRunningEach(db) && id in db.sessions
    ensures var db' := AfterClose(db, SnapshotOf(db, id), endMs);
            DbAdvances(ws, db, db') && db'.sessions[id].status == ENDED
    ensures forall i :: Open(AfterClose(db, SnapshotOf(db, id), endMs), ws, i) ==> Open(db, ws, i)
  {
    CloseTxKeeps(db, id, endMs);
  }

  lemma CloseAdvances(s: Site, id: SessionId)
    requires RowsMatch(s.db) && OneRunningEach(s.db) && id in s.db.sessions
    ensures Advances(s, s.(db := AfterClose(s.db, SnapshotOf(s.db, id), s.now)))
  {
    CloseDbAdvances(s.ws, s.db, id, s.now);
  }

  lemma EffectAdvances(s: Site, a: Attempt)
    requires RowsMatch(s.db) && OneRunningEach(s.db) && AttemptOk(s, a)
    ensures Advances(s, Effect(s, a))
  {
    if a.pc == CloseSession && a.todo != [] {
      assert a.todo[0] in a.todo;
      CloseAdvances(s, a.todo[0].id);
    }
  }

  lemma CloseLoopKeeps(s: Site, a: Attempt)
    requires RowsMatch(s.db) && OneRunningEach(s.db) && AttemptOk(s, a) && a.pc == CloseSession && a.todo != []
    ensures AttemptOk(Effect(s, a), a.(todo := a.todo[1..]))
  {
    var s' := Effect(s, a);
    assert a.todo[0] in a.todo && a.todo == [a.todo[0]] + a.todo[1..];
    CloseDbAdvances(s.ws, s.db, a.todo[0].id, s.now);
    CloseAdvances(s, a.todo[0].id);
    AttemptSurvives(s, s', a);
  }

  lemma ListingIsOk(s: Site, a: Attempt)
    requires AttemptOk(s, a) && a.pc == ListSessions
    ensures AttemptOk(s, a.(pc := CloseSession, todo := OpenSessions(s.db, s.ws)))
  {
    ListedAll(s.db, set id | id in s.db.sessions && Open(s.db, s.ws, id));
  }

  lemma EffectIsAchieved(s: Site, a: Attempt)
    requires AttemptOk(s, a) && Rank(a.pc) in {3, 4, 5, 6, 7, 8, 9}
    ensures Achieved(Effect(s, a), Rank(Next(s, a).value.pc))
  {
    assert Effect(s, a).db == s.db;
  }

  /** What an attempt did is achieved at its next place. */
  lemma NextIsOk(s: Site, a: Attempt)
    requires RowsMatch(s.db) && OneRunningEach(s.db) && AttemptOk(s, a)
    ensures Next(s, a).Some? ==> AttemptOk(Effect(s, a), Next(s, a).value)
  {
    match a.pc
    case ListSessions => ListingIsOk(s, a);
    case CloseSession => if a.todo != [] { CloseLoopKeeps(s, a); }
    case ReadWorkspace =>
    case FinishJob =>
    case RecordError =>
    case _ => EffectIsAchieved(s, a);
  }

  lemma GoKeeps(w: World, pid: Pid)
    requires Inv(w)
    ensures Keeps(w, GoStep(w, pid))
  {
    if pid in w.attempts {
      EffectAdvances(w.site, w.attempts[pid]);
      NextIsOk(w.site, w.attempts[pid]);
      AttemptsSurvive(w, GoStep(w, pid), pid);
    } else {
      AllAttemptsSurvive(w, w);
    }
  }

  lemma OnErrorIsOk(s: Site, a: Attempt, jitter: int)
    requires AttemptOk(s, a)
    ensures OnError(a, jitter).Some? ==> AttemptOk(s, OnError(a, jitter).value)
  {
  }

  lemma AdvancesReflexive(s: Site)
    requires RowsMatch(s.db) && OneRunningEach(s.db)
    ensures Advances(s, s)
  {
  }

  lemma FailKeeps(w: World, pid: Pid, effect: bool, jitter: int)
    requires Inv(w)
    ensures Keeps(w, FailStep(w, pid, effect, jitter))
  {
    if pid in w.attempts {
      var a := w.attempts[pid];
      var s := if effect then Effect(w.site, a) else w.site;
      if effect { EffectAdvances(w.site, a); } else { AdvancesReflexive(w.site); }
      AttemptSurvives(w.site, s, a);
      OnErrorIsOk(s, a, jitter);
      AttemptsSurvive(w, FailStep(w, pid, effect, jitter), pid);
    } else {
      AllAttemptsSurvive(w, w);
    }
  }

  lemma BeginKeeps(w: World, pid: Pid)
    requires Inv(w)
    ensures Keeps(w, BeginStep(w, pid))
  {
    AttemptsSurvive(w, BeginStep(w, pid), pid);
  }

  lemma OtherClosesKeeps(w: World, id: SessionId)
    requires Inv(w)
    ensures Keeps(w, OtherClosesStep(w, id))
  {
    if id in w.site.db.sessions { CloseAdvances(w.site, id); }
    AllAttemptsSurvive(w, OtherClosesStep(w, id));
  }

  /** The steps of the clock and the job table. */
  lemma OutsideKeeps(w: World, step: Step)
    requires Inv(w) && (step.Tick? || step.Pick? || step.Crash? || step.Enqueue?)
    ensures Keeps(w, Apply(w, step))
  {
    AllAttemptsSurvive(w, Apply(w, step));
  }

  lemma OtherClaimsKeeps(w: World, g: GpuId, other: WorkspaceId)
    requires Inv(w)
    ensures Keeps(w, OtherClaimsStep(w, g, other))
  {
    AllAttemptsSurvive(w, OtherClaimsStep(w, g, other));
  }

  lemma StepKeeps(w: World, step: Step)
    requires Inv(w)
    ensures Keeps(w, Apply(w, step))
  {
    match step
    case Begin(pid) => BeginKeeps(w, pid);
    case Go(pid) => GoKeeps(w, pid);
    case Fail(pid, effect, jitter) => FailKeeps(w, pid, effect, jitter);
    case OtherCloses(id) => OtherClosesKeeps(w, id);
    case OtherClaims(g, other) => OtherClaimsKeeps(w, g, other);
    case _ => OutsideKeeps(w, step);
  }

  lemma {:induction false} ExecKeeps(w: World, steps: seq<Step>)
    requires Inv(w)
    ensures Keeps(w, Exec(w, steps))
    decreases |steps|
  {
    if steps == [] {
    } else {
      StepKeeps(w, steps[0]);
      ExecKeeps(Apply(w, steps[0]), steps[1..]);
      AdvancesTransitive(w.site, Apply(w, steps[0]).site, Exec(w, steps).site);
    }
  }

  // ---------------------------------------------------------------------------------------------
  // Attempts run to their end
  // ---------------------------------------------------------------------------------------------

  /** How one write or call of an attempt turns out. */
  datatype Outcome = Success | Failure(effect: bool, jitter: int)

  function StepOf(pid: Pid, o: Outcome): Step {
    if o.Success? then Go(pid) else Fail(pid, o.effect, o.jitter)
  }

  function Left(w: World, pid: Pid): nat {
    if pid in w.attempts then 12 - Rank(w.attempts[pid].pc) else 0
  }

  /** An attempt taken to its return with nothing else happening. */
  ghost function Run(w: World, pid: Pid, outcomes: nat -> Outcome, n: nat): World
    decreases Left(w, pid), if pid in w.attempts then |w.attempts[pid].todo| else 0
  {
    if pid in w.attempts then Run(Apply(w, StepOf(pid, outcomes(n))), pid, outcomes, n + 1) else w
  }

  ghost predicate NoFailures(outcomes: nat -> Outcome, n: nat) {
    forall k: nat | n <= k :: outcomes(k).Success?
  }

  /** One more step of an attempt that succeeds. */
  lemma RunUnfolds(w: World, pid: Pid, outcomes: nat -> Outcome, n: nat)
    requires pid in w.attempts && outcomes(n).Success?
    ensures Run(w, pid, outcomes, n) == Run(GoStep(w, pid), pid, outcomes, n + 1)
    ensures GoStep(w, pid).attempts - {pid} == w.attempts - {pid}
  {
    assert Apply(w, StepOf(pid, outcomes(n))) == GoStep(w, pid);
  }

  lemma GoProgresses(w: World, pid: Pid)
    requires pid in w.attempts
    ensures var w1 := GoStep(w, pid);
            pid in w1.attempts ==>
              && w1.attempts[pid].pc != ReadWorkspace && w1.attempts[pid].pc != RecordError
              && (Left(w1, pid) < Left(w, pid)
                  || (Left(w1, pid) == Left(w, pid) && |w1.attempts[pid].todo| < |w.attempts[pid].todo|))
  {
  }

  /** The last write of an attempt. */
  lemma FinishTearsDown(w: World, pid: Pid)
    requires Inv(w) && pid in w.attempts && w.attempts[pid].pc == FinishJob
    ensures var w' := GoStep(w, pid);
            TornDown(w'.site) && w'.site.job.status == JobDone && w'.site.job.nextAttemptAt.None? && pid !in w'.attempts
  {
    assert AttemptOk(w.site, w.attempts[pid]);
  }

  /** From wherever an attempt stands and whatever others have done, it ends with everything torn
      down and the job DONE. */
  lemma {:induction false} RunTearsDown(w: World, pid: Pid, outcomes: nat -> Outcome, n: nat)
    requires Inv(w) && w.site.present && NoFailures(outcomes, n)
    requires pid in w.attempts && w.attempts[pid].pc != RecordError
    ensures var w' := Run(w, pid, outcomes, n);
            && TornDown(w'.site) && w'.site.job.status == JobDone && w'.site.job.nextAttemptAt.None?
            && w'.attempts == w.attempts - {pid} && Keeps(w, w')
    decreases Left(w, pid), |w.attempts[pid].todo|
  {
    var w1 := GoStep(w, pid);
    GoKeeps(w, pid);
    RunUnfolds(w, pid, outcomes, n);
    GoProgresses(w, pid);
    if w.attempts[pid].pc == FinishJob {
      FinishTearsDown(w, pid);
    } else {
      RunTearsDown(w1, pid, outcomes, n + 1);
      AdvancesTransitive(w.site, w1.site, Run(w, pid, outcomes, n).site);
    }
  }

  /** What a workspace's rows, VM and lease look like, leaving times and amounts aside. */
  datatype Shape = Shape(
    open: set<SessionId>, ended: set<SessionId>, metered: set<SessionId>,
    endpointReleased: Option<bool>, gatewayHolds: bool, vm: Vm, gpu: Option<Gpu>,
    allocation: Option<Allocation>, terminated: bool, jobStatus: JobStatus)

  function OwnGpu(s: Site): Option<Gpu> {
    if s.allocation.Some? && s.allocation.value.gpu in s.gpus then Some(s.gpus[s.allocation.value.gpu]) else None
  }

  ghost function OwnSessions(s: Site): set<SessionId> {
    set id | id in s.db.sessions && s.db.sessions[id].workspaceId == s.ws
  }

  ghost function ShapeOf(s: Site): Shape {
    var own := OwnSessions(s);
    Shape(set id | id in own && s.db.sessions[id].status == RUNNING :: id,
          set id | id in own && s.db.sessions[id].status == ENDED :: id,
          own * s.db.outbox.Keys,
          s.endpointReleased, s.gatewayHolds, s.vm, OwnGpu(s), s.allocation, s.terminated, s.job.status)
  }

  /** Every torn-down site looks like this, by what it was at the beginning alone. */
  ghost function FinalShape(s: Site): Shape {
    var own := OwnSessions(s);
    Shape({}, own, own, NoneOrReleased(s.endpointReleased), false, if s.hasVm then VmGone else s.vm,
          if OwnGpu(s).Some? then Some(Gpu(FREE, None)) else None,
          if s.allocation.Some? then Some(Allocation(s.allocation.value.gpu, true)) else None, true, JobDone)
  }

  lemma TornDownShape(s0: Site, s: Site)
    requires Advances(s0, s) && TornDown(s) && s.job.status == JobDone
    ensures ShapeOf(s) == FinalShape(s0)
  {
    var own := OwnSessions(s0);
    assert OwnSessions(s) == own;
    forall id | id in own ensures s.db.sessions[id].status == ENDED && id in s.db.outbox {
      assert !Open(s.db, s.ws, id);
    }
    assert ShapeOf(s).open == {};
    assert ShapeOf(s).ended == own && ShapeOf(s).metered == own;
    assert s.allocation.Some? ==> s.allocation == Some(Allocation(s.allocation.value.gpu, true));
    if s.endpointReleased.Some? {
      assert s.endpointReleased == Some(s.endpointReleased.value) != Some(false);
      assert s.endpointReleased.value;
    }
    assert s.endpointReleased == NoneOrReleased(s0.endpointReleased);
  }

  /** Crash-resumability.  Whatever ran before (attempts that crashed or failed anywhere, overlapped or
      were re-enqueued, other workspaces' claims and closes), a later undisturbed attempt leaves what a
      single undisturbed attempt from the beginning leaves. */
  lemma ResumedEqualsUninterrupted(w0: World, steps: seq<Step>, pid: Pid, pid0: Pid, outcomes: nat -> Outcome)
    requires Inv(w0) && w0.site.present && NoFailures(outcomes, 0)
    requires pid0 in w0.picked && pid in Exec(w0, steps).picked
    ensures var resumed := Run(BeginStep(Exec(w0, steps), pid), pid, outcomes, 0);
            var uninterrupted := Run(BeginStep(w0, pid0), pid0, outcomes, 0);
            TornDown(resumed.site) && ShapeOf(resumed.site) == ShapeOf(uninterrupted.site)
  {
    ExecKeeps(w0, steps);
    StartedRunShape(w0, Exec(w0, steps), pid, outcomes);
    ExecKeeps(w0, []);
    StartedRunShape(w0, w0, pid0, outcomes);
  }

  lemma StartedRunShape(w0: World, w: World, pid: Pid, outcomes: nat -> Outcome)
    requires Inv(w) && Advances(w0.site, w.site) && w.site.present && pid in w.picked && NoFailures(outcomes, 0)
    ensures var w' := Run(BeginStep(w, pid), pid, outcomes, 0);
            TornDown(w'.site) && ShapeOf(w'.site) == FinalShape(w0.site)
  {
    BeginKeeps(w, pid);
    RunTearsDown(BeginStep(w, pid), pid, outcomes, 0);
    var w' := Run(BeginStep(w, pid), pid, outcomes, 0);
    AdvancesTransitive(w0.site, w.site, BeginStep(w, pid).site);
    AdvancesTransitive(w0.site, BeginStep(w, pid).site, w'.site);
    TornDownShape(w0.site, w'.site);
  }

  // What DONE means.

  /** A job is DONE only when everything is torn down, or when there is no workspace. */
  ghost predicate DoneIsTrue(s: Site) {
    s.job.status == JobDone && s.present ==> TornDown(s)
  }

  lemma TornDownStays(s: Site, s': Site)
    requires Advances(s, s') && TornDown(s)
    ensures TornDown(s')
  {
    forall id ensures !Open(s'.db, s'.ws, id) { assert !Open(s.db, s.ws, id); }
  }

  /** No other write finishes the job of a workspace that is there. */
  lemma OthersFinishNothing(s: Site, a: Attempt)
    requires s.present && a.pc != FinishJob
    ensures Effect(s, a).job.status == JobDone ==> s.job.status == JobDone
  {
    if a.pc in {ListSessions, CloseSession, ReleasePorts, StopVm, DeleteVm} {
      CallsLeaveJob(s, a);
    } else if a.pc in {FreeGpu, ReleaseAllocation, ReleaseEndpoint, MarkTerminated} {
      RowsLeaveJob(s, a);
    }
  }

  lemma FinishingIsDue(s: Site, a: Attempt)
    requires AttemptOk(s, a) && a.pc == FinishJob
    ensures TornDown(s)
  {
  }

  lemma EffectKeepsDone(s: Site, a: Attempt)
    requires RowsMatch(s.db) && OneRunningEach(s.db) && AttemptOk(s, a) && DoneIsTrue(s)
    ensures DoneIsTrue(Effect(s, a))
  {
    if s.present && Effect(s, a).job.status == JobDone {
      if a.pc == FinishJob { FinishingIsDue(s, a); } else { OthersFinishNothing(s, a); }
      EffectAdvances(s, a);
      TornDownStays(s, Effect(s, a));
    } else {
      EffectAdvances(s, a);
    }
  }

  lemma StepKeepsDone(w: World, step: Step)
    requires Inv(w) && DoneIsTrue(w.site)
    ensures DoneIsTrue(Apply(w, step).site)
  {
    if (step.Go? || step.Fail?) && step.pid in w.attempts {
      EffectKeepsDone(w.site, w.attempts[step.pid]);
    } else {
      StepKeeps(w, step);
      if TornDown(w.site) { TornDownStays(w.site, Apply(w, step).site); }
    }
  }

  /** Over all runs, with attempts that crash, fail, overlap or start late, a job is DONE only when the
      sessions are ENDED, the lease released, the VM gone, the GPU FREE and the workspace TERMINATED. */
  lemma {:induction false} DoneMeansTornDown(w: World, steps: seq<Step>)
    requires Inv(w) && DoneIsTrue(w.site)
    ensures DoneIsTrue(Exec(w, steps).site)
    decreases |steps|
  {
    if steps != [] {
      StepKeepsDone(w, steps[0]);
      StepKeeps(w, steps[0]);
      DoneMeansTornDown(Apply(w, steps[0]), steps[1..]);
    }
  }

  // Attempts can always be made.

  predicate Unfinished(job: Job) {
    job.status != JobDone && job.status != JobFailed
  }

  predicate NewTo(w: World, pid: Pid) {
    pid !in w.picked && pid !in w.attempts
  }

  /** The time until the job is due. */
  function WaitOf(s: Site): (ms: nat)
    ensures s.job.nextAttemptAt.Some? && s.now < s.job.nextAttemptAt.value ==> s.now + ms == s.job.nextAttemptAt.value
    ensures s.job.nextAttemptAt.None? || s.job.nextAttemptAt.value <= s.now ==> ms == 0
  {
    if s.job.nextAttemptAt.Some? && s.now < s.job.nextAttemptAt.value then s.job.nextAttemptAt.value - s.now else 0
  }

  /** A tick lists the job exactly when it is neither DONE nor FAILED and its time has come: a failed
      attempt, a crash or a re-enqueue leaves it listed again. */
  lemma PickedIff(w: World, pid: Pid)
    requires NewTo(w, pid)
    ensures Apply(w, Pick(pid))
         == if w.site.job.status != JobDone && w.site.job.status != JobFailed
               && (w.site.job.nextAttemptAt == None || w.site.job.nextAttemptAt.value <= w.site.now)
            then w.(picked := w.picked + {pid}) else w
  {
  }

  /** A re-enqueued job, whatever became of it, is listed at once. */
  lemma EnqueuedIsPicked(w: World, pid: Pid)
    requires NewTo(w, pid)
    ensures var w' := Apply(Apply(w, Enqueue), Pick(pid));
            && w'.picked == w.picked + {pid} && w'.attempts == w.attempts
            && w'.site == w.site.(job := Job(JobPending, w.site.job.attemptCount, w.site.job.maxAttempts,
                                             Some(w.site.now)))
  {
  }

  /** A tick late enough that lists the job, and its attempt begins. */
  ghost function Resumed(w: World, pid: Pid): World {
    Exec(w, [Step.Tick(WaitOf(w.site)), Pick(pid), Begin(pid)])
  }

  lemma ResumedBegins(w: World, pid: Pid)
    requires Inv(w) && NewTo(w, pid) && Unfinished(w.site.job)
    ensures var w' := Resumed(w, pid);
            && Keeps(w, w') && pid in w'.attempts
            && w'.attempts[pid] == Attempt(ReadWorkspace, w.site.job.attemptCount + 1, 0, false, None, [])
            && w'.site.job.status == JobRunning && w'.site.job.attemptCount == w.site.job.attemptCount + 1
  {
    var steps := [Step.Tick(WaitOf(w.site)), Pick(pid), Begin(pid)];
    ExecKeeps(w, steps);
    var w1 := Apply(w, Step.Tick(WaitOf(w.site)));
    PickedIff(w1, pid);
    var w2 := w1.(picked := w1.picked + {pid});
    assert steps[1..] == [Pick(pid), Begin(pid)] && [Pick(pid), Begin(pid)][1..] == [Begin(pid)];
    assert Exec(w1, [Pick(pid), Begin(pid)]) == Exec(w2, [Begin(pid)]);
    assert Exec(w2, [Begin(pid)]) == Exec(BeginStep(w2, pid), [Begin(pid)][1..]) == BeginStep(w2, pid);
  }

  /** No run gets a teardown stuck.  After any steps whatever, a job that is neither DONE nor FAILED has a
      later tick whose attempt, left undisturbed, tears everything down and leaves what the first attempt
      would have left, had it run undisturbed. */
  lemma EveryTeardownCanComplete(w0: World, steps: seq<Step>, pid: Pid, pid0: Pid, outcomes: nat -> Outcome)
    requires Inv(w0) && w0.site.present && NoFailures(outcomes, 0)
    requires NewTo(w0, pid0) && Unfinished(w0.site.job)
    requires NewTo(Exec(w0, steps), pid) && Unfinished(Exec(w0, steps).site.job)
    ensures var completed := Run(Resumed(Exec(w0, steps), pid), pid, outcomes, 0).site;
            var uninterrupted := Run(Resumed(w0, pid0), pid0, outcomes, 0).site;
            TornDown(completed) && completed.job.status == JobDone && ShapeOf(completed) == ShapeOf(uninterrupted)
  {
    ExecKeeps(w0, steps);
    ResumedRunShape(w0, Exec(w0, steps), pid, outcomes);
    ExecKeeps(w0, []);
    ResumedRunShape(w0, w0, pid0, outcomes);
  }

  lemma ResumedRunShape(w0: World, w: World, pid: Pid, outcomes: nat -> Outcome)
    requires Inv(w) && Advances(w0.site, w.site) && w.site.present && NoFailures(outcomes, 0)
    requires NewTo(w, pid) && Unfinished(w.site.job)
    ensures var s := Run(Resumed(w, pid), pid, outcomes, 0).site;
            TornDown(s) && s.job.status == JobDone && ShapeOf(s) == FinalShape(w0.site)
  {
    ResumedBegins(w, pid);
    var w1 := Resumed(w, pid);
    RunTearsDown(w1, pid, outcomes, 0);
    var w2 := Run(w1, pid, outcomes, 0);
    AdvancesTransitive(w0.site, w.site, w1.site);
    AdvancesTransitive(w0.site, w1.site, w2.site);
    TornDownShape(w0.site, w2.site);
  }

  /** A job whose workspace row is gone is DONE at once and touches nothing else. */
  lemma AbsentWorkspace(w: World, pid: Pid, outcomes: nat -> Outcome)
    requires !w.site.present && pid in w.attempts && w.attempts[pid].pc == ReadWorkspace && outcomes(0).Success?
    ensures Run(w, pid, outcomes, 0)
            == w.(site := w.site.(job := JobFinished(w.site.job)), attempts := w.attempts - {pid})
  {
    assert Run(GoStep(w, pid), pid, outcomes, 1) == GoStep(w, pid);
  }

  // ---------------------------------------------------------------------------------------------
  // The attempt budget
  // ---------------------------------------------------------------------------------------------

  ghost predicate WithinBudget(w: World) {
    var job := w.site.job;
    && job.attemptCount <= job.maxAttempts + w.extra
    && (w.attempts == map[] && Startable(job) ==> job.attemptCount < job.maxAttempts + w.extra)
    && (job.status == JobFailed ==> job.attemptCount >= job.maxAttempts)
    && forall pid | pid in w.attempts ::
       w.attempts[pid].started <= job.attemptCount <= w.attempts[pid].started + w.extra
  }

  lemma EffectOnJob(s: Site, a: Attempt)
    ensures var job := Effect(s, a).job;
            && job.attemptCount == s.job.attemptCount && job.maxAttempts == s.job.maxAttempts
            && (job != s.job ==>
                  || job == JobFinished(s.job)
                  || (a.pc == RecordError && job == ErrorRecorded(s.job, a.started, s.now, a.jitter)))
  {
    if a.pc in {ListSessions, CloseSession, ReleasePorts, StopVm, DeleteVm} {
      CallsLeaveJob(s, a);
    } else if a.pc in {FreeGpu, ReleaseAllocation, ReleaseEndpoint, MarkTerminated} {
      RowsLeaveJob(s, a);
    }
  }

  lemma CallsLeaveJob(s: Site, a: Attempt)
    requires a.pc in {ListSessions, CloseSession, ReleasePorts, StopVm, DeleteVm}
    ensures Effect(s, a).job == s.job
  {
  }

  lemma RowsLeaveJob(s: Site, a: Attempt)
    requires a.pc in {FreeGpu, ReleaseAllocation, ReleaseEndpoint, MarkTerminated}
    ensures Effect(s, a).job == s.job
  {
  }

  lemma GoKeepsBudget(w: World, pid: Pid)
    requires WithinBudget(w) && pid in w.attempts
    ensures WithinBudget(GoStep(w, pid))
  {
    EffectOnJob(w.site, w.attempts[pid]);
  }

  lemma FailKeepsBudget(w: World, pid: Pid, effect: bool, jitter: int)
    requires WithinBudget(w) && pid in w.attempts
    ensures WithinBudget(FailStep(w, pid, effect, jitter))
  {
    EffectOnJob(w.site, w.attempts[pid]);
  }

  lemma StepKeepsBudget(w: World, step: Step)
    requires WithinBudget(w)
    ensures WithinBudget(Apply(w, step))
  {
    if step.Crash? && step.pid !in w.attempts {
      assert w.attempts - {step.pid} == w.attempts;
    }
    if step.Begin? && step.pid in w.picked {
      assert step.pid in BeginStep(w, step.pid).attempts;
    }
    if (step.Go? || step.Fail?) && step.pid in w.attempts {
      if step.Go? { GoKeepsBudget(w, step.pid); } else { FailKeepsBudget(w, step.pid, step.effect, step.jitter); }
    }
  }

  lemma {:induction false} ExecKeepsBudget(w: World, steps: seq<Step>)
    requires WithinBudget(w)
    ensures WithinBudget(Exec(w, steps))
    decreases |steps|
  {
    if steps == [] {
    } else {
      StepKeepsBudget(w, steps[0]);
      ExecKeepsBudget(Apply(w, steps[0]), steps[1..]);
    }
  }

  /** What `extra` counts: a crash of a running attempt, a re-enqueue, a start beside another attempt or from a
      listing that has become stale, and an error record that is lost; one for each, and nothing else. */
  lemma ExtraIff(w: World, step: Step)
    ensures Apply(w, step).extra == w.extra +
            match step
            case Crash(pid) => (if pid in w.attempts then 1 else 0)
            case Enqueue => 1
            case Begin(pid) =>
              (if pid in w.picked && (w.attempts != map[] || w.site.job.status == JobDone
                                      || w.site.job.status == JobFailed)
               then 1 else 0)
            case Fail(pid, effect, _) =>
              (if pid in w.attempts && w.attempts[pid].pc == RecordError && !effect then 1 else 0)
            case _ => 0
  {
  }

  predicate Fresh(w: World) {
    && w.picked == {} && w.attempts == map[] && w.extra == 0
    && w.site.job.status == JobPending && w.site.job.attemptCount == 0 < w.site.job.maxAttempts
  }

  /** At most `maxAttempts` attempts are ever started, plus one for each crash, re-enqueue,
      overlapping or stale start and lost error record; between attempts a job that has used them up
      is DONE or FAILED, and FAILED means used up. */
  lemma AttemptsAreBounded(w0: World, steps: seq<Step>)
    requires Fresh(w0)
    ensures var w := Exec(w0, steps); var job := w.site.job;
            && job.attemptCount <= job.maxAttempts + w.extra
            && (w.attempts == map[] && job.attemptCount >= job.maxAttempts + w.extra
                ==> job.status in {JobDone, JobFailed})
            && (job.status == JobFailed ==> job.attemptCount >= job.maxAttempts)
  {
    ExecKeepsBudget(w0, steps);
  }

  // ---------------------------------------------------------------------------------------------
  // Whose GPU is freed
  // ---------------------------------------------------------------------------------------------

  /** The workspace's GPU is its own or nobody's. */
  predicate OwnGpuOk(s: Site) {
    OwnGpu(s).Some? ==> OwnGpu(s).value.owner in {None, Some(s.ws)}
  }

  /** Nobody else can claim the workspace's GPU, before its release or after: its allocation row stays. */
  lemma OwnGpuIsNeverClaimed(w: World, g: GpuId, other: WorkspaceId)
    requires IsOwn(w.site, g)
    ensures Apply(w, OtherClaims(g, other)) == w
  {
  }

  /** What other workspaces do meanwhile: they claim any GPU that is FREE and has no allocation row, and no
      other. */
  lemma OthersClaimIff(w: World, g: GpuId, other: WorkspaceId)
    requires other != w.site.ws && g in w.site.gpus
    ensures Apply(w, OtherClaims(g, other))
         == if w.site.gpus[g].status == FREE && g !in w.site.otherRows
               && (w.site.allocation == None || w.site.allocation.value.gpu != g)
            then w.(site := w.site.(gpus := w.site.gpus[g := Gpu(ALLOCATED, Some(other))],
                                    otherRows := w.site.otherRows + {g}))
            else w
  {
  }

  /** And other closers end any session that runs, with its row. */
  lemma OthersClose(w: World, id: SessionId)
    requires id in w.site.db.sessions && w.site.db.sessions[id].status == RUNNING
    ensures var w' := Apply(w, OtherCloses(id));
            && w'.site.db.sessions.Keys == w.site.db.sessions.Keys && w'.site.db.sessions[id].status == ENDED
            && id in w'.site.db.outbox && w'.site.db.sessions[id].endMs == Some(w.site.now)
  {
  }

  lemma StepKeepsOwnGpu(w: World, step: Step)
    requires Inv(w) && OwnGpuOk(w.site)
    ensures OwnGpuOk(Apply(w, step).site)
  {
    if (step.Go? || step.Fail?) && step.pid in w.attempts {
      assert AttemptOk(w.site, w.attempts[step.pid]);
      EffectKeepsOwnGpu(w.site, w.attempts[step.pid]);
    }
  }

  /** Only the release changes GPUs, and nothing changes whose row names which. */
  lemma EffectOnGpus(s: Site, a: Attempt)
    ensures var s' := Effect(s, a);
            && s'.ws == s.ws && GpuOf(s') == GpuOf(s)
            && s'.gpus == if a.pc == FreeGpu then WithoutOwner(s.gpus, a.gpu) else s.gpus
  {
    match a.pc
    case ReleaseAllocation =>
    case FreeGpu =>
    case CloseSession =>
    case _ =>
  }

  lemma EffectKeepsOwnGpu(s: Site, a: Attempt)
    requires OwnGpuOk(s) && AttemptOk(s, a)
    ensures OwnGpuOk(Effect(s, a))
  {
    EffectOnGpus(s, a);
    OwnGpuOf(s);
    OwnGpuOf(Effect(s, a));
  }

  lemma OwnGpuOf(s: Site)
    ensures OwnGpu(s) == if GpuOf(s).Some? && GpuOf(s).value in s.gpus then Some(s.gpus[GpuOf(s).value]) else None
  {
  }

  lemma {:induction false} ExecKeepsOwnGpu(w: World, steps: seq<Step>)
    requires Inv(w) && OwnGpuOk(w.site)
    ensures OwnGpuOk(Exec(w, steps).site)
    decreases |steps|
  {
    if steps == [] {
    } else {
      StepKeepsOwnGpu(w, steps[0]);
      StepKeeps(w, steps[0]);
      ExecKeepsOwnGpu(Apply(w, steps[0]), steps[1..]);
    }
  }

  /** Over all runs no write of any attempt, first or repeated, takes a GPU that another workspace owns,
      although the release does not look at `releasedAt`. */
  lemma CleanupTakesNobodysGpu(w0: World, steps: seq<Step>, step: Step, g: GpuId)
    requires Inv(w0) && OwnGpuOk(w0.site) && (step.Go? || step.Fail?)
    requires var gpus := Exec(w0, steps).site.gpus; g in gpus && gpus[g].owner !in {None, Some(w0.site.ws)}
    ensures var gpus := Apply(Exec(w0, steps), step).site.gpus; g in gpus && gpus[g] == Exec(w0, steps).site.gpus[g]
  {
    var w := Exec(w0, steps);
    ExecKeeps(w0, steps);
    ExecKeepsOwnGpu(w0, steps);
    if step.pid in w.attempts {
      assert AttemptOk(w.site, w.attempts[step.pid]);
      EffectOnOtherGpus(w.site, w.attempts[step.pid], g);
    }
  }

  lemma EffectOnOtherGpus(s: Site, a: Attempt, g: GpuId)
    requires AttemptOk(s, a) && OwnGpuOk(s) && g in s.gpus && s.gpus[g].owner !in {None, Some(s.ws)}
    ensures g in Effect(s, a).gpus && Effect(s, a).gpus[g] == s.gpus[g]
  {
    EffectOnGpus(s, a);
  }

  /** The rest of an attempt frees its GPU exactly when it has not passed its own release yet, released
      before or not. */
  lemma {:induction false} GpuIsTakenIff(w: World, pid: Pid, g: GpuId, outcomes: nat -> Outcome, n: nat)
    requires pid in w.attempts && w.attempts[pid].gpu == Some(g) && g in w.site.gpus && NoFailures(outcomes, n)
    requires w.attempts[pid].pc != ReadWorkspace && w.site.gpus[g].status == ALLOCATED
    ensures var after := Run(w, pid, outcomes, n).site.gpus;
            g in after && (after[g] != w.site.gpus[g] <==> Rank(w.attempts[pid].pc) <= Rank(FreeGpu))
    decreases Left(w, pid), |w.attempts[pid].todo|
  {
    RunGpu(w, pid, g, outcomes, n);
  }

  lemma NextPassesRelease(s: Site, a: Attempt)
    requires a.pc != ReadWorkspace && a.gpu.Some? && Next(s, a).Some?
    ensures var b := Next(s, a).value;
            b.gpu == a.gpu && (Rank(b.pc) <= Rank(FreeGpu) <==> Rank(a.pc) < Rank(FreeGpu))
  {
  }

  lemma GpuAtStep(w: World, pid: Pid, g: GpuId)
    requires pid in w.attempts && w.attempts[pid].gpu == Some(g) && g in w.site.gpus
    requires w.attempts[pid].pc != ReadWorkspace
    ensures var w1 := GoStep(w, pid); var a := w.attempts[pid];
            && w1.site.gpus == (if a.pc == FreeGpu then w.site.gpus[g := Gpu(FREE, None)] else w.site.gpus)
            && (pid in w1.attempts ==> w1.attempts[pid].gpu == a.gpu
                                       && (Rank(w1.attempts[pid].pc) <= Rank(FreeGpu) <==> Rank(a.pc) < Rank(FreeGpu)))
  {
    EffectOnGpus(w.site, w.attempts[pid]);
    if Next(w.site, w.attempts[pid]).Some? { NextPassesRelease(w.site, w.attempts[pid]); }
  }

  lemma RunIsOver(w: World, pid: Pid, outcomes: nat -> Outcome, n: nat)
    requires pid !in w.attempts
    ensures Run(w, pid, outcomes, n) == w
  {
  }

  /** The GPUs after the rest of an attempt that stands at this place. */
  function GpusAfter(gpus: map<GpuId, Gpu>, pc: Pc, g: GpuId): map<GpuId, Gpu> {
    if Rank(pc) <= Rank(FreeGpu) then gpus[g := Gpu(FREE, None)] else gpus
  }

  lemma {:induction false} RunGpu(w: World, pid: Pid, g: GpuId, outcomes: nat -> Outcome, n: nat)
    requires pid in w.attempts && w.attempts[pid].gpu == Some(g) && g in w.site.gpus && NoFailures(outcomes, n)
    requires w.attempts[pid].pc != ReadWorkspace
    ensures Run(w, pid, outcomes, n).site.gpus == GpusAfter(w.site.gpus, w.attempts[pid].pc, g)
    decreases Left(w, pid), |w.attempts[pid].todo|
  {
    var w1 := GoStep(w, pid);
    RunUnfolds(w, pid, outcomes, n);
    GoProgresses(w, pid);
    GpuAtStep(w, pid, g);
    if pid in w1.attempts {
      RunGpu(w1, pid, g, outcomes, n + 1);
    } else {
      RunIsOver(w1, pid, outcomes, n + 1);
      EndsPastRelease(w.site, w.attempts[pid]);
    }
  }

  lemma EndsPastRelease(s: Site, a: Attempt)
    requires a.pc != ReadWorkspace && Next(s, a).None?
    ensures Rank(a.pc) > Rank(FreeGpu)
  {
  }

  /** The guarded update alone, as a claim would be if allocation rows were not unique by GPU. */
  function ClaimedWithoutRow(w: World, g: GpuId, other: WorkspaceId): World {
    if g in w.site.gpus && w.site.gpus[g].status == FREE
    then w.(site := w.site.(gpus := w.site.gpus[g := Gpu(ALLOCATED, Some(other))])) else w
  }

  /** The unique column is what keeps GPUs exclusive here.  Without it: crash an attempt that has freed its
      GPU, let another workspace claim the GPU, and the next attempt takes it away. */
  lemma WithoutUniqueRowRetryTakesGpu(w: World, pid: Pid, other: WorkspaceId, outcomes: nat -> Outcome)
    requires Inv(w) && w.site.present && w.attempts.Keys == {pid} && w.picked == {} && NoFailures(outcomes, 0)
    requires w.attempts[pid].pc == ReleaseAllocation && OwnGpu(w.site).Some?
    requires w.site.job.status == JobRunning && w.site.job.nextAttemptAt.None?
    ensures var w1 := ClaimedWithoutRow(CrashStep(w, pid), w.site.allocation.value.gpu, other);
            var w2 := BeginStep(Apply(w1, Pick(pid)), pid);
            && OwnGpu(w2.site) == Some(Gpu(ALLOCATED, Some(other)))
            && OwnGpu(Run(w2, pid, outcomes, 0).site) == Some(Gpu(FREE, None))
  {
    assert AttemptOk(w.site, w.attempts[pid]);
    var w1 := ClaimedWithoutRow(CrashStep(w, pid), w.site.allocation.value.gpu, other);
    var w2 := BeginStep(Apply(w1, Pick(pid)), pid);
    assert w2.attempts.Keys == {pid};
    RunTearsDown(w2, pid, outcomes, 0);
  }
}
