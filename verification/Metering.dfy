/**
 Usage sessions, the meter outbox and Stripe.

 Three closers race to end a session (the API, the cleanup worker and the warm pool), each in one
 transaction that also enqueues a meter row; any number of emitters post the rows to Stripe and may
 crash, overlap, or lose replies.  A step of the system is one database transaction, one network
 event, or the passing of time.
 */
module Metering {
  import opened Wrappers
  import opened Rounding

  type SessionId = nat
  type WorkspaceId = nat
  type Pid = nat

  const DEFAULT_MAX_ATTEMPTS: nat := 20
  const METERING_BACKOFF_MS: seq<nat> := [10_000, 30_000, 60_000, 120_000, 300_000, 900_000]
  const BATCH_SIZE: nat := 20

  datatype SessionStatus = RUNNING | ENDED

  datatype Session = Session(
    workspaceId: WorkspaceId,
    startMs: int,
    pricePerHourCents: nat,
    status: SessionStatus,
    endMs: Option<int>,
    totalSeconds: nat,
    billedSeconds: nat,
    billedCents: nat,
    stripeMeterEventId: Option<SessionId>)

  datatype OutboxStatus = PENDING | RETRY | SENT | FAILED

  /** A row of the meter outbox; the table is keyed by its unique `usageSessionId`. */
  datatype OutboxRow = OutboxRow(
    valueSeconds: nat,
    status: OutboxStatus,
    attemptCount: nat,
    maxAttempts: nat,
    nextAttemptAt: Option<int>,
    stripeMeterEventId: Option<SessionId>)

  datatype Db = Db(sessions: map<SessionId, Session>, outbox: map<SessionId, OutboxRow>)

  // ---------------------------------------------------------------------------------------------
  // Amounts
  // ---------------------------------------------------------------------------------------------

  function TotalSeconds(startMs: int, endMs: int): (s: nat)
    ensures endMs <= startMs ==> s == 0
    ensures startMs <= endMs ==> 1000 * (s - 1) < endMs - startMs <= 1000 * s
  {
    var c := CeilDiv(endMs - startMs, 1000);
    if c < 0 then 0 else c
  }

  function BilledCents(seconds: nat, pricePerHourCents: nat): (c: nat)
    ensures 3600 * (c - 1) < seconds * pricePerHourCents <= 3600 * c
  {
    CeilDivNonNegative(seconds * pricePerHourCents, 3600);
    CeilDiv(seconds * pricePerHourCents, 3600)
  }

  /** The n-th failure in a row is followed by a wait of 10 s, 30 s, 1, 2, 5 and then always 15 minutes. */
  function NextBackoff(attemptCount: int): (ms: nat)
    ensures attemptCount <= 1 ==> ms == 10_000
    ensures attemptCount == 2 ==> ms == 30_000
    ensures attemptCount == 3 ==> ms == 60_000
    ensures attemptCount == 4 ==> ms == 120_000
    ensures attemptCount == 5 ==> ms == 300_000
    ensures 6 <= attemptCount ==> ms == 900_000
  {
    if attemptCount <= 0 then METERING_BACKOFF_MS[0]
    else if attemptCount - 1 >= |METERING_BACKOFF_MS| then METERING_BACKOFF_MS[|METERING_BACKOFF_MS| - 1]
    else METERING_BACKOFF_MS[attemptCount - 1]
  }

  // ---------------------------------------------------------------------------------------------
  // Database transactions
  // ---------------------------------------------------------------------------------------------

  ghost predicate HasRunning(db: Db, ws: WorkspaceId) {
    exists id :: id in db.sessions && db.sessions[id].workspaceId == ws && db.sessions[id].status == RUNNING
  }

  function NewSession(ws: WorkspaceId, startMs: int, price: nat): Session {
    Session(ws, startMs, price, RUNNING, None, 0, 0, 0, None)
  }

  /** What a closer remembers of the session row it read. */
  datatype Snapshot = Snapshot(id: SessionId, startMs: int, pricePerHourCents: nat)

  /** `update where { id, status: 'RUNNING' }`: no such row is error P2025. */
  function EndedRow(s: Session, snap: Snapshot, endMs: int): (e: Session) {
    var total := TotalSeconds(snap.startMs, endMs);
    s.(endMs := Some(endMs), totalSeconds := total, billedSeconds := total,
       billedCents := BilledCents(total, snap.pricePerHourCents), status := ENDED)
  }

  /** The `upsert` of the meter row, with both of its branches. */
  function EnqueuedRow(existing: Option<OutboxRow>, seconds: nat, nowMs: int): OutboxRow {
    match existing
    case Some(row) => row.(valueSeconds := seconds, status := PENDING, nextAttemptAt := Some(nowMs))
    case None => OutboxRow(seconds, PENDING, 0, DEFAULT_MAX_ATTEMPTS, Some(nowMs), None)
  }

  function Lookup(m: map<SessionId, OutboxRow>, id: SessionId): Option<OutboxRow> {
    if id in m then Some(m[id]) else None
  }

  /** The closing transaction.  `None` is P2025: the session is not RUNNING any more. */
  function CloseTx(db: Db, snap: Snapshot, endMs: int): Option<Db> {
    if snap.id !in db.sessions || db.sessions[snap.id].status != RUNNING then None
    else
      var e := EndedRow(db.sessions[snap.id], snap, endMs);
      Some(Db(db.sessions[snap.id := e],
              db.outbox[snap.id := EnqueuedRow(Lookup(db.outbox, snap.id), e.totalSeconds, endMs)]))
  }

  function SentRow(row: OutboxRow, meterId: SessionId): OutboxRow {
    row.(status := SENT, nextAttemptAt := None, stripeMeterEventId := Some(meterId),
         attemptCount := row.attemptCount + 1)
  }

  /** The two updates of the success path, one transaction. */
  function SentTx(db: Db, id: SessionId): (r: Db)
    requires id in db.outbox && id in db.sessions
  {
    Db(db.sessions[id := db.sessions[id].(stripeMeterEventId := Some(id))],
       db.outbox[id := SentRow(db.outbox[id], id)])
  }

  /** The failure path decides on the attempt count the emitter read, and increments the stored one. */
  function FailedRow(row: OutboxRow, seen: OutboxRow, nowMs: int): OutboxRow {
    var attempt := seen.attemptCount + 1;
    var exhausted := attempt >= seen.maxAttempts;
    row.(status := if exhausted then FAILED else RETRY,
         attemptCount := row.attemptCount + 1,
         nextAttemptAt := if exhausted then None else Some(nowMs + NextBackoff(attempt)))
  }

  function FailedTx(db: Db, id: SessionId, seen: OutboxRow, nowMs: int): Db
    requires id in db.outbox
  {
    db.(outbox := db.outbox[id := FailedRow(db.outbox[id], seen, nowMs)])
  }

  predicate Due(row: OutboxRow, nowMs: int) {
    && row.status in {PENDING, RETRY}
    && (row.nextAttemptAt.None? || row.nextAttemptAt.value <= nowMs)
  }

  // ---------------------------------------------------------------------------------------------
  // The system
  // ---------------------------------------------------------------------------------------------

  datatype EmitPhase = Ready | Posted | Replied | Failing

  datatype Event = Event(id: SessionId, seen: OutboxRow)

  /** The local state of one call of a closer or of the emitter. */
  datatype Proc =
    | Closer(todo: seq<Snapshot>, stamp: Option<int>)
    | Emitter(batch: seq<Event>, phase: EmitPhase)

  /** `wire` holds every request ever posted; Stripe may take it up at any later time, or never. */
  datatype World = World(
    db: Db,
    stripe: map<SessionId, nat>,
    wire: set<(SessionId, nat)>,
    now: int,
    procs: map<Pid, Proc>)

  datatype Step =
    | Tick(ms: nat)
    | OpenSession(id: SessionId, ws: WorkspaceId, price: nat)
    | StartCloser(pid: Pid, ws: WorkspaceId, ids: seq<SessionId>)
    | StampEnd(pid: Pid)
    | CommitClose(pid: Pid)
    | StartEmitter(pid: Pid, ids: seq<SessionId>)
    | Post(pid: Pid, customerConfigured: bool)
    | StripeTakes(id: SessionId, value: nat)
    | ReplyOk(pid: Pid)
    | ReplyLost(pid: Pid)
    | MarkSent(pid: Pid)
    | MarkSentRejected(pid: Pid)
    | MarkFailed(pid: Pid)
    | Crash(pid: Pid)

  const Start: World := World(Db(map[], map[]), map[], {}, 0, map[])

  function SnapshotOf(db: Db, id: SessionId): Snapshot
    requires id in db.sessions
  {
    Snapshot(id, db.sessions[id].startMs, db.sessions[id].pricePerHourCents)
  }

  ghost predicate CanOpen(w: World, id: SessionId, ws: WorkspaceId) {
    id !in w.db.sessions && !HasRunning(w.db, ws)
  }

  /** `findFirst` and `findMany` both return rows of that workspace that are RUNNING now. */
  ghost predicate CanStartCloser(w: World, pid: Pid, ws: WorkspaceId, ids: seq<SessionId>) {
    && pid !in w.procs
    && forall i | 0 <= i < |ids| ::
         ids[i] in w.db.sessions && w.db.sessions[ids[i]].workspaceId == ws && w.db.sessions[ids[i]].status == RUNNING
  }

  ghost predicate CanStartEmitter(w: World, pid: Pid, ids: seq<SessionId>) {
    && pid !in w.procs
    && |ids| <= BATCH_SIZE
    && (forall i, j | 0 <= i < j < |ids| :: ids[i] != ids[j])
    && forall i | 0 <= i < |ids| :: ids[i] in w.db.outbox && Due(w.db.outbox[ids[i]], w.now)
  }

  predicate IsCloser(w: World, pid: Pid, stamped: bool) {
    pid in w.procs && w.procs[pid].Closer? && |w.procs[pid].todo| > 0 && w.procs[pid].stamp.Some? == stamped
  }

  predicate IsEmitter(w: World, pid: Pid, phase: EmitPhase) {
    pid in w.procs && w.procs[pid].Emitter? && |w.procs[pid].batch| > 0 && w.procs[pid].phase == phase
  }

  function Current(w: World, pid: Pid): Event
    requires pid in w.procs && w.procs[pid].Emitter? && |w.procs[pid].batch| > 0
  {
    w.procs[pid].batch[0]
  }

  function SetPhase(w: World, pid: Pid, phase: EmitPhase): World
    requires pid in w.procs && w.procs[pid].Emitter?
  {
    w.(procs := w.procs[pid := w.procs[pid].(phase := phase)])
  }

  function NextEvent(w: World, pid: Pid, db: Db): World
    requires pid in w.procs && w.procs[pid].Emitter? && |w.procs[pid].batch| > 0
  {
    w.(db := db, procs := w.procs[pid := Emitter(w.procs[pid].batch[1..], Ready)])
  }

  // Each step; one that is not possible changes nothing.

  ghost function OpenStep(w: World, id: SessionId, ws: WorkspaceId, price: nat): World {
    if CanOpen(w, id, ws) then w.(db := w.db.(sessions := w.db.sessions[id := NewSession(ws, w.now, price)])) else w
  }

  ghost function StartCloserStep(w: World, pid: Pid, ws: WorkspaceId, ids: seq<SessionId>): World {
    if CanStartCloser(w, pid, ws, ids)
    then
      var snaps := seq(|ids|, i requires 0 <= i < |ids| && ids[i] in w.db.sessions => SnapshotOf(w.db, ids[i]));
      w.(procs := w.procs[pid := Closer(snaps, None)])
    else w
  }

  function StampStep(w: World, pid: Pid): World {
    if IsCloser(w, pid, false) then w.(procs := w.procs[pid := w.procs[pid].(stamp := Some(w.now))]) else w
  }

  /** One loop iteration of a closer ends with a commit or with P2025, which it ignores. */
  function CommitStep(w: World, pid: Pid): World {
    if IsCloser(w, pid, true) then
      var p := w.procs[pid];
      var r := CloseTx(w.db, p.todo[0], p.stamp.value);
      w.(db := if r.Some? then r.value else w.db, procs := w.procs[pid := Closer(p.todo[1..], None)])
    else w
  }

  ghost function StartEmitterStep(w: World, pid: Pid, ids: seq<SessionId>): World {
    if CanStartEmitter(w, pid, ids)
    then
      var batch := seq(|ids|, i requires 0 <= i < |ids| && ids[i] in w.db.outbox => Event(ids[i], w.db.outbox[ids[i]]));
      w.(procs := w.procs[pid := Emitter(batch, Ready)])
    else w
  }

  /** A configured customer puts the request on the wire; a missing one is an error at once. */
  function PostStep(w: World, pid: Pid, configured: bool): World {
    if !IsEmitter(w, pid, Ready) then w
    else if configured then
      var e := Current(w, pid);
      SetPhase(w.(wire := w.wire + {(e.id, e.seen.valueSeconds)}), pid, Posted)
    else SetPhase(w, pid, Failing)
  }

  /** Stripe keeps the first event it takes under an identifier. */
  function StripeStep(w: World, id: SessionId, value: nat): World {
    if (id, value) in w.wire && id !in w.stripe then w.(stripe := w.stripe[id := value]) else w
  }

  /** Stripe acknowledges only what it holds. */
  function ReplyOkStep(w: World, pid: Pid): World {
    if IsEmitter(w, pid, Posted) && Current(w, pid).id in w.stripe then SetPhase(w, pid, Replied) else w
  }

  /** A lost reply, a timeout or an error reply, whether or not Stripe took the event. */
  function ReplyLostStep(w: World, pid: Pid): World {
    if IsEmitter(w, pid, Posted) then SetPhase(w, pid, Failing) else w
  }

  function MarkSentStep(w: World, pid: Pid): World {
    if IsEmitter(w, pid, Replied) && Current(w, pid).id in w.db.outbox && Current(w, pid).id in w.db.sessions
    then NextEvent(w, pid, SentTx(w.db, Current(w, pid).id)) else w
  }

  /** The success transaction throws; control passes to the failure path. */
  function MarkSentRejectedStep(w: World, pid: Pid): World {
    if IsEmitter(w, pid, Replied) then SetPhase(w, pid, Failing) else w
  }

  function MarkFailedStep(w: World, pid: Pid): World {
    if IsEmitter(w, pid, Failing) && Current(w, pid).id in w.db.outbox
    then NextEvent(w, pid, FailedTx(w.db, Current(w, pid).id, Current(w, pid).seen, w.now)) else w
  }

  function CrashStep(w: World, pid: Pid): World {
    w.(procs := w.procs - {pid})
  }

  ghost function Apply(w: World, step: Step): World {
    match step
    case Tick(ms) => w.(now := w.now + ms)
    case OpenSession(id, ws, price) => OpenStep(w, id, ws, price)
    case StartCloser(pid, ws, ids) => StartCloserStep(w, pid, ws, ids)
    case StampEnd(pid) => StampStep(w, pid)
    case CommitClose(pid) => CommitStep(w, pid)
    case StartEmitter(pid, ids) => StartEmitterStep(w, pid, ids)
    case Post(pid, configured) => PostStep(w, pid, configured)
    case StripeTakes(id, value) => StripeStep(w, id, value)
    case ReplyOk(pid) => ReplyOkStep(w, pid)
    case ReplyLost(pid) => ReplyLostStep(w, pid)
    case MarkSent(pid) => MarkSentStep(w, pid)
    case MarkSentRejected(pid) => MarkSentRejectedStep(w, pid)
    case MarkFailed(pid) => MarkFailedStep(w, pid)
    case Crash(pid) => CrashStep(w, pid)
  }

  ghost function Exec(w: World, steps: seq<Step>): World
    decreases |steps|
  {
    if steps == [] then w else Exec(Apply(w, steps[0]), steps[1..])
  }

  // ---------------------------------------------------------------------------------------------
  // The invariant
  // ---------------------------------------------------------------------------------------------

  /** The amounts of an ENDED session follow from its own start, end and price. */
  predicate WellBilled(s: Session) {
    && s.status == ENDED
    && s.endMs.Some?
    && s.totalSeconds == s.billedSeconds == TotalSeconds(s.startMs, s.endMs.value)
    && s.billedCents == BilledCents(s.billedSeconds, s.pricePerHourCents)
  }

  /** A session is ENDED exactly when it has its meter row, and the row carries its billed seconds. */
  ghost predicate RowsMatch(db: Db) {
    && (forall id | id in db.sessions :: db.sessions[id].status == ENDED <==> id in db.outbox)
    && (forall id | id in db.outbox :: id in db.sessions && WellBilled(db.sessions[id])
                                       && db.outbox[id].valueSeconds == db.sessions[id].billedSeconds)
  }

  ghost predicate OneRunningEach(db: Db) {
    forall a, b | a in db.sessions && b in db.sessions && db.sessions[a].status == RUNNING
      && db.sessions[b].status == RUNNING
      && db.sessions[a].workspaceId == db.sessions[b].workspaceId :: a == b
  }

  /** Stripe and the wire only ever carry the value of an existing meter row; SENT rows are at Stripe. */
  ghost predicate StripeMatches(db: Db, stripe: map<SessionId, nat>, wire: set<(SessionId, nat)>) {
    && (forall id | id in stripe :: id in db.outbox && stripe[id] == db.outbox[id].valueSeconds)
    && (forall r | r in wire :: r.0 in db.outbox && r.1 == db.outbox[r.0].valueSeconds)
    && (forall id | id in db.outbox && db.outbox[id].status == SENT :: id in stripe)
  }

  ghost predicate ProcOk(db: Db, stripe: map<SessionId, nat>, p: Proc) {
    match p
    case Closer(todo, _) =>
      forall i | 0 <= i < |todo| :: todo[i].id in db.sessions && todo[i] == SnapshotOf(db, todo[i].id)
    case Emitter(batch, phase) =>
      && (forall i | 0 <= i < |batch| ::
          batch[i].id in db.outbox && batch[i].seen.valueSeconds == db.outbox[batch[i].id].valueSeconds)
      && (phase == Replied ==> |batch| > 0 && batch[0].id in stripe)
  }

  ghost predicate Inv(w: World) {
    && RowsMatch(w.db)
    && OneRunningEach(w.db)
    && StripeMatches(w.db, w.stripe, w.wire)
    && forall pid | pid in w.procs :: ProcOk(w.db, w.stripe, w.procs[pid])
  }

  /** What later transactions may not touch: a session's start, price and workspace, an ended
      session's bill, and the value of a meter row. */
  ghost predicate DbSettled(a: Db, b: Db) {
    && (forall id | id in a.sessions ::
          && id in b.sessions
          && b.sessions[id].startMs == a.sessions[id].startMs
          && b.sessions[id].pricePerHourCents == a.sessions[id].pricePerHourCents
          && b.sessions[id].workspaceId == a.sessions[id].workspaceId
          && (a.sessions[id].status == ENDED ==>
                b.sessions[id] == a.sessions[id].(stripeMeterEventId := b.sessions[id].stripeMeterEventId)))
    && (forall id | id in a.outbox :: id in b.outbox && b.outbox[id].valueSeconds == a.outbox[id].valueSeconds)
  }

  /** Stripe never forgets an event, nor changes its value. */
  ghost predicate Settled(a: World, b: World) {
    && DbSettled(a.db, b.db)
    && (forall id | id in a.stripe :: id in b.stripe && b.stripe[id] == a.stripe[id])
  }

  lemma SettledTransitive(a: World, b: World, c: World)
    requires Settled(a, b) && Settled(b, c)
    ensures Settled(a, c)
  {
  }

  // Transactions.

  lemma OpenKeeps(db: Db, id: SessionId, s: Session)
    requires RowsMatch(db) && OneRunningEach(db)
    requires id !in db.sessions && !HasRunning(db, s.workspaceId) && s.status == RUNNING
    ensures var db' := db.(sessions := db.sessions[id := s]);
            RowsMatch(db') && OneRunningEach(db') && DbSettled(db, db')
  {
  }

  lemma CloseTxKeeps(db: Db, id: SessionId, endMs: int)
    requires RowsMatch(db) && OneRunningEach(db) && id in db.sessions
    ensures var r := CloseTx(db, SnapshotOf(db, id), endMs);
            r.Some? ==> RowsMatch(r.value) && OneRunningEach(r.value) && DbSettled(db, r.value)
  {
  }

  lemma SentTxKeeps(db: Db, id: SessionId)
    requires RowsMatch(db) && OneRunningEach(db) && id in db.outbox
    ensures var db' := SentTx(db, id); RowsMatch(db') && OneRunningEach(db') && DbSettled(db, db')
  {
    var db' := SentTx(db, id);
    assert forall i | i in db.sessions ::
           db'.sessions[i] == db.sessions[i].(stripeMeterEventId := db'.sessions[i].stripeMeterEventId);
  }

  lemma FailedTxKeeps(db: Db, id: SessionId, seen: OutboxRow, nowMs: int)
    requires RowsMatch(db) && OneRunningEach(db) && id in db.outbox
    ensures var db' := FailedTx(db, id, seen, nowMs); RowsMatch(db') && OneRunningEach(db') && DbSettled(db, db')
  {
  }

  // Steps.

  ghost predicate Keeps(w: World, w': World) {
    Inv(w') && Settled(w, w')
  }

  /** A step that settles facts and leaves process `pid` in order leaves all processes in order. */
  lemma ProcsSurvive(w: World, w': World, pid: Pid)
    requires forall q | q in w.procs :: ProcOk(w.db, w.stripe, w.procs[q])
    requires Settled(w, w')
    requires forall q | q in w'.procs && q != pid :: q in w.procs && w'.procs[q] == w.procs[q]
    requires pid in w'.procs ==> ProcOk(w'.db, w'.stripe, w'.procs[pid])
    ensures forall q | q in w'.procs :: ProcOk(w'.db, w'.stripe, w'.procs[q])
  {
    forall q | q in w'.procs ensures ProcOk(w'.db, w'.stripe, w'.procs[q]) {
      if q != pid { assert ProcOk(w.db, w.stripe, w.procs[q]); }
    }
  }

  lemma ProcsSurviveAll(w: World, w': World)
    requires Inv(w) && Settled(w, w') && w'.procs == w.procs
    ensures forall q | q in w'.procs :: ProcOk(w'.db, w'.stripe, w'.procs[q])
  {
    forall q | q in w'.procs ensures ProcOk(w'.db, w'.stripe, w'.procs[q]) {
      assert ProcOk(w.db, w.stripe, w.procs[q]);
    }
  }

  /** Replacing the local state of one process touches nothing else. */
  lemma ReplaceProcKeeps(w: World, pid: Pid, p: Proc)
    requires Inv(w) && ProcOk(w.db, w.stripe, p)
    ensures Keeps(w, w.(procs := w.procs[pid := p]))
  {
    ProcsSurvive(w, w.(procs := w.procs[pid := p]), pid);
  }

  lemma OpenStepKeeps(w: World, id: SessionId, ws: WorkspaceId, price: nat)
    requires Inv(w)
    ensures Keeps(w, OpenStep(w, id, ws, price))
  {
    if CanOpen(w, id, ws) {
      OpenKeeps(w.db, id, NewSession(ws, w.now, price));
    }
    ProcsSurviveAll(w, OpenStep(w, id, ws, price));
  }

  lemma StartCloserKeeps(w: World, pid: Pid, ws: WorkspaceId, ids: seq<SessionId>)
    requires Inv(w)
    ensures Keeps(w, StartCloserStep(w, pid, ws, ids))
  {
    if CanStartCloser(w, pid, ws, ids) {
      ReplaceProcKeeps(w, pid, StartCloserStep(w, pid, ws, ids).procs[pid]);
    }
  }

  lemma StampKeeps(w: World, pid: Pid)
    requires Inv(w)
    ensures Keeps(w, StampStep(w, pid))
  {
    if IsCloser(w, pid, false) {
      assert ProcOk(w.db, w.stripe, w.procs[pid]);
      ReplaceProcKeeps(w, pid, StampStep(w, pid).procs[pid]);
    }
  }

  lemma CommitKeeps(w: World, pid: Pid)
    requires Inv(w)
    ensures Keeps(w, CommitStep(w, pid))
  {
    if IsCloser(w, pid, true) {
      var p := w.procs[pid];
      assert ProcOk(w.db, w.stripe, p);
      CloseTxKeeps(w.db, p.todo[0].id, p.stamp.value);
      ProcsSurvive(w, CommitStep(w, pid), pid);
    }
  }

  lemma StartEmitterKeeps(w: World, pid: Pid, ids: seq<SessionId>)
    requires Inv(w)
    ensures Keeps(w, StartEmitterStep(w, pid, ids))
  {
    if CanStartEmitter(w, pid, ids) {
      ReplaceProcKeeps(w, pid, StartEmitterStep(w, pid, ids).procs[pid]);
    }
  }

  lemma PhaseKeeps(w: World, pid: Pid, phase: EmitPhase)
    requires Inv(w) && pid in w.procs && w.procs[pid].Emitter? && |w.procs[pid].batch| > 0
    requires phase == Replied ==> w.procs[pid].batch[0].id in w.stripe
    ensures Keeps(w, SetPhase(w, pid, phase))
  {
    assert ProcOk(w.db, w.stripe, w.procs[pid]);
    ReplaceProcKeeps(w, pid, w.procs[pid].(phase := phase));
  }

  lemma PostKeeps(w: World, pid: Pid, configured: bool)
    requires Inv(w)
    ensures Keeps(w, PostStep(w, pid, configured))
  {
    if IsEmitter(w, pid, Ready) {
      PhaseKeeps(w, pid, Failing);
      assert ProcOk(w.db, w.stripe, w.procs[pid]);
      var w1 := w.(wire := w.wire + {(Current(w, pid).id, Current(w, pid).seen.valueSeconds)});
      ProcsSurviveAll(w, w1);
      PhaseKeeps(w1, pid, Posted);
    }
  }

  lemma StripeStepKeeps(w: World, id: SessionId, value: nat)
    requires Inv(w)
    ensures Keeps(w, StripeStep(w, id, value))
  {
    ProcsSurviveAll(w, StripeStep(w, id, value));
  }

  lemma MarkSentKeeps(w: World, pid: Pid)
    requires Inv(w)
    ensures Keeps(w, MarkSentStep(w, pid))
  {
    if IsEmitter(w, pid, Replied) {
      assert ProcOk(w.db, w.stripe, w.procs[pid]);
      SentTxKeeps(w.db, Current(w, pid).id);
      ProcsSurvive(w, MarkSentStep(w, pid), pid);
    }
  }

  lemma MarkFailedKeeps(w: World, pid: Pid)
    requires Inv(w)
    ensures Keeps(w, MarkFailedStep(w, pid))
  {
    if IsEmitter(w, pid, Failing) {
      assert ProcOk(w.db, w.stripe, w.procs[pid]);
      FailedTxKeeps(w.db, Current(w, pid).id, Current(w, pid).seen, w.now);
      ProcsSurvive(w, MarkFailedStep(w, pid), pid);
    }
  }

  /** Every step keeps the invariant and leaves settled facts alone. */
  lemma RepliesKeep(w: World, step: Step)
    requires Inv(w) && (step.ReplyOk? || step.ReplyLost? || step.MarkSentRejected?)
    ensures Keeps(w, Apply(w, step))
  {
    if Apply(w, step) != w { PhaseKeeps(w, step.pid, if step.ReplyOk? then Replied else Failing); }
  }

  lemma StepKeeps(w: World, step: Step)
    requires Inv(w)
    ensures Keeps(w, Apply(w, step))
  {
    match step
    case Tick(_) => ProcsSurviveAll(w, Apply(w, step));
    case OpenSession(id, ws, price) => OpenStepKeeps(w, id, ws, price);
    case StartCloser(pid, ws, ids) => StartCloserKeeps(w, pid, ws, ids);
    case StampEnd(pid) => StampKeeps(w, pid);
    case CommitClose(pid) => CommitKeeps(w, pid);
    case StartEmitter(pid, ids) => StartEmitterKeeps(w, pid, ids);
    case Post(pid, configured) => PostKeeps(w, pid, configured);
    case StripeTakes(id, value) => StripeStepKeeps(w, id, value);
    case ReplyOk(_) => RepliesKeep(w, step);
    case ReplyLost(_) => RepliesKeep(w, step);
    case MarkSent(pid) => MarkSentKeeps(w, pid);
    case MarkSentRejected(_) => RepliesKeep(w, step);
    case MarkFailed(pid) => MarkFailedKeeps(w, pid);
    case Crash(pid) => ProcsSurvive(w, CrashStep(w, pid), pid);
  }

  lemma {:induction false} ExecKeeps(w: World, steps: seq<Step>)
    requires Inv(w)
    ensures Inv(Exec(w, steps)) && Settled(w, Exec(w, steps))
    decreases |steps|
  {
    if steps != [] {
      StepKeeps(w, steps[0]);
      ExecKeeps(Apply(w, steps[0]), steps[1..]);
      SettledTransitive(w, Apply(w, steps[0]), Exec(w, steps));
    }
  }

  // ---------------------------------------------------------------------------------------------
  // Main results
  // ---------------------------------------------------------------------------------------------

  /** The bill of every ended session. */
  ghost function Billed(db: Db): map<SessionId, nat> {
    map id | id in db.sessions && db.sessions[id].status == ENDED :: db.sessions[id].billedSeconds
  }

  /** The bills Stripe has not taken yet. */
  ghost function Unreported(w: World): map<SessionId, nat> {
    map id | id in Billed(w.db) && id !in w.stripe :: Billed(w.db)[id]
  }

  ghost predicate AllSent(w: World) {
    forall id | id in w.db.outbox :: w.db.outbox[id].status == SENT
  }

  ghost function Total(m: map<SessionId, nat>): nat {
    if m == map[] then 0 else var k :| k in m; m[k] + Total(m - {k})
  }

  lemma {:induction false} TotalRemove(m: map<SessionId, nat>, k: SessionId)
    requires k in m
    ensures Total(m) == m[k] + Total(m - {k})
  {
    var c :| c in m && Total(m) == m[c] + Total(m - {c});
    if c != k {
      TotalRemove(m - {c}, k);
      TotalRemove(m - {k}, c);
      assert m - {c} - {k} == m - {k} - {c};
    }
  }

  lemma {:induction false} TotalSplit(m: map<SessionId, nat>, a: map<SessionId, nat>, b: map<SessionId, nat>)
    requires a.Keys !! b.Keys && m == a + b
    ensures Total(m) == Total(a) + Total(b)
  {
    if a == map[] {
      assert m == b;
    } else {
      var k :| k in a;
      TotalRemove(a, k);
      TotalRemove(m, k);
      TotalSplit(m - {k}, a - {k}, b);
    }
  }

  /** Racing closers: a session is ENDED iff it has its meter row, and then row, seconds and cents agree. */
  lemma ClosedExactlyOnce(steps: seq<Step>, id: SessionId)
    requires id in Exec(Start, steps).db.sessions
    ensures var db := Exec(Start, steps).db;
            && (db.sessions[id].status == ENDED <==> id in db.outbox)
            && (id in db.outbox ==>
                  && WellBilled(db.sessions[id])
                  && db.outbox[id].valueSeconds == db.sessions[id].totalSeconds == db.sessions[id].billedSeconds)
  {
    ExecKeeps(Start, steps);
  }

  /** A workspace never has two RUNNING sessions. */
  lemma OneRunningPerWorkspace(steps: seq<Step>, a: SessionId, b: SessionId)
    requires var s := Exec(Start, steps).db.sessions;
             a in s && b in s && s[a].status == RUNNING && s[b].status == RUNNING
               && s[a].workspaceId == s[b].workspaceId
    ensures a == b
  {
    ExecKeeps(Start, steps);
  }

  /** Once ended, always ended with the same end, seconds and cents, whatever runs afterwards. */
  lemma BillNeverChanges(steps: seq<Step>, more: seq<Step>, id: SessionId)
    requires var s := Exec(Start, steps).db.sessions; id in s && s[id].status == ENDED
    ensures var a, b := Exec(Start, steps).db, Exec(Exec(Start, steps), more).db;
            && id in b.sessions && id in a.outbox && id in b.outbox
            && b.sessions[id] == a.sessions[id].(stripeMeterEventId := b.sessions[id].stripeMeterEventId)
            && b.outbox[id].valueSeconds == a.outbox[id].valueSeconds
  {
    ExecKeeps(Start, steps);
    ExecKeeps(Exec(Start, steps), more);
  }

  /** In a reachable state the closing transaction never finds an older meter row, so the update
      branch of its upsert is dead. */
  lemma UpsertUpdateIsDead(steps: seq<Step>, snap: Snapshot, endMs: int)
    ensures var db := Exec(Start, steps).db; CloseTx(db, snap, endMs).Some? ==> Lookup(db.outbox, snap.id) == None
  {
    ExecKeeps(Start, steps);
  }

  /** Stripe holds nothing for a session, or exactly its billed seconds; a SENT row is at Stripe. */
  lemma EffectivelyOnce(steps: seq<Step>)
    ensures var w := Exec(Start, steps);
            && (forall id | id in w.stripe ::
                  id in w.db.sessions && w.db.sessions[id].status == ENDED
                    && w.stripe[id] == w.db.sessions[id].billedSeconds)
            && (forall id | id in w.db.outbox && w.db.outbox[id].status == SENT :: id in w.stripe)
  {
    ExecKeeps(Start, steps);
  }

  /** The bills fall into what Stripe holds and what it does not. */
  lemma BillsSplit(w: World)
    requires RowsMatch(w.db) && StripeMatches(w.db, w.stripe, w.wire)
    ensures w.stripe.Keys !! Unreported(w).Keys && Billed(w.db) == w.stripe + Unreported(w)
  {
    assert forall id | id in Billed(w.db) && id !in w.stripe :: id in Unreported(w);
  }

  lemma AllSentMeansAllReported(w: World)
    requires RowsMatch(w.db) && StripeMatches(w.db, w.stripe, w.wire) && AllSent(w)
    ensures w.stripe == Billed(w.db)
  {
    assert w.stripe.Keys == Billed(w.db).Keys;
  }

  /** Conservation: Stripe's total and the bills still unreported add up to all bills, and Stripe
      agrees with the bills as soon as every row is SENT. */
  lemma StripeTotalIsConserved(steps: seq<Step>)
    ensures var w := Exec(Start, steps);
            && Total(Billed(w.db)) == Total(w.stripe) + Total(Unreported(w))
            && (AllSent(w) ==> w.stripe == Billed(w.db))
  {
    var w := Exec(Start, steps);
    ExecKeeps(Start, steps);
    BillsSplit(w);
    if AllSent(w) { AllSentMeansAllReported(w); }
    TotalSplit(Billed(w.db), w.stripe, Unreported(w));
  }

  // ---------------------------------------------------------------------------------------------
  // One emitter at a time
  // ---------------------------------------------------------------------------------------------

  /** A SENT row leaves SENT in one case only: another emitter still holds it and marks it failed. */
  predicate MarksFailed(w: World, step: Step, id: SessionId) {
    step.MarkFailed? && IsEmitter(w, step.pid, Failing) && Current(w, step.pid).id == id
  }

  lemma SentIsKeptIff(w: World, step: Step, id: SessionId)
    requires RowsMatch(w.db) && id in w.db.outbox && w.db.outbox[id].status == SENT
    ensures var db' := Apply(w, step).db;
            id in db'.outbox && (db'.outbox[id].status == SENT <==> !MarksFailed(w, step, id))
  {
    match step
    case CommitClose(pid) => UpsertInserts(w, pid);
    case MarkFailed(pid) => FailureLeavesSentIff(w, pid, id);
    case MarkSent(pid) => SuccessKeepsSent(w, pid, id);
    case _ => OthersLeaveOutbox(w, step);
  }

  lemma SuccessKeepsSent(w: World, pid: Pid, id: SessionId)
    requires id in w.db.outbox && w.db.outbox[id].status == SENT
    ensures var db' := MarkSentStep(w, pid).db; id in db'.outbox && db'.outbox[id].status == SENT
  {
  }

  lemma OthersLeaveOutbox(w: World, step: Step)
    requires !step.CommitClose? && !step.MarkSent? && !step.MarkFailed?
    ensures Apply(w, step).db.outbox == w.db.outbox
  {
  }

  lemma FailureLeavesSentIff(w: World, pid: Pid, id: SessionId)
    requires id in w.db.outbox && w.db.outbox[id].status == SENT
    ensures var db' := MarkFailedStep(w, pid).db;
            id in db'.outbox && (db'.outbox[id].status == SENT <==> !MarksFailed(w, MarkFailed(pid), id))
  {
  }

  /** A commit only ever adds a meter row for a session that had none. */
  lemma UpsertInserts(w: World, pid: Pid)
    requires RowsMatch(w.db)
    ensures var db' := CommitStep(w, pid).db;
            forall id | id in w.db.outbox :: id in db'.outbox && db'.outbox[id] == w.db.outbox[id]
  {
  }

  ghost predicate Reachable(w: World) {
    exists steps :: Exec(Start, steps) == w
  }

  lemma {:induction false} ExecAppend(w: World, steps: seq<Step>, step: Step)
    ensures Exec(w, steps + [step]) == Apply(Exec(w, steps), step)
    decreases |steps|
  {
    if steps == [] {
      assert Exec(w, [step]) == Exec(Apply(w, step), [step][1..]);
      assert steps + [step] == [step];
    } else {
      assert (steps + [step])[1..] == steps[1..] + [step];
      ExecAppend(Apply(w, steps[0]), steps[1..], step);
    }
  }

  lemma StepReachable(w: World, step: Step, w': World)
    requires Reachable(w) && w' == Apply(w, step)
    ensures Reachable(w')
  {
    var steps :| Exec(Start, steps) == w;
    ExecAppend(Start, steps, step);
  }

  /** One session of one second at 3600 cents an hour, ended, its meter row PENDING. */
  const CLOSED: World := World(
    Db(map[0 := Session(0, 0, 3600, ENDED, Some(1000), 1, 1, 1, None)],
       map[0 := OutboxRow(1, PENDING, 0, DEFAULT_MAX_ATTEMPTS, Some(1000), None)]),
    map[], {}, 1000, map[0 := Closer([], None)])

  lemma CloseWitness(w: World)
    requires w == World(Db(map[0 := NewSession(0, 0, 3600)], map[]), map[], {}, 1000,
                        map[0 := Closer([Snapshot(0, 0, 3600)], Some(1000))])
    ensures CommitStep(w, 0) == CLOSED
  {
    CeilDivUnique(1000, 1000, 1);
    CeilDivUnique(3600, 3600, 1);
    assert EndedRow(NewSession(0, 0, 3600), Snapshot(0, 0, 3600), 1000) == CLOSED.db.sessions[0];
    assert CommitStep(w, 0).db.sessions == CLOSED.db.sessions;
    assert CommitStep(w, 0).db.outbox == CLOSED.db.outbox;
    assert CommitStep(w, 0).procs[0].todo == [];
    assert CommitStep(w, 0).procs == CLOSED.procs;
  }

  /** The session is open and a closer has read it. */
  const CLOSING: World := World(Db(map[0 := NewSession(0, 0, 3600)], map[]), map[], {}, 1000,
                                map[0 := Closer([Snapshot(0, 0, 3600)], None)])

  lemma ClosingReachable()
    ensures Reachable(CLOSING)
  {
    assert Exec(Start, []) == Start;
    var w1 := OpenStep(Start, 0, 0, 3600);
    StepReachable(Start, OpenSession(0, 0, 3600), w1);
    var w2 := w1.(now := 1000);
    StepReachable(w1, Tick(1000), w2);
    assert CanStartCloser(w2, 0, 0, [0]);
    assert StartCloserStep(w2, 0, 0, [0]).procs[0] == Closer([SnapshotOf(w2.db, 0)], None);
    StepReachable(w2, StartCloser(0, 0, [0]), CLOSING);
  }

  lemma ClosedReachable()
    ensures Reachable(CLOSED)
  {
    ClosingReachable();
    var w4 := CLOSING.(procs := map[0 := Closer([Snapshot(0, 0, 3600)], Some(1000))]);
    StepReachable(CLOSING, StampEnd(0), w4);
    CloseWitness(w4);
    StepReachable(w4, CommitClose(0), CLOSED);
  }

  /** Two emitters hold the row. */
  lemma BothReadyReachable(r: Proc)
    requires r == Emitter([Event(0, CLOSED.db.outbox[0])], Ready)
    ensures Reachable(CLOSED.(procs := CLOSED.procs[1 := r][2 := r]))
  {
    ClosedReachable();
    var w1 := CLOSED.(procs := CLOSED.procs[1 := r]);
    assert StartEmitterStep(CLOSED, 1, [0]).procs[1] == r;
    StepReachable(CLOSED, StartEmitter(1, [0]), w1);
    assert StartEmitterStep(w1, 2, [0]).procs[2] == r;
    StepReachable(w1, StartEmitter(2, [0]), w1.(procs := w1.procs[2 := r]));
  }

  /** Both have posted it. */
  lemma BothPostedReachable(w: World, p: Proc)
    requires p == Emitter([Event(0, CLOSED.db.outbox[0])], Posted)
    requires w == CLOSED.(wire := {(0, 1)}, procs := CLOSED.procs[1 := p][2 := p])
    ensures Reachable(w)
  {
    var r := p.(phase := Ready);
    BothReadyReachable(r);
    var w2 := CLOSED.(procs := CLOSED.procs[1 := r][2 := r]);
    var w3 := PostStep(w2, 1, true);
    StepReachable(w2, Post(1, true), w3);
    StepReachable(w3, Post(2, true), PostStep(w3, 2, true));
    assert PostStep(w3, 2, true).procs == w.procs;
  }

  /** One of the two has its acknowledgement, the other has lost its reply. */
  lemma OneRepliedReachable() returns (w: World)
    ensures Reachable(w) && w.db == CLOSED.db && 0 in w.stripe
    ensures IsEmitter(w, 1, Replied) && Current(w, 1).id == 0 && IsEmitter(w, 2, Failing)
            && Current(w, 2) == Event(0, CLOSED.db.outbox[0])
  {
    var p := Emitter([Event(0, CLOSED.db.outbox[0])], Posted);
    var w0 := CLOSED.(wire := {(0, 1)}, procs := CLOSED.procs[1 := p][2 := p]);
    BothPostedReachable(w0, p);
    var w1 := StripeStep(w0, 0, 1);
    StepReachable(w0, StripeTakes(0, 1), w1);
    var w2 := ReplyOkStep(w1, 1);
    StepReachable(w1, ReplyOk(1), w2);
    w := ReplyLostStep(w2, 2);
    StepReachable(w2, ReplyLost(2), w);
  }

  /** Without the restriction to one emitter SENT does not absorb: a late failure report turns the
      row back to RETRY although Stripe has been told and the row was SENT. */
  lemma OverlapUndoesSent() returns (w: World)
    ensures Reachable(w) && 0 in w.db.outbox && w.db.outbox[0].status == SENT && 0 in w.stripe
    ensures var w' := Apply(w, MarkFailed(2)); 0 in w'.db.outbox && w'.db.outbox[0].status == RETRY
  {
    var w3 := OneRepliedReachable();
    w := MarkSentStep(w3, 1);
    StepReachable(w3, MarkSent(1), w);
  }

  ghost predicate OneEmitter(w: World) {
    forall p, q | p in w.procs && q in w.procs && w.procs[p].Emitter? && w.procs[q].Emitter? :: p == q
  }

  /** No two calls of the emitter overlap anywhere in the run. */
  ghost predicate SoloRun(w: World, steps: seq<Step>)
    decreases |steps|
  {
    OneEmitter(w) && (steps != [] ==> SoloRun(Apply(w, steps[0]), steps[1..]))
  }

  /** The attempt count a row may have in each status. */
  predicate WithinBudget(row: OutboxRow) {
    && row.maxAttempts == DEFAULT_MAX_ATTEMPTS
    && match row.status
       case PENDING => row.attemptCount == 0
       case RETRY => 0 < row.attemptCount < row.maxAttempts
       case SENT => 0 < row.attemptCount <= row.maxAttempts
       case FAILED => row.attemptCount == row.maxAttempts
  }

  /** The emitter's copies are current, and are of distinct rows that may still be sent. */
  ghost predicate Fresh(db: Db, p: Proc) {
    p.Emitter? ==>
      && (forall i, j | 0 <= i < j < |p.batch| :: p.batch[i].id != p.batch[j].id)
      && (forall i | 0 <= i < |p.batch| ::
            p.batch[i].id in db.outbox && p.batch[i].seen == db.outbox[p.batch[i].id]
              && p.batch[i].seen.status in {PENDING, RETRY})
  }

  ghost predicate SoloInv(w: World) {
    && (forall id | id in w.db.outbox :: WithinBudget(w.db.outbox[id]))
    && (forall pid | pid in w.procs :: Fresh(w.db, w.procs[pid]))
  }

  lemma CommitKeepsSolo(w: World, pid: Pid)
    requires Inv(w) && SoloInv(w)
    ensures SoloInv(CommitStep(w, pid))
  {
    var w' := CommitStep(w, pid);
    forall q | q in w'.procs ensures Fresh(w'.db, w'.procs[q]) {
      if q != pid { assert Fresh(w.db, w.procs[q]); }
    }
  }

  /** The one emitter's mark leaves every other process with fresh rows. */
  lemma OthersFreshAfterMark(w: World, pid: Pid, w': World)
    requires SoloInv(w) && OneEmitter(w) && pid in w.procs && w.procs[pid].Emitter?
    requires forall q | q in w'.procs && q != pid :: q in w.procs && w'.procs[q] == w.procs[q]
    ensures forall q | q in w'.procs && q != pid :: Fresh(w'.db, w'.procs[q])
  {
    forall q | q in w'.procs && q != pid ensures Fresh(w'.db, w'.procs[q]) {
      assert !w.procs[q].Emitter?;
    }
  }

  lemma MarkSentKeepsSolo(w: World, pid: Pid)
    requires Inv(w) && SoloInv(w) && OneEmitter(w)
    ensures SoloInv(MarkSentStep(w, pid))
  {
    var w' := MarkSentStep(w, pid);
    if w' != w {
      assert Fresh(w.db, w.procs[pid]);
      assert WithinBudget(w.db.outbox[Current(w, pid).id]);
      OthersFreshAfterMark(w, pid, w');
    }
  }

  lemma MarkFailedKeepsSolo(w: World, pid: Pid)
    requires Inv(w) && SoloInv(w) && OneEmitter(w)
    ensures SoloInv(MarkFailedStep(w, pid))
  {
    var w' := MarkFailedStep(w, pid);
    if w' != w {
      assert Fresh(w.db, w.procs[pid]);
      assert WithinBudget(w.db.outbox[Current(w, pid).id]);
      OthersFreshAfterMark(w, pid, w');
    }
  }

  /** Steps that leave the outbox alone, and at most start one process or move it on. */
  lemma LocalKeepsSolo(w: World, w': World, pid: Pid)
    requires SoloInv(w) && w'.db.outbox == w.db.outbox
    requires forall q | q in w'.procs && q != pid :: q in w.procs && w'.procs[q] == w.procs[q]
    requires pid in w'.procs ==>
               || Fresh(w'.db, w'.procs[pid])
               || (pid in w.procs && w.procs[pid].Emitter? && w'.procs[pid].Emitter?
                   && w'.procs[pid].batch == w.procs[pid].batch)
    ensures SoloInv(w')
  {
    forall q | q in w'.procs ensures Fresh(w'.db, w'.procs[q]) {
      if q in w.procs { assert Fresh(w.db, w.procs[q]); }
    }
  }

  lemma OutboxSameKeepsSolo(w: World, w': World)
    requires SoloInv(w) && w'.db.outbox == w.db.outbox && w'.procs == w.procs
    ensures SoloInv(w')
  {
    forall q | q in w'.procs ensures Fresh(w'.db, w'.procs[q]) {
      assert Fresh(w.db, w.procs[q]);
    }
  }

  lemma StartsKeepSolo(w: World, step: Step)
    requires SoloInv(w) && (step.StartCloser? || step.StartEmitter? || step.StampEnd? || step.Crash?)
    ensures SoloInv(Apply(w, step))
  {
    LocalKeepsSolo(w, Apply(w, step), step.pid);
  }

  lemma RepliesKeepSolo(w: World, step: Step)
    requires SoloInv(w) && (step.Post? || step.ReplyOk? || step.ReplyLost? || step.MarkSentRejected?)
    ensures SoloInv(Apply(w, step))
  {
    LocalKeepsSolo(w, Apply(w, step), step.pid);
  }

  lemma SharedKeepSolo(w: World, step: Step)
    requires SoloInv(w) && (step.Tick? || step.OpenSession? || step.StripeTakes?)
    ensures SoloInv(Apply(w, step))
  {
    OutboxSameKeepsSolo(w, Apply(w, step));
  }

  lemma QuietStepKeepsSolo(w: World, step: Step)
    requires SoloInv(w) && !step.CommitClose? && !step.MarkSent? && !step.MarkFailed?
    ensures SoloInv(Apply(w, step))
  {
    if step.StartCloser? || step.StartEmitter? || step.StampEnd? || step.Crash? {
      StartsKeepSolo(w, step);
    } else if step.Post? || step.ReplyOk? || step.ReplyLost? || step.MarkSentRejected? {
      RepliesKeepSolo(w, step);
    } else {
      SharedKeepSolo(w, step);
    }
  }

  lemma StepKeepsSolo(w: World, step: Step)
    requires Inv(w) && SoloInv(w) && OneEmitter(w)
    ensures SoloInv(Apply(w, step))
  {
    match step
    case CommitClose(pid) => CommitKeepsSolo(w, pid);
    case MarkSent(pid) => MarkSentKeepsSolo(w, pid);
    case MarkFailed(pid) => MarkFailedKeepsSolo(w, pid);
    case _ => QuietStepKeepsSolo(w, step);
  }

  lemma {:induction false} ExecKeepsSolo(w: World, steps: seq<Step>)
    requires Inv(w) && SoloInv(w) && SoloRun(w, steps)
    ensures SoloInv(Exec(w, steps))
    decreases |steps|
  {
    if steps != [] {
      StepKeeps(w, steps[0]);
      StepKeepsSolo(w, steps[0]);
      ExecKeepsSolo(Apply(w, steps[0]), steps[1..]);
    }
  }

  /** With one emitter at a time no row is attempted more than `maxAttempts` times, and it is FAILED
      exactly when all attempts are spent without being SENT. */
  lemma AttemptBudget(steps: seq<Step>, id: SessionId)
    requires SoloRun(Start, steps) && id in Exec(Start, steps).db.outbox
    ensures var row := Exec(Start, steps).db.outbox[id];
            && row.attemptCount <= row.maxAttempts == DEFAULT_MAX_ATTEMPTS
            && (row.status == FAILED <==> row.attemptCount == row.maxAttempts && row.status != SENT)
            && (row.status == PENDING <==> row.attemptCount == 0)
  {
    ExecKeepsSolo(Start, steps);
    assert WithinBudget(Exec(Start, steps).db.outbox[id]);
  }

  lemma FreshNeverFailsSent(w: World, step: Step, id: SessionId)
    requires SoloInv(w) && id in w.db.outbox && w.db.outbox[id].status == SENT
    ensures !MarksFailed(w, step, id)
  {
    if step.MarkFailed? && step.pid in w.procs {
      assert Fresh(w.db, w.procs[step.pid]);
    }
  }

  /** With one emitter at a time SENT absorbs. */
  lemma {:induction false} SentAbsorbs(w: World, steps: seq<Step>, id: SessionId)
    requires Inv(w) && SoloInv(w) && SoloRun(w, steps)
    requires id in w.db.outbox && w.db.outbox[id].status == SENT
    ensures id in Exec(w, steps).db.outbox && Exec(w, steps).db.outbox[id].status == SENT
    decreases |steps|
  {
    if steps != [] {
      var step := steps[0];
      FreshNeverFailsSent(w, step, id);
      SentIsKeptIff(w, step, id);
      StepKeeps(w, step);
      StepKeepsSolo(w, step);
      SentAbsorbs(Apply(w, step), steps[1..], id);
    }
  }
}
