/**
 The session and meter tables as the services update them: the closers' loops and the emitter's
 loop, with the transactions of other processes happening between their own.
 */
module BillingStore {
  import opened Wrappers
  import opened Metering

  /** One transaction on the two tables. */
  datatype Act =
    | OpenAct(id: SessionId, ws: WorkspaceId, startMs: int, price: nat)
    | CloseAct(id: SessionId, endMs: int)
    | SentAct(id: SessionId)
    | FailedAct(id: SessionId, seen: OutboxRow, nowMs: int)

  function Closed(db: Db, snap: Snapshot, endMs: int): Db {
    var r := CloseTx(db, snap, endMs);
    if r.Some? then r.value else db
  }

  /** The tables after a transaction; one that the database refuses changes nothing.  A closer works from
      a row it has read; start and price never change, so it may as well have read them just now. */
  ghost function Perform(db: Db, act: Act): Db {
    match act
    case OpenAct(id, ws, startMs, price) =>
      if id in db.sessions || HasRunning(db, ws) then db
      else db.(sessions := db.sessions[id := NewSession(ws, startMs, price)])
    case CloseAct(id, endMs) => if id in db.sessions then Closed(db, SnapshotOf(db, id), endMs) else db
    case SentAct(id) => if id in db.outbox && id in db.sessions then SentTx(db, id) else db
    case FailedAct(id, seen, nowMs) => if id in db.outbox then FailedTx(db, id, seen, nowMs) else db
  }

  ghost function PerformAll(db: Db, acts: seq<Act>): Db
    decreases |acts|
  {
    if acts == [] then db else PerformAll(Perform(db, acts[0]), acts[1..])
  }

  lemma PerformKeeps(db: Db, act: Act)
    requires RowsMatch(db) && OneRunningEach(db)
    ensures var db' := Perform(db, act); RowsMatch(db') && OneRunningEach(db') && DbSettled(db, db')
  {
    match act
    case OpenAct(id, ws, startMs, price) =>
      if id !in db.sessions && !HasRunning(db, ws) { OpenKeeps(db, id, NewSession(ws, startMs, price)); }
    case CloseAct(id, endMs) => if id in db.sessions { CloseTxKeeps(db, id, endMs); }
    case SentAct(id) => if id in db.outbox { SentTxKeeps(db, id); }
    case FailedAct(id, seen, nowMs) => if id in db.outbox { FailedTxKeeps(db, id, seen, nowMs); }
  }

  lemma {:induction false} PerformAllKeeps(db: Db, acts: seq<Act>)
    requires RowsMatch(db) && OneRunningEach(db)
    ensures var db' := PerformAll(db, acts); RowsMatch(db') && OneRunningEach(db') && DbSettled(db, db')
    decreases |acts|
  {
    if acts != [] {
      var db1 := Perform(db, acts[0]);
      PerformKeeps(db, acts[0]);
      PerformAllKeeps(db1, acts[1..]);
      DbSettledTransitive(db, db1, PerformAll(db, acts));
    }
  }

  lemma DbSettledTransitive(a: Db, b: Db, c: Db)
    requires DbSettled(a, b) && DbSettled(b, c)
    ensures DbSettled(a, c)
  {
  }

  lemma {:induction false} PerformAllAppend(db: Db, acts: seq<Act>, more: seq<Act>)
    ensures PerformAll(db, acts + more) == PerformAll(PerformAll(db, acts), more)
    decreases |acts|
  {
    if acts == [] {
      assert acts + more == more;
    } else {
      assert (acts + more)[1..] == acts[1..] + more;
      PerformAllAppend(Perform(db, acts[0]), acts[1..], more);
    }
  }

  /** The transactions of one closing loop: before its i-th close, other processes run `others(i)`. */
  ghost function Schedule(snaps: seq<Snapshot>, endTimes: nat -> int, others: nat -> seq<Act>, n: nat): seq<Act>
    requires n <= |snaps|
  {
    if n == 0 then []
    else Schedule(snaps, endTimes, others, n - 1) + others(n - 1) + [CloseAct(snaps[n - 1].id, endTimes(n - 1))]
  }

  ghost predicate EndedUpTo(db: Db, snaps: seq<Snapshot>, n: nat)
    requires n <= |snaps|
  {
    forall k | 0 <= k < n :: snaps[k].id in db.sessions && db.sessions[snaps[k].id].status == ENDED
  }

  ghost predicate Sound(db0: Db, db: Db) {
    RowsMatch(db) && OneRunningEach(db) && DbSettled(db0, db)
  }

  /** A row that was read from the tables as they were at first. */
  ghost predicate ReadIn(db0: Db, snap: Snapshot) {
    snap.id in db0.sessions && snap == SnapshotOf(db0, snap.id)
  }

  lemma ScheduleStep(db: Db, snaps: seq<Snapshot>, endTimes: nat -> int, others: nat -> seq<Act>, i: nat)
    requires i < |snaps|
    ensures PerformAll(db, Schedule(snaps, endTimes, others, i + 1))
         == Perform(PerformAll(PerformAll(db, Schedule(snaps, endTimes, others, i)), others(i)),
                    CloseAct(snaps[i].id, endTimes(i)))
  {
    var close := CloseAct(snaps[i].id, endTimes(i));
    var db2 := PerformAll(PerformAll(db, Schedule(snaps, endTimes, others, i)), others(i));
    PerformAllAppend(db, Schedule(snaps, endTimes, others, i), others(i));
    PerformAllAppend(db, Schedule(snaps, endTimes, others, i) + others(i), [close]);
    assert PerformAll(db2, [close]) == PerformAll(Perform(db2, close), [close][1..]);
  }

  lemma OthersKeepSound(db0: Db, db1: Db, acts: seq<Act>)
    requires Sound(db0, db1)
    ensures Sound(db0, PerformAll(db1, acts)) && DbSettled(db1, PerformAll(db1, acts))
  {
    PerformAllKeeps(db1, acts);
    DbSettledTransitive(db0, db1, PerformAll(db1, acts));
  }

  /** After a closer's transaction its session is ENDED, whoever ended it. */
  lemma CloseKeepsSound(db0: Db, db: Db, snap: Snapshot, endMs: int)
    requires Sound(db0, db) && ReadIn(db0, snap)
    ensures var db' := Perform(db, CloseAct(snap.id, endMs));
            && db' == Closed(db, snap, endMs) && Sound(db0, db') && DbSettled(db, db')
            && snap.id in db'.sessions && db'.sessions[snap.id].status == ENDED
  {
    PerformKeeps(db, CloseAct(snap.id, endMs));
    DbSettledTransitive(db0, db, Perform(db, CloseAct(snap.id, endMs)));
  }

  lemma EndedSurvives(db: Db, db': Db, snaps: seq<Snapshot>, n: nat)
    requires n <= |snaps| && DbSettled(db, db') && EndedUpTo(db, snaps, n)
    ensures EndedUpTo(db', snaps, n)
  {
  }

  lemma ClosingLoopStep(db0: Db, db1: Db, snaps: seq<Snapshot>, endTimes: nat -> int, others: nat -> seq<Act>, i: nat)
    requires i < |snaps| && ReadIn(db0, snaps[i])
    requires db1 == PerformAll(db0, Schedule(snaps, endTimes, others, i))
    requires Sound(db0, db1) && EndedUpTo(db1, snaps, i)
    ensures var db3 := Closed(PerformAll(db1, others(i)), snaps[i], endTimes(i));
            && db3 == PerformAll(db0, Schedule(snaps, endTimes, others, i + 1))
            && Sound(db0, db3) && EndedUpTo(db3, snaps, i + 1)
  {
    var db2 := PerformAll(db1, others(i));
    OthersKeepSound(db0, db1, others(i));
    EndedSurvives(db1, db2, snaps, i);
    CloseKeepsSound(db0, db2, snaps[i], endTimes(i));
    EndedSurvives(db2, Closed(db2, snaps[i], endTimes(i)), snaps, i);
    ScheduleStep(db0, snaps, endTimes, others, i);
  }

  // ---------------------------------------------------------------------------------------------
  // The emitter's batch
  // ---------------------------------------------------------------------------------------------

  /** What becomes of one attempt: no customer, refused by Stripe, taken and acknowledged, or taken
      with the reply lost. */
  datatype Reply = NoCustomer | Refused | Acknowledged | ReplyMissing

  predicate Taken(reply: Reply) {
    reply == Acknowledged || reply == ReplyMissing
  }

  datatype Books = Books(db: Db, stripe: map<SessionId, nat>)

  function AfterAttempt(b: Books, e: Event, reply: Reply, nowMs: int): Books {
    var stripe' := if Taken(reply) && e.id !in b.stripe then b.stripe[e.id := e.seen.valueSeconds] else b.stripe;
    if e.id !in b.db.outbox || e.id !in b.db.sessions then Books(b.db, stripe')
    else if reply == Acknowledged then Books(SentTx(b.db, e.id), stripe')
    else Books(FailedTx(b.db, e.id, e.seen, nowMs), stripe')
  }

  ghost function AfterBatch(b: Books, batch: seq<Event>, replies: nat -> Reply, nowMs: int, n: nat): Books
    requires n <= |batch|
  {
    if n == 0 then b else AfterAttempt(AfterBatch(b, batch, replies, nowMs, n - 1), batch[n - 1], replies(n - 1), nowMs)
  }

  /** One row after its attempt: SENT if acknowledged, otherwise FAILED exactly when this was the last
      attempt and before that RETRY, due again when the wait for that many failures is over; at Stripe if
      it was taken now or earlier, with its own value. */
  ghost predicate RowAfter(b: Books, a: Books, e: Event, reply: Reply, nowMs: int) {
    && e.id in a.db.outbox
    && var n := e.seen.attemptCount + 1;
    && a.db.outbox[e.id] == (
         if reply == Acknowledged then OutboxRow(e.seen.valueSeconds, SENT, n, e.seen.maxAttempts, None, Some(e.id))
         else if n >= e.seen.maxAttempts then
           OutboxRow(e.seen.valueSeconds, FAILED, n, e.seen.maxAttempts, None, e.seen.stripeMeterEventId)
         else
           OutboxRow(e.seen.valueSeconds, RETRY, n, e.seen.maxAttempts, Some(nowMs + NextBackoff(n)),
                     e.seen.stripeMeterEventId))
    && (e.id in a.stripe <==> e.id in b.stripe || Taken(reply))
    && (e.id in a.stripe ==> a.stripe[e.id] == e.seen.valueSeconds)
  }

  /** The rows of a batch are distinct and as read, and Stripe agrees on those it already has. */
  ghost predicate ReadFrom(b: Books, batch: seq<Event>) {
    && (forall i, j | 0 <= i < j < |batch| :: batch[i].id != batch[j].id)
    && (forall i | 0 <= i < |batch| ::
          && batch[i].id in b.db.outbox && batch[i].id in b.db.sessions && batch[i].seen == b.db.outbox[batch[i].id]
          && (batch[i].id in b.stripe ==> b.stripe[batch[i].id] == batch[i].seen.valueSeconds))
  }

  ghost predicate Holds(batch: seq<Event>, id: SessionId) {
    exists i :: 0 <= i < |batch| && batch[i].id == id
  }

  lemma HoldsGrows(batch: seq<Event>, e: Event)
    ensures Holds(batch + [e], e.id) && forall id | Holds(batch, id) :: Holds(batch + [e], id)
  {
    var more := batch + [e];
    assert more[|batch|].id == e.id;
    forall id | Holds(batch, id) ensures Holds(more, id) {
      var i :| 0 <= i < |batch| && batch[i].id == id;
      assert more[i].id == id;
    }
  }

  ghost predicate DistinctAsRead(rows: map<SessionId, OutboxRow>, batch: seq<Event>) {
    && (forall i, j | 0 <= i < j < |batch| :: batch[i].id != batch[j].id)
    && (forall i | 0 <= i < |batch| :: batch[i].id in rows && batch[i].seen == rows[batch[i].id])
  }

  /** The row is at least as young as every row of the batch. */
  ghost predicate NotBefore(createdAt: SessionId -> int, batch: seq<Event>, id: SessionId) {
    forall i | 0 <= i < |batch| :: createdAt(batch[i].id) <= createdAt(id)
  }

  /** What one query of the emitter returns: distinct rows as they stand, each PENDING or RETRY with its
      time come, the oldest first; and a row that has the status and the time is left out only by a full
      batch of rows at least as old. */
  ghost predicate Picks(rows: map<SessionId, OutboxRow>, createdAt: SessionId -> int, nowMs: int, batch: seq<Event>) {
    && |batch| <= BATCH_SIZE
    && DistinctAsRead(rows, batch)
    && (forall i | 0 <= i < |batch| ::
          && (batch[i].seen.status == PENDING || batch[i].seen.status == RETRY)
          && (batch[i].seen.nextAttemptAt == None || batch[i].seen.nextAttemptAt.value <= nowMs))
    && (forall i, j | 0 <= i < j < |batch| :: createdAt(batch[i].id) <= createdAt(batch[j].id))
    && (forall id | id in rows && (rows[id].status == PENDING || rows[id].status == RETRY)
          && (rows[id].nextAttemptAt == None || rows[id].nextAttemptAt.value <= nowMs) ::
          Holds(batch, id) || (|batch| == BATCH_SIZE && NotBefore(createdAt, batch, id)))
  }

  lemma AttemptOutcome(b: Books, a: Books, e: Event, reply: Reply, nowMs: int)
    requires e.id in a.db.outbox && e.id in a.db.sessions && a.db.outbox[e.id] == e.seen
    requires e.id in b.stripe <==> e.id in a.stripe
    requires e.id in a.stripe ==> a.stripe[e.id] == e.seen.valueSeconds
    ensures var a' := AfterAttempt(a, e, reply, nowMs);
            && RowAfter(b, a', e, reply, nowMs)
            && a'.db.outbox.Keys == a.db.outbox.Keys && a'.db.sessions.Keys == a.db.sessions.Keys
            && (forall id | id in a.db.outbox && id != e.id :: a'.db.outbox[id] == a.db.outbox[id])
            && (forall id | id != e.id :: id in a'.stripe <==> id in a.stripe)
            && (forall id | id in a.stripe :: a'.stripe[id] == a.stripe[id])
  {
  }

  ghost predicate BatchAfter(b: Books, a: Books, batch: seq<Event>, replies: nat -> Reply, nowMs: int, n: nat)
    requires n <= |batch|
  {
    && a.db.outbox.Keys == b.db.outbox.Keys && a.db.sessions.Keys == b.db.sessions.Keys
    && (forall i | 0 <= i < n :: RowAfter(b, a, batch[i], replies(i), nowMs))
    && (forall i | n <= i < |batch| ::
          && batch[i].id in a.db.outbox && a.db.outbox[batch[i].id] == batch[i].seen
          && (batch[i].id in a.stripe <==> batch[i].id in b.stripe))
    && (forall id | id in b.stripe :: id in a.stripe && a.stripe[id] == b.stripe[id])
  }

  lemma BatchStep(b: Books, a: Books, batch: seq<Event>, replies: nat -> Reply, nowMs: int, n: nat)
    requires 0 < n <= |batch| && ReadFrom(b, batch) && BatchAfter(b, a, batch, replies, nowMs, n - 1)
    ensures BatchAfter(b, AfterAttempt(a, batch[n - 1], replies(n - 1), nowMs), batch, replies, nowMs, n)
  {
    var a' := AfterAttempt(a, batch[n - 1], replies(n - 1), nowMs);
    AttemptOutcome(b, a, batch[n - 1], replies(n - 1), nowMs);
    forall i | 0 <= i < n ensures RowAfter(b, a', batch[i], replies(i), nowMs) {
      if i < n - 1 { assert RowAfter(b, a, batch[i], replies(i), nowMs); }
    }
  }

  lemma BatchStart(b: Books, batch: seq<Event>, replies: nat -> Reply, nowMs: int)
    requires ReadFrom(b, batch)
    ensures BatchAfter(b, b, batch, replies, nowMs, 0)
  {
  }

  lemma BatchNext(b: Books, batch: seq<Event>, replies: nat -> Reply, nowMs: int, n: nat)
    requires 0 < n <= |batch| && ReadFrom(b, batch)
    requires BatchAfter(b, AfterBatch(b, batch, replies, nowMs, n - 1), batch, replies, nowMs, n - 1)
    ensures BatchAfter(b, AfterBatch(b, batch, replies, nowMs, n), batch, replies, nowMs, n)
  {
    BatchStep(b, AfterBatch(b, batch, replies, nowMs, n - 1), batch, replies, nowMs, n);
  }

  lemma {:induction false} BatchOutcome(b: Books, batch: seq<Event>, replies: nat -> Reply, nowMs: int, n: nat)
    requires n <= |batch| && ReadFrom(b, batch)
    ensures BatchAfter(b, AfterBatch(b, batch, replies, nowMs, n), batch, replies, nowMs, n)
  {
    if n == 0 {
      BatchStart(b, batch, replies, nowMs);
    } else {
      BatchOutcome(b, batch, replies, nowMs, n - 1);
      BatchNext(b, batch, replies, nowMs, n);
    }
  }

  /** The query under way: the due rows are in the batch, oldest first, or in `todo`. */
  ghost predicate PickedSoFar(rows: map<SessionId, OutboxRow>, createdAt: SessionId -> int, nowMs: int,
                              batch: seq<Event>,
                              todo: set<SessionId>)
  {
    && todo <= rows.Keys && |batch| <= BATCH_SIZE && DistinctAsRead(rows, batch)
    && (forall id | id in todo :: Due(rows[id], nowMs) && NotBefore(createdAt, batch, id))
    && (forall i | 0 <= i < |batch| :: Due(batch[i].seen, nowMs) && batch[i].id !in todo)
    && (forall i, j | 0 <= i < j < |batch| :: createdAt(batch[i].id) <= createdAt(batch[j].id))
    && (forall id | id in rows && Due(rows[id], nowMs) :: id in todo || Holds(batch, id))
  }

  lemma PickNext(rows: map<SessionId, OutboxRow>, createdAt: SessionId -> int, nowMs: int, batch: seq<Event>,
                 todo: set<SessionId>, id: SessionId)
    requires PickedSoFar(rows, createdAt, nowMs, batch, todo) && |batch| < BATCH_SIZE
    requires id in todo && forall o | o in todo :: createdAt(id) <= createdAt(o)
    ensures PickedSoFar(rows, createdAt, nowMs, batch + [Event(id, rows[id])], todo - {id})
  {
    HoldsGrows(batch, Event(id, rows[id]));
  }

  lemma PickedAll(rows: map<SessionId, OutboxRow>, createdAt: SessionId -> int, nowMs: int, batch: seq<Event>,
                  todo: set<SessionId>)
    requires PickedSoFar(rows, createdAt, nowMs, batch, todo) && (todo == {} || |batch| == BATCH_SIZE)
    ensures Picks(rows, createdAt, nowMs, batch)
  {
  }

  lemma PicksAreRead(b: Books, createdAt: SessionId -> int, nowMs: int, batch: seq<Event>)
    requires Picks(b.db.outbox, createdAt, nowMs, batch)
    requires forall id | id in b.db.outbox :: id in b.db.sessions
    requires forall id | id in b.stripe && id in b.db.outbox :: b.stripe[id] == b.db.outbox[id].valueSeconds
    ensures ReadFrom(b, batch)
  {
  }

  lemma NextIsThere(b: Books, batch: seq<Event>, replies: nat -> Reply, nowMs: int, n: nat)
    requires n < |batch| && ReadFrom(b, batch)
    ensures var db := AfterBatch(b, batch, replies, nowMs, n).db; batch[n].id in db.outbox && batch[n].id in db.sessions
  {
    BatchOutcome(b, batch, replies, nowMs, n);
  }

  lemma BatchRows(b: Books, batch: seq<Event>, replies: nat -> Reply, nowMs: int)
    requires ReadFrom(b, batch)
    ensures forall i | 0 <= i < |batch| ::
              RowAfter(b, AfterBatch(b, batch, replies, nowMs, |batch|), batch[i], replies(i), nowMs)
  {
    BatchOutcome(b, batch, replies, nowMs, |batch|);
  }

  // ---------------------------------------------------------------------------------------------
  // The tables
  // ---------------------------------------------------------------------------------------------

  class Store {
    var sessions: map<SessionId, Session>
    var outbox: map<SessionId, OutboxRow>
    var stripe: map<SessionId, nat>

    ghost function Rows(): Db
      reads this
    {
      Db(sessions, outbox)
    }

    constructor ()
      ensures Rows() == Start.db && stripe == map[]
    {
      sessions, outbox, stripe := map[], map[], map[];
    }

    /** `usageSession.findMany` of a workspace's RUNNING rows. */
    method FindRunning(ws: WorkspaceId) returns (snaps: seq<Snapshot>)
      ensures forall i | 0 <= i < |snaps| ::
                && snaps[i].id in sessions && snaps[i] == SnapshotOf(Rows(), snaps[i].id)
                && sessions[snaps[i].id].workspaceId == ws && sessions[snaps[i].id].status == RUNNING
      ensures forall id | id in sessions && sessions[id].workspaceId == ws && sessions[id].status == RUNNING ::
                exists i :: 0 <= i < |snaps| && snaps[i].id == id
    {
      snaps := [];
      var todo := sessions.Keys;
      while todo != {}
        invariant todo <= sessions.Keys
        invariant forall i | 0 <= i < |snaps| ::
                    && snaps[i].id in sessions && snaps[i] == SnapshotOf(Rows(), snaps[i].id)
                    && sessions[snaps[i].id].workspaceId == ws && sessions[snaps[i].id].status == RUNNING
        invariant forall id | id in sessions && id !in todo && sessions[id].workspaceId == ws
                  && sessions[id].status == RUNNING ::
                    exists i :: 0 <= i < |snaps| && snaps[i].id == id
        decreases todo
      {
        var id :| id in todo;
        todo := todo - {id};
        if sessions[id].workspaceId == ws && sessions[id].status == RUNNING {
          ghost var before := snaps;
          snaps := snaps + [Snapshot(id, sessions[id].startMs, sessions[id].pricePerHourCents)];
          assert snaps[|before|].id == id;
          assert forall i | 0 <= i < |before| :: snaps[i] == before[i];
        }
      }
    }

    /** The closing `$transaction`; false is P2025. */
    method CloseTransaction(snap: Snapshot, endMs: int) returns (committed: bool)
      modifies this
      ensures Rows() == Closed(old(Rows()), snap, endMs) && stripe == old(stripe)
      ensures committed == CloseTx(old(Rows()), snap, endMs).Some?
      ensures committed <==> snap.id in old(sessions) && old(sessions)[snap.id].status == RUNNING
      ensures !committed ==> Rows() == old(Rows())
      ensures committed ==>
                var n := TotalSeconds(snap.startMs, endMs);
                && sessions == old(sessions)[snap.id := old(sessions)[snap.id].(
                     status := ENDED, endMs := Some(endMs), totalSeconds := n, billedSeconds := n,
                     billedCents := BilledCents(n, snap.pricePerHourCents))]
                && outbox == old(outbox)[snap.id := outbox[snap.id]]
                && outbox[snap.id].valueSeconds == n && outbox[snap.id].status == PENDING
                && outbox[snap.id].nextAttemptAt == Some(endMs)
                && (snap.id !in old(outbox) ==> outbox[snap.id].attemptCount == 0 && outbox[snap.id].maxAttempts == 20)
    {
      if snap.id !in sessions || sessions[snap.id].status != RUNNING {
        return false;
      }
      var ended := EndedRow(sessions[snap.id], snap, endMs);
      sessions := sessions[snap.id := ended];
      if snap.id in outbox {
        outbox := outbox[snap.id := outbox[snap.id].(valueSeconds := ended.totalSeconds, status := PENDING,
                                                     nextAttemptAt := Some(endMs))];
      } else {
        outbox := outbox[snap.id := OutboxRow(ended.totalSeconds, PENDING, 0, DEFAULT_MAX_ATTEMPTS, Some(endMs), None)];
      }
      committed := true;
    }

    /** `usageSession.create`; the partial unique index refuses a second RUNNING row. */
    method CreateSession(id: SessionId, ws: WorkspaceId, startMs: int, price: nat) returns (created: bool)
      modifies this
      ensures Rows() == Perform(old(Rows()), OpenAct(id, ws, startMs, price)) && stripe == old(stripe)
      ensures created <==> id !in old(sessions) && !HasRunning(old(Rows()), ws)
      ensures outbox == old(outbox)
      ensures sessions == if created
                          then old(sessions)[id := Session(ws, startMs, price, RUNNING, None, 0, 0, 0, None)]
                          else old(sessions)
    {
      var running := FindRunning(ws);
      if id in sessions || running != [] {
        assert running != [] ==> HasRunning(Rows(), ws) by {
          if running != [] { assert running[0].id in Rows().sessions; }
        }
        return false;
      }
      sessions := sessions[id := NewSession(ws, startMs, price)];
      created := true;
    }

    /** Transactions of other processes. */
    method Others(acts: seq<Act>)
      modifies this
      ensures Rows() == PerformAll(old(Rows()), acts) && stripe == old(stripe)
    {
      for i := 0 to |acts|
        invariant PerformAll(Rows(), acts[i..]) == PerformAll(old(Rows()), acts)
        invariant stripe == old(stripe)
      {
        assert acts[i..][1..] == acts[i + 1..];
        match acts[i]
        case OpenAct(id, ws, startMs, price) => var _ := CreateSession(id, ws, startMs, price);
        case CloseAct(id, endMs) =>
          if id in sessions {
            var _ := CloseTransaction(Snapshot(id, sessions[id].startMs, sessions[id].pricePerHourCents), endMs);
          }
        case SentAct(id) => MarkSent(id);
        case FailedAct(id, seen, nowMs) => MarkFailed(id, seen, nowMs);
      }
    }

    method MarkSent(id: SessionId)
      modifies this
      ensures Rows() == Perform(old(Rows()), SentAct(id)) && stripe == old(stripe)
      ensures id in old(outbox) && id in old(sessions) ==>
                && outbox == old(outbox)[id := OutboxRow(old(outbox)[id].valueSeconds, SENT,
                                                         old(outbox)[id].attemptCount + 1,
                                                         old(outbox)[id].maxAttempts, None, Some(id))]
                && sessions == old(sessions)[id := old(sessions)[id].(stripeMeterEventId := Some(id))]
    {
      if id in outbox && id in sessions {
        outbox := outbox[id := outbox[id].(status := SENT, nextAttemptAt := None, stripeMeterEventId := Some(id),
                                           attemptCount := outbox[id].attemptCount + 1)];
        sessions := sessions[id := sessions[id].(stripeMeterEventId := Some(id))];
      }
    }

    method MarkFailed(id: SessionId, seen: OutboxRow, nowMs: int)
      modifies this
      ensures Rows() == Perform(old(Rows()), FailedAct(id, seen, nowMs)) && stripe == old(stripe)
      ensures sessions == old(sessions)
      ensures id in old(outbox) ==>
                var last := seen.attemptCount + 1 >= seen.maxAttempts;
                outbox == old(outbox)[id := old(outbox)[id].(
                  status := if last then FAILED else RETRY, attemptCount := old(outbox)[id].attemptCount + 1,
                  nextAttemptAt := if last then None else Some(nowMs + NextBackoff(seen.attemptCount + 1)))]
    {
      if id in outbox {
        var attempt := seen.attemptCount + 1;
        if attempt >= seen.maxAttempts {
          outbox := outbox[id := outbox[id].(status := FAILED, attemptCount := outbox[id].attemptCount + 1,
                                             nextAttemptAt := None)];
        } else {
          outbox := outbox[id := outbox[id].(status := RETRY, attemptCount := outbox[id].attemptCount + 1,
                                             nextAttemptAt := Some(nowMs + NextBackoff(attempt)))];
        }
      }
    }

    /** Closes every RUNNING session of a workspace, one transaction each, while other processes run
        `others(i)` before the i-th.  Whoever wins each race, every session found is ENDED on return
        with its meter row, and nothing already settled has moved. */
    method FinalizeUsageSessions(ws: WorkspaceId, endTimes: nat -> int, others: nat -> seq<Act>)
      returns (snaps: seq<Snapshot>)
      requires RowsMatch(Rows()) && OneRunningEach(Rows())
      modifies this
      ensures Rows() == PerformAll(old(Rows()), Schedule(snaps, endTimes, others, |snaps|))
      ensures RowsMatch(Rows()) && OneRunningEach(Rows()) && DbSettled(old(Rows()), Rows())
      ensures forall id | id in old(sessions) && old(sessions)[id].workspaceId == ws ::
                id in sessions && sessions[id].status == ENDED && WellBilled(sessions[id])
                && id in outbox && outbox[id].valueSeconds == sessions[id].billedSeconds
    {
      ghost var db0 := Rows();
      snaps := FindRunning(ws);
      for i := 0 to |snaps|
        invariant Rows() == PerformAll(db0, Schedule(snaps, endTimes, others, i))
        invariant Sound(db0, Rows()) && EndedUpTo(Rows(), snaps, i)
      {
        ClosingLoopStep(db0, Rows(), snaps, endTimes, others, i);
        Others(others(i));
        var _ := CloseTransaction(snaps[i], endTimes(i));
      }
    }

    method Oldest(ids: set<SessionId>, createdAt: SessionId -> int) returns (oldest: SessionId)
      requires ids != {}
      ensures oldest in ids && forall id | id in ids :: createdAt(oldest) <= createdAt(id)
    {
      oldest :| oldest in ids;
      var todo := ids - {oldest};
      while todo != {}
        invariant todo <= ids && oldest in ids
        invariant forall id | id in ids && id !in todo :: createdAt(oldest) <= createdAt(id)
        decreases todo
      {
        var id :| id in todo;
        todo := todo - {id};
        if createdAt(id) < createdAt(oldest) { oldest := id; }
      }
    }

    /** `workspaceMeterEventOutbox.findMany` of due rows, the oldest first, at most a batch of them. */
    method FindDue(nowMs: int, createdAt: SessionId -> int) returns (batch: seq<Event>)
      ensures Picks(outbox, createdAt, nowMs, batch)
    {
      batch := [];
      var todo := set id | id in outbox && Due(outbox[id], nowMs);
      while todo != {} && |batch| < BATCH_SIZE
        invariant PickedSoFar(outbox, createdAt, nowMs, batch, todo)
        decreases todo
      {
        var id := Oldest(todo, createdAt);
        PickNext(outbox, createdAt, nowMs, batch, todo, id);
        todo := todo - {id};
        batch := batch + [Event(id, outbox[id])];
      }
      PickedAll(outbox, createdAt, nowMs, batch, todo);
    }

    /** One attempt at one row. */
    method ProcessMeterOutboxEvent(e: Event, reply: Reply, nowMs: int)
      requires e.id in outbox && e.id in sessions
      modifies this
      ensures Books(Rows(), stripe) == AfterAttempt(Books(old(Rows()), old(stripe)), e, reply, nowMs)
    {
      if Taken(reply) && e.id !in stripe {
        stripe := stripe[e.id := e.seen.valueSeconds];
      }
      if reply == Acknowledged {
        MarkSent(e.id);
      } else {
        MarkFailed(e.id, e.seen, nowMs);
      }
    }

    /** One tick of the emitter with nothing else running: each row picked is attempted once. */
    method ProcessWorkspaceMeterEvents(nowMs: int, createdAt: SessionId -> int, replies: nat -> Reply)
      returns (batch: seq<Event>)
      requires forall id | id in outbox :: id in sessions
      requires forall id | id in stripe && id in outbox :: stripe[id] == outbox[id].valueSeconds
      modifies this
      ensures Picks(old(outbox), createdAt, nowMs, batch)
      ensures Books(Rows(), stripe) == AfterBatch(Books(old(Rows()), old(stripe)), batch, replies, nowMs, |batch|)
      ensures forall i | 0 <= i < |batch| ::
              RowAfter(Books(old(Rows()), old(stripe)), Books(Rows(), stripe), batch[i], replies(i), nowMs)
    {
      ghost var b := Books(Rows(), stripe);
      batch := FindDue(nowMs, createdAt);
      PicksAreRead(b, createdAt, nowMs, batch);
      for i := 0 to |batch|
        invariant Books(Rows(), stripe) == AfterBatch(b, batch, replies, nowMs, i)
      {
        NextIsThere(b, batch, replies, nowMs, i);
        ProcessMeterOutboxEvent(batch[i], replies(i), nowMs);
      }
      BatchRows(b, batch, replies, nowMs);
    }
  }
}
