/**
 The emitter tick after tick: no row that waits for its report is passed over for ever, however the
 attempts at the others end and whatever sessions open and close between the ticks.
 */
module MeterDelivery {
  import opened Wrappers
  import opened Metering
  import opened BillingStore

  /** One tick, and what the API and the closers did to the tables since the last one. */
  datatype Round = Round(others: seq<Act>, nowMs: int, batch: seq<Event>, replies: nat -> Reply)

  predicate Waiting(row: OutboxRow) {
    row.status == PENDING || row.status == RETRY
  }

  ghost predicate IsWaiting(b: Books, id: SessionId) {
    id in b.db.outbox && Waiting(b.db.outbox[id])
  }

  ghost function AtTick(b: Books, r: Round): Books {
    Books(PerformAll(b.db, r.others), b.stripe)
  }

  ghost function AfterRound(b: Books, r: Round): Books {
    AfterBatch(AtTick(b, r), r.batch, r.replies, r.nowMs, |r.batch|)
  }

  ghost function AfterRounds(b: Books, rounds: seq<Round>): Books
    decreases |rounds|
  {
    if rounds == [] then b else AfterRounds(AfterRound(b, rounds[0]), rounds[1..])
  }

  /** A tick picks its batch by the query; the rows that closers have added are younger than those that
      were there. */
  ghost predicate RoundOk(b: Books, r: Round, createdAt: SessionId -> int) {
    && (forall i | 0 <= i < |r.others| :: r.others[i].OpenAct? || r.others[i].CloseAct?)
    && Picks(AtTick(b, r).db.outbox, createdAt, r.nowMs, r.batch)
    && forall x, y | x in b.db.outbox && y in AtTick(b, r).db.outbox && y !in b.db.outbox ::
         createdAt(x) < createdAt(y)
  }

  ghost predicate RoundsOk(b: Books, rounds: seq<Round>, createdAt: SessionId -> int)
    decreases |rounds|
  {
    rounds != [] ==> RoundOk(b, rounds[0], createdAt) && RoundsOk(AfterRound(b, rounds[0]), rounds[1..], createdAt)
  }

  /** The tables as transactions leave them, and Stripe holding values of their rows alone. */
  ghost predicate Sane(b: Books) {
    && RowsMatch(b.db) && OneRunningEach(b.db)
    && (forall id | id in b.stripe :: id in b.db.outbox && b.stripe[id] == b.db.outbox[id].valueSeconds)
    && DefaultBudgets(b.db.outbox)
  }

  ghost predicate DueBy(b: Books, id: SessionId, nowMs: int) {
    id in b.db.outbox && (b.db.outbox[id].nextAttemptAt.None? || b.db.outbox[id].nextAttemptAt.value <= nowMs)
  }

  // ---------------------------------------------------------------------------------------------
  // Attempts left
  // ---------------------------------------------------------------------------------------------

  /** The attempts a row may still take. */
  ghost function Left(rows: map<SessionId, OutboxRow>, id: SessionId): (n: nat)
    ensures id in rows && Waiting(rows[id]) ==> 0 < n
    ensures id in rows && rows[id].maxAttempts == DEFAULT_MAX_ATTEMPTS ==> n <= DEFAULT_MAX_ATTEMPTS
  {
    if id !in rows || !Waiting(rows[id]) then 0
    else if rows[id].attemptCount < rows[id].maxAttempts then rows[id].maxAttempts - rows[id].attemptCount
    else 1
  }

  ghost function AllLeft(rows: map<SessionId, OutboxRow>, ids: set<SessionId>): nat {
    if ids == {} then 0 else var id :| id in ids; Left(rows, id) + AllLeft(rows, ids - {id})
  }

  lemma {:induction false} AllLeftRemove(rows: map<SessionId, OutboxRow>, ids: set<SessionId>, id: SessionId)
    requires id in ids
    ensures AllLeft(rows, ids) == Left(rows, id) + AllLeft(rows, ids - {id})
  {
    var c :| c in ids && AllLeft(rows, ids) == Left(rows, c) + AllLeft(rows, ids - {c});
    if c != id {
      AllLeftRemove(rows, ids - {c}, id);
      AllLeftRemove(rows, ids - {id}, c);
      assert ids - {c} - {id} == ids - {id} - {c};
    }
  }

  lemma {:induction false} AllLeftSame(rows: map<SessionId, OutboxRow>, rows': map<SessionId, OutboxRow>,
                                       ids: set<SessionId>)
    requires forall id | id in ids :: Left(rows', id) == Left(rows, id)
    ensures AllLeft(rows', ids) == AllLeft(rows, ids)
  {
    if ids != {} {
      var id :| id in ids;
      AllLeftRemove(rows, ids, id);
      AllLeftRemove(rows', ids, id);
      AllLeftSame(rows, rows', ids - {id});
    }
  }

  lemma {:induction false} AllLeftBounded(rows: map<SessionId, OutboxRow>, ids: set<SessionId>)
    requires forall id | id in ids && id in rows :: rows[id].maxAttempts == DEFAULT_MAX_ATTEMPTS
    ensures AllLeft(rows, ids) <= DEFAULT_MAX_ATTEMPTS * |ids|
  {
    if ids != {} {
      var id :| id in ids;
      AllLeftRemove(rows, ids, id);
      AllLeftBounded(rows, ids - {id});
    }
  }

  // ---------------------------------------------------------------------------------------------
  // One round
  // ---------------------------------------------------------------------------------------------

  ghost predicate DefaultBudgets(rows: map<SessionId, OutboxRow>) {
    forall id | id in rows :: rows[id].maxAttempts == DEFAULT_MAX_ATTEMPTS
  }

  ghost predicate Extends(rows: map<SessionId, OutboxRow>, rows': map<SessionId, OutboxRow>) {
    forall id | id in rows :: id in rows' && rows'[id] == rows[id]
  }

  lemma OtherLeavesRows(db: Db, act: Act)
    requires RowsMatch(db) && DefaultBudgets(db.outbox) && (act.OpenAct? || act.CloseAct?)
    ensures Extends(db.outbox, Perform(db, act).outbox) && DefaultBudgets(Perform(db, act).outbox)
  {
  }

  /** Opening and closing sessions leaves every meter row there is as it was. */
  lemma {:induction false} OthersLeaveRows(db: Db, acts: seq<Act>)
    requires RowsMatch(db) && OneRunningEach(db) && DefaultBudgets(db.outbox)
    requires forall i | 0 <= i < |acts| :: acts[i].OpenAct? || acts[i].CloseAct?
    ensures Extends(db.outbox, PerformAll(db, acts).outbox) && DefaultBudgets(PerformAll(db, acts).outbox)
    decreases |acts|
  {
    if acts != [] {
      PerformKeeps(db, acts[0]);
      OtherLeavesRows(db, acts[0]);
      OthersLeaveRows(Perform(db, acts[0]), acts[1..]);
    }
  }

  lemma OthersKeepSane(b: Books, r: Round, createdAt: SessionId -> int)
    requires Sane(b) && RoundOk(b, r, createdAt)
    ensures Sane(AtTick(b, r))
    ensures Extends(b.db.outbox, AtTick(b, r).db.outbox)
  {
    OthersLeaveRows(b.db, r.others);
    PerformAllKeeps(b.db, r.others);
  }

  lemma AsReadIsReadFrom(b: Books, batch: seq<Event>)
    requires Sane(b) && DistinctAsRead(b.db.outbox, batch)
    ensures ReadFrom(b, batch)
  {
  }

  ghost predicate StandsAsRead(b: Books, e: Event) {
    e.id in b.db.outbox && e.id in b.db.sessions && b.db.outbox[e.id] == e.seen
  }

  lemma NextStands(b: Books, r: Round, n: nat)
    requires Sane(b) && DistinctAsRead(b.db.outbox, r.batch) && n < |r.batch|
    ensures StandsAsRead(AfterBatch(b, r.batch, r.replies, r.nowMs, n), r.batch[n])
  {
    AsReadIsReadFrom(b, r.batch);
    BatchOutcome(b, r.batch, r.replies, r.nowMs, n);
  }

  lemma SuccessKeepsSane(b: Books, e: Event, stripe: map<SessionId, nat>)
    requires Sane(b) && StandsAsRead(b, e) && Sane(b.(stripe := stripe))
    ensures Sane(Books(SentTx(b.db, e.id), stripe))
  {
    SentTxKeeps(b.db, e.id);
  }

  lemma FailureKeepsSane(b: Books, e: Event, nowMs: int, stripe: map<SessionId, nat>)
    requires Sane(b) && StandsAsRead(b, e) && Sane(b.(stripe := stripe))
    ensures Sane(Books(FailedTx(b.db, e.id, e.seen, nowMs), stripe))
  {
    FailedTxKeeps(b.db, e.id, e.seen, nowMs);
  }

  lemma AttemptKeepsSane(b: Books, e: Event, reply: Reply, nowMs: int)
    requires Sane(b) && StandsAsRead(b, e)
    ensures Sane(AfterAttempt(b, e, reply, nowMs))
  {
    var stripe := AfterAttempt(b, e, reply, nowMs).stripe;
    assert Sane(b.(stripe := stripe));
    if reply == Acknowledged {
      SuccessKeepsSane(b, e, stripe);
    } else {
      FailureKeepsSane(b, e, nowMs, stripe);
    }
  }

  lemma {:induction false} BatchKeepsSane(b: Books, r: Round, n: nat)
    requires Sane(b) && DistinctAsRead(b.db.outbox, r.batch) && n <= |r.batch|
    ensures Sane(AfterBatch(b, r.batch, r.replies, r.nowMs, n))
  {
    if n > 0 {
      BatchKeepsSane(b, r, n - 1);
      NextStands(b, r, n - 1);
      AttemptKeepsSane(AfterBatch(b, r.batch, r.replies, r.nowMs, n - 1), r.batch[n - 1], r.replies(n - 1), r.nowMs);
    }
  }

  /** The first `n` rows of a batch. */
  ghost function Tried(batch: seq<Event>, n: nat): set<SessionId>
    requires n <= |batch|
  {
    set i | 0 <= i < n :: batch[i].id
  }

  lemma AttemptTakesOne(b: Books, e: Event, reply: Reply, nowMs: int)
    requires StandsAsRead(b, e) && Waiting(e.seen)
    ensures var rows := AfterAttempt(b, e, reply, nowMs).db.outbox;
            && Left(rows, e.id) < Left(b.db.outbox, e.id)
            && rows == b.db.outbox[e.id := rows[e.id]]
  {
  }

  lemma OneRowLowersAll(rows: map<SessionId, OutboxRow>, rows': map<SessionId, OutboxRow>, id: SessionId,
                        ids: set<SessionId>)
    requires id in rows && id in rows' && rows' == rows[id := rows'[id]] && Left(rows', id) < Left(rows, id)
    ensures AllLeft(rows', ids) <= AllLeft(rows, ids) - (if id in ids then 1 else 0)
  {
    if id in ids {
      AllLeftRemove(rows, ids, id);
      AllLeftRemove(rows', ids, id);
      AllLeftSame(rows, rows', ids - {id});
    } else {
      AllLeftSame(rows, rows', ids);
    }
  }

  /** The rows after the first `n` attempts of a batch. */
  ghost function RowsAfter(b: Books, r: Round, n: nat): map<SessionId, OutboxRow>
    requires n <= |r.batch|
  {
    AfterBatch(b, r.batch, r.replies, r.nowMs, n).db.outbox
  }

  /** One more attempt changes its own row alone, and takes one of the attempts it has left. */
  lemma NextTakesOne(b: Books, r: Round, n: nat)
    requires Sane(b) && DistinctAsRead(b.db.outbox, r.batch) && n < |r.batch| && Waiting(r.batch[n].seen)
    ensures var rows, rows', id := RowsAfter(b, r, n), RowsAfter(b, r, n + 1), r.batch[n].id;
            && id in rows && id in rows' && rows' == rows[id := rows'[id]] && Left(rows', id) < Left(rows, id)
  {
    NextStands(b, r, n);
    AttemptTakesOne(AfterBatch(b, r.batch, r.replies, r.nowMs, n), r.batch[n], r.replies(n), r.nowMs);
  }

  /** Each attempt at a row among `ids` takes one of the attempts they have left. */
  lemma {:induction false} BatchTakes(b: Books, r: Round, n: nat, ids: set<SessionId>)
    requires Sane(b) && DistinctAsRead(b.db.outbox, r.batch) && n <= |r.batch|
    requires forall i | 0 <= i < |r.batch| :: Waiting(r.batch[i].seen)
    ensures AllLeft(RowsAfter(b, r, n), ids) <= AllLeft(b.db.outbox, ids)
    ensures (forall i | 0 <= i < n :: r.batch[i].id in ids) ==>
              AllLeft(RowsAfter(b, r, n), ids) + n <= AllLeft(b.db.outbox, ids)
  {
    if n > 0 {
      BatchTakes(b, r, n - 1, ids);
      NextTakesOne(b, r, n - 1);
      OneRowLowersAll(RowsAfter(b, r, n - 1), RowsAfter(b, r, n), r.batch[n - 1].id, ids);
    }
  }

  ghost predicate SameBut(rows: map<SessionId, OutboxRow>, rows': map<SessionId, OutboxRow>, ids: set<SessionId>) {
    rows'.Keys == rows.Keys && forall id | id in rows && id !in ids :: rows'[id] == rows[id]
  }

  lemma SameButOne(rows: map<SessionId, OutboxRow>, rows1: map<SessionId, OutboxRow>, rows2: map<SessionId, OutboxRow>,
                   batch: seq<Event>, n: nat)
    requires n < |batch| && SameBut(rows, rows1, Tried(batch, n))
    requires batch[n].id in rows1 && batch[n].id in rows2 && rows2 == rows1[batch[n].id := rows2[batch[n].id]]
    ensures SameBut(rows, rows2, Tried(batch, n + 1))
  {
    assert Tried(batch, n + 1) == Tried(batch, n) + {batch[n].id};
  }

  lemma {:induction false} BatchLeavesOthers(b: Books, r: Round, n: nat)
    requires Sane(b) && DistinctAsRead(b.db.outbox, r.batch) && n <= |r.batch|
    requires forall i | 0 <= i < |r.batch| :: Waiting(r.batch[i].seen)
    ensures SameBut(b.db.outbox, RowsAfter(b, r, n), Tried(r.batch, n))
  {
    if n > 0 {
      BatchLeavesOthers(b, r, n - 1);
      NextTakesOne(b, r, n - 1);
      SameButOne(b.db.outbox, RowsAfter(b, r, n - 1), RowsAfter(b, r, n), r.batch, n - 1);
    }
  }

  /** All rows that may be picked before `id`. */
  ghost predicate Ahead(b: Books, createdAt: SessionId -> int, id: SessionId, ids: set<SessionId>) {
    && ids <= b.db.outbox.Keys
    && forall o | IsWaiting(b, o) && o != id && createdAt(o) <= createdAt(id) :: o in ids
  }

  lemma AheadStays(b: Books, r: Round, createdAt: SessionId -> int, id: SessionId, ids: set<SessionId>)
    requires Sane(b) && RoundOk(b, r, createdAt) && id in b.db.outbox && Ahead(b, createdAt, id, ids)
    ensures Ahead(AfterRound(b, r), createdAt, id, ids)
  {
    var m, a := AtTick(b, r), AfterRound(b, r);
    OthersKeepSane(b, r, createdAt);
    BatchLeavesOthers(m, r, |r.batch|);
    forall o | IsWaiting(a, o) && o != id && createdAt(o) <= createdAt(id) ensures o in ids {
      assert o in b.db.outbox && m.db.outbox[o] == b.db.outbox[o];
      TriedHolds(r.batch, o);
      assert IsWaiting(b, o);
    }
  }

  lemma TriedHolds(batch: seq<Event>, id: SessionId)
    ensures id in Tried(batch, |batch|) <==> Holds(batch, id)
  {
  }

  lemma PickedRow(b: Books, r: Round, i: nat)
    requires Sane(b) && DistinctAsRead(b.db.outbox, r.batch) && i < |r.batch|
    ensures RowAfter(b, AfterBatch(b, r.batch, r.replies, r.nowMs, |r.batch|), r.batch[i], r.replies(i), r.nowMs)
  {
    AsReadIsReadFrom(b, r.batch);
    BatchOutcome(b, r.batch, r.replies, r.nowMs, |r.batch|);
  }

  /** The row after an attempt at it: fewer attempts left, and due again within fifteen minutes. */
  lemma PickedAdvances(b: Books, r: Round, id: SessionId)
    requires Sane(b) && DistinctAsRead(b.db.outbox, r.batch) && Holds(r.batch, id) && IsWaiting(b, id)
    ensures var a := AfterBatch(b, r.batch, r.replies, r.nowMs, |r.batch|);
            && Left(a.db.outbox, id) < Left(b.db.outbox, id)
            && DueBy(a, id, r.nowMs + 900_000)
            && a.db.outbox[id].attemptCount == b.db.outbox[id].attemptCount + 1
  {
    var i :| 0 <= i < |r.batch| && r.batch[i].id == id;
    PickedRow(b, r, i);
  }

  lemma RoundKeepsSane(b: Books, r: Round, createdAt: SessionId -> int)
    requires Sane(b) && RoundOk(b, r, createdAt)
    ensures Sane(AfterRound(b, r))
  {
    OthersKeepSane(b, r, createdAt);
    BatchKeepsSane(AtTick(b, r), r, |r.batch|);
  }

  /** What a round that picks `id` makes of it. */
  lemma RoundPicks(b: Books, r: Round, createdAt: SessionId -> int, id: SessionId)
    requires Sane(b) && RoundOk(b, r, createdAt) && IsWaiting(b, id) && Holds(r.batch, id)
    ensures var a := AfterRound(b, r);
            && id in a.db.outbox && Left(a.db.outbox, id) < Left(b.db.outbox, id)
            && DueBy(a, id, r.nowMs + 900_000)
            && a.db.outbox[id].attemptCount == b.db.outbox[id].attemptCount + 1
  {
    OthersKeepSane(b, r, createdAt);
    PickedAdvances(AtTick(b, r), r, id);
  }

  /** A due row that a tick passes over stays as it is, and sees twenty attempts spent on older rows. */
  lemma RoundPassesOver(b: Books, r: Round, createdAt: SessionId -> int, id: SessionId, ahead: set<SessionId>)
    requires Sane(b) && RoundOk(b, r, createdAt) && Ahead(b, createdAt, id, ahead)
    requires IsWaiting(b, id) && DueBy(b, id, r.nowMs) && !Holds(r.batch, id)
    ensures var a := AfterRound(b, r);
            && AllLeft(a.db.outbox, ahead) + BATCH_SIZE <= AllLeft(b.db.outbox, ahead)
            && id in a.db.outbox && a.db.outbox[id] == b.db.outbox[id]
  {
    var m := AtTick(b, r);
    OthersKeepSane(b, r, createdAt);
    AllLeftSame(b.db.outbox, m.db.outbox, ahead);
    assert NotBefore(createdAt, r.batch, id);
    forall i | 0 <= i < |r.batch| ensures r.batch[i].id in ahead {
      assert Holds(r.batch, r.batch[i].id);
      assert IsWaiting(b, r.batch[i].id);
    }
    BatchTakes(m, r, |r.batch|, ahead);
    BatchLeavesOthers(m, r, |r.batch|);
    TriedHolds(r.batch, id);
  }

  lemma RoundNeverAdds(b: Books, r: Round, createdAt: SessionId -> int, ids: set<SessionId>)
    requires Sane(b) && RoundOk(b, r, createdAt) && ids <= b.db.outbox.Keys
    ensures AllLeft(AfterRound(b, r).db.outbox, ids) <= AllLeft(b.db.outbox, ids)
  {
    OthersKeepSane(b, r, createdAt);
    AllLeftSame(b.db.outbox, AtTick(b, r).db.outbox, ids);
    BatchTakes(AtTick(b, r), r, |r.batch|, ids);
  }

  // ---------------------------------------------------------------------------------------------
  // Main results
  // ---------------------------------------------------------------------------------------------

  /** Some tick of `rounds` picks the row. */
  ghost predicate Attempted(rounds: seq<Round>, id: SessionId) {
    exists k :: 0 <= k < |rounds| && Holds(rounds[k].batch, id)
  }

  /** A row whose time has come is picked after at most as many ticks as the attempts left to older rows
      fill, twenty a tick. */
  lemma {:induction false} DueRowIsPicked(b: Books, rounds: seq<Round>, createdAt: SessionId -> int, id: SessionId,
                                          ahead: set<SessionId>)
    requires Sane(b) && RoundsOk(b, rounds, createdAt) && Ahead(b, createdAt, id, ahead) && IsWaiting(b, id)
    requires forall k | 0 <= k < |rounds| :: DueBy(b, id, rounds[k].nowMs)
    requires AllLeft(b.db.outbox, ahead) < BATCH_SIZE * |rounds|
    ensures Attempted(rounds, id)
    decreases |rounds|
  {
    var r, rest := rounds[0], rounds[1..];
    if !Holds(r.batch, id) {
      RoundPassesOver(b, r, createdAt, id, ahead);
      RoundKeepsSane(b, r, createdAt);
      AheadStays(b, r, createdAt, id, ahead);
      assert forall k | 0 <= k < |rest| :: rest[k] == rounds[k + 1];
      DueRowIsPicked(AfterRound(b, r), rest, createdAt, id, ahead);
      var k :| 0 <= k < |rest| && Holds(rest[k].batch, id);
      assert Holds(rounds[k + 1].batch, id);
    }
  }

  /** Everything that may be picked before `id`: the other rows that wait and are at least as old. */
  ghost function OlderWaiting(b: Books, createdAt: SessionId -> int, id: SessionId): (ids: set<SessionId>)
    ensures Ahead(b, createdAt, id, ids)
  {
    set o | o in b.db.outbox && Waiting(b.db.outbox[o]) && o != id && createdAt(o) <= createdAt(id)
  }

  /** A row that waits, its time come, is picked at the latest when as many ticks have passed it over as
      there are older rows waiting. */
  lemma PassedOverAtMost(b: Books, rounds: seq<Round>, createdAt: SessionId -> int, id: SessionId)
    requires Sane(b) && RoundsOk(b, rounds, createdAt) && IsWaiting(b, id)
    requires forall k | 0 <= k < |rounds| :: DueBy(b, id, rounds[k].nowMs)
    requires |OlderWaiting(b, createdAt, id)| < |rounds|
    ensures Attempted(rounds, id)
  {
    var ahead := OlderWaiting(b, createdAt, id);
    AllLeftBounded(b.db.outbox, ahead);
    DueRowIsPicked(b, rounds, createdAt, id, ahead);
  }

  /** A row whose attempt fails while attempts are left stands in RETRY, and once its wait is over it is
      attempted again. */
  lemma RetryIsAttempted(b: Books, r: Round, rounds: seq<Round>, createdAt: SessionId -> int, i: nat)
    requires Sane(b) && RoundsOk(b, [r] + rounds, createdAt) && i < |r.batch|
    requires r.replies(i) != Acknowledged && r.batch[i].seen.attemptCount + 1 < r.batch[i].seen.maxAttempts
    ensures var a, n := AfterRound(b, r), r.batch[i].seen.attemptCount + 1;
            && r.batch[i].id in a.db.outbox
            && var row := a.db.outbox[r.batch[i].id];
            && row.status == RETRY && row.attemptCount == n && row.nextAttemptAt == Some(r.nowMs + NextBackoff(n))
            && (|OlderWaiting(a, createdAt, r.batch[i].id)| < |rounds|
                && (forall k | 0 <= k < |rounds| :: r.nowMs + NextBackoff(n) <= rounds[k].nowMs) ==>
                  Attempted(rounds, r.batch[i].id))
  {
    assert ([r] + rounds)[1..] == rounds;
    OthersKeepSane(b, r, createdAt);
    PickedRow(AtTick(b, r), r, i);
    RoundKeepsSane(b, r, createdAt);
    var a, n := AfterRound(b, r), r.batch[i].seen.attemptCount + 1;
    if |OlderWaiting(a, createdAt, r.batch[i].id)| < |rounds|
       && forall k | 0 <= k < |rounds| :: r.nowMs + NextBackoff(n) <= rounds[k].nowMs {
      PassedOverAtMost(a, rounds, createdAt, r.batch[i].id);
    }
  }

  /** The ticks are fifteen minutes apart, the longest wait there is. */
  ghost predicate Spaced(rounds: seq<Round>) {
    forall k | 0 < k < |rounds| :: rounds[k - 1].nowMs + 900_000 <= rounds[k].nowMs
  }

  lemma SettledStays(b: Books, r: Round, createdAt: SessionId -> int, id: SessionId)
    requires Sane(b) && RoundOk(b, r, createdAt) && id in b.db.outbox && !IsWaiting(b, id)
    ensures id in AfterRound(b, r).db.outbox && AfterRound(b, r).db.outbox[id] == b.db.outbox[id]
  {
    OthersKeepSane(b, r, createdAt);
    BatchLeavesOthers(AtTick(b, r), r, |r.batch|);
    TriedHolds(r.batch, id);
  }

  lemma SettleRound(b: Books, r: Round, createdAt: SessionId -> int, id: SessionId, ahead: set<SessionId>)
    requires Sane(b) && RoundOk(b, r, createdAt) && Ahead(b, createdAt, id, ahead)
    requires id in b.db.outbox && DueBy(b, id, r.nowMs)
    ensures var a := AfterRound(b, r);
            && Sane(a) && Ahead(a, createdAt, id, ahead) && DueBy(a, id, r.nowMs + 900_000)
            && if IsWaiting(b, id) then
                 Left(a.db.outbox, id) + AllLeft(a.db.outbox, ahead) < Left(b.db.outbox, id)
                   + AllLeft(b.db.outbox, ahead)
               else a.db.outbox[id] == b.db.outbox[id]
  {
    RoundKeepsSane(b, r, createdAt);
    AheadStays(b, r, createdAt, id, ahead);
    if !IsWaiting(b, id) {
      SettledStays(b, r, createdAt, id);
    } else if Holds(r.batch, id) {
      RoundPicks(b, r, createdAt, id);
      RoundNeverAdds(b, r, createdAt, ahead);
    } else {
      RoundPassesOver(b, r, createdAt, id, ahead);
    }
  }

  /** After as many ticks as attempts are left to a row and to the older ones, it is SENT or FAILED. */
  lemma {:induction false} SettlesWithin(b: Books, rounds: seq<Round>, createdAt: SessionId -> int, id: SessionId,
                                         ahead: set<SessionId>)
    requires Sane(b) && RoundsOk(b, rounds, createdAt) && Spaced(rounds) && Ahead(b, createdAt, id, ahead)
    requires id in b.db.outbox && (rounds != [] ==> DueBy(b, id, rounds[0].nowMs))
    requires IsWaiting(b, id) ==> Left(b.db.outbox, id) + AllLeft(b.db.outbox, ahead) <= |rounds|
    ensures var a := AfterRounds(b, rounds);
            id in a.db.outbox && (a.db.outbox[id].status == SENT || a.db.outbox[id].status == FAILED)
    decreases |rounds|
  {
    if rounds != [] {
      var r, rest := rounds[0], rounds[1..];
      SettleRound(b, r, createdAt, id, ahead);
      assert forall k | 0 <= k < |rest| :: rest[k] == rounds[k + 1];
      SettlesWithin(AfterRound(b, r), rest, createdAt, id, ahead);
    }
  }

  /** No row waits for ever: with ticks a quarter of an hour apart it is SENT or FAILED after twenty ticks
      for itself and for each older row that waits. */
  lemma EveryRowSettles(b: Books, rounds: seq<Round>, createdAt: SessionId -> int, id: SessionId)
    requires Sane(b) && RoundsOk(b, rounds, createdAt) && Spaced(rounds)
    requires id in b.db.outbox && (rounds != [] ==> DueBy(b, id, rounds[0].nowMs))
    requires 20 * (1 + |OlderWaiting(b, createdAt, id)|) <= |rounds|
    ensures var a := AfterRounds(b, rounds);
            id in a.db.outbox && (a.db.outbox[id].status == SENT || a.db.outbox[id].status == FAILED)
  {
    AllLeftBounded(b.db.outbox, OlderWaiting(b, createdAt, id));
    SettlesWithin(b, rounds, createdAt, id, OlderWaiting(b, createdAt, id));
  }
}
