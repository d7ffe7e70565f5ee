/**
 Single sessions over whole runs: what a session that was opened is billed in the end, and that every
 open session can be closed and every unsent meter row delivered, whatever has happened before.
 */
module SessionBills {
  import opened Wrappers
  import opened Metering

  // ---------------------------------------------------------------------------------------------
  // Time
  // ---------------------------------------------------------------------------------------------

  /** A RUNNING row is as it was created, and starts in the past; an ENDED one ends after its start. */
  predicate RowInTime(s: Session, now: int) {
    if s.status == RUNNING then
      s == Session(s.workspaceId, s.startMs, s.pricePerHourCents, RUNNING, None, 0, 0, 0, None) && s.startMs <= now
    else s.endMs.Some? && s.startMs <= s.endMs.value <= now
  }

  /** A closer has read its rows before it stamps their end. */
  ghost predicate CloserInTime(p: Proc, now: int) {
    p.Closer? ==>
      && (p.stamp.Some? ==> p.stamp.value <= now)
      && forall i | 0 <= i < |p.todo| :: p.todo[i].startMs <= (if p.stamp.Some? then p.stamp.value else now)
  }

  ghost predicate RowsInTime(db: Db, now: int) {
    forall id | id in db.sessions :: RowInTime(db.sessions[id], now)
  }

  ghost predicate InTime(w: World) {
    && RowsInTime(w.db, w.now)
    && forall pid | pid in w.procs :: CloserInTime(w.procs[pid], w.now)
  }

  /** A step that keeps the rows in order, and of the processes changes `pid` alone. */
  lemma OneProcInTime(w: World, w': World, pid: Pid)
    requires InTime(w) && w'.now == w.now && RowsInTime(w'.db, w'.now)
    requires forall q | q in w'.procs && q != pid :: q in w.procs && w'.procs[q] == w.procs[q]
    requires pid in w'.procs ==> CloserInTime(w'.procs[pid], w.now)
    ensures InTime(w')
  {
    forall q | q in w'.procs ensures CloserInTime(w'.procs[q], w'.now) {
      if q != pid { assert CloserInTime(w.procs[q], w.now); }
    }
  }

  lemma TickInTime(w: World, ms: nat)
    requires InTime(w)
    ensures InTime(w.(now := w.now + ms))
  {
    var w' := w.(now := w.now + ms);
    forall id | id in w'.db.sessions ensures RowInTime(w'.db.sessions[id], w'.now) {
      assert RowInTime(w.db.sessions[id], w.now);
    }
    forall q | q in w'.procs ensures CloserInTime(w'.procs[q], w'.now) {
      assert CloserInTime(w.procs[q], w.now);
    }
  }

  lemma OpenInTime(w: World, id: SessionId, ws: WorkspaceId, price: nat)
    requires InTime(w)
    ensures InTime(OpenStep(w, id, ws, price))
  {
    var w' := OpenStep(w, id, ws, price);
    assert RowsInTime(w'.db, w'.now) by {
      forall i | i in w'.db.sessions ensures RowInTime(w'.db.sessions[i], w'.now) {
        if i in w.db.sessions { assert RowInTime(w.db.sessions[i], w.now); }
      }
    }
    assert forall q | q in w'.procs :: CloserInTime(w.procs[q], w.now);
  }

  lemma CloserStartsInTime(w: World, pid: Pid, ws: WorkspaceId, ids: seq<SessionId>)
    requires InTime(w)
    ensures InTime(StartCloserStep(w, pid, ws, ids))
  {
    if CanStartCloser(w, pid, ws, ids) {
      forall i | 0 <= i < |ids| ensures SnapshotOf(w.db, ids[i]).startMs <= w.now {
        assert RowInTime(w.db.sessions[ids[i]], w.now);
      }
      OneProcInTime(w, StartCloserStep(w, pid, ws, ids), pid);
    }
  }

  lemma StampInTime(w: World, pid: Pid)
    requires InTime(w)
    ensures InTime(StampStep(w, pid))
  {
    if IsCloser(w, pid, false) {
      assert CloserInTime(w.procs[pid], w.now);
      OneProcInTime(w, StampStep(w, pid), pid);
    }
  }

  lemma CommitInTime(w: World, pid: Pid)
    requires Inv(w) && InTime(w)
    ensures InTime(CommitStep(w, pid))
  {
    if IsCloser(w, pid, true) {
      var p, w' := w.procs[pid], CommitStep(w, pid);
      assert CloserInTime(p, w.now) && ProcOk(w.db, w.stripe, p);
      forall id | id in w'.db.sessions ensures RowInTime(w'.db.sessions[id], w'.now) {
        assert RowInTime(w.db.sessions[id], w.now);
      }
      forall i | 0 <= i < |p.todo| - 1 ensures p.todo[1..][i].startMs <= w.now {
        assert p.todo[1..][i] == p.todo[i + 1];
      }
      OneProcInTime(w, w', pid);
    }
  }

  lemma MarkInTime(w: World, pid: Pid, w': World)
    requires Inv(w) && InTime(w) && (w' == MarkSentStep(w, pid) || w' == MarkFailedStep(w, pid))
    ensures InTime(w')
  {
    if w' != w {
      forall id | id in w'.db.sessions ensures RowInTime(w'.db.sessions[id], w'.now) {
        assert RowInTime(w.db.sessions[id], w.now);
      }
      OneProcInTime(w, w', pid);
    }
  }

  lemma RestInTime(w: World, step: Step)
    requires InTime(w)
    requires step.StartEmitter? || step.Post? || step.ReplyOk? || step.ReplyLost? || step.MarkSentRejected?
             || step.Crash?
    ensures InTime(Apply(w, step))
  {
    OneProcInTime(w, Apply(w, step), step.pid);
  }

  lemma StepInTime(w: World, step: Step)
    requires Inv(w) && InTime(w)
    ensures InTime(Apply(w, step))
  {
    match step
    case Tick(ms) => TickInTime(w, ms);
    case OpenSession(id, ws, price) => OpenInTime(w, id, ws, price);
    case StartCloser(pid, ws, ids) => CloserStartsInTime(w, pid, ws, ids);
    case StampEnd(pid) => StampInTime(w, pid);
    case CommitClose(pid) => CommitInTime(w, pid);
    case StripeTakes(id, value) => assert forall q | q in w.procs :: CloserInTime(w.procs[q], w.now);
    case MarkSent(pid) => MarkInTime(w, pid, MarkSentStep(w, pid));
    case MarkFailed(pid) => MarkInTime(w, pid, MarkFailedStep(w, pid));
    case _ => RestInTime(w, step);
  }

  lemma {:induction false} ExecInTime(w: World, steps: seq<Step>)
    requires Inv(w) && InTime(w)
    ensures Inv(Exec(w, steps)) && InTime(Exec(w, steps)) && Settled(w, Exec(w, steps))
    decreases |steps|
  {
    if steps != [] {
      StepKeeps(w, steps[0]);
      StepInTime(w, steps[0]);
      ExecInTime(Apply(w, steps[0]), steps[1..]);
      SettledTransitive(w, Apply(w, steps[0]), Exec(w, steps));
    }
  }

  // ---------------------------------------------------------------------------------------------
  // What a session is billed
  // ---------------------------------------------------------------------------------------------

  /** A session opens exactly when its id is new and its workspace has none RUNNING, and then its row is
      the only change. */
  lemma OpensIff(w: World, id: SessionId, ws: WorkspaceId, price: nat)
    ensures var w' := Apply(w, OpenSession(id, ws, price));
            if id !in w.db.sessions
               && forall o | o in w.db.sessions && w.db.sessions[o].workspaceId == ws ::
                    w.db.sessions[o].status != RUNNING
            then w' == w.(db := Db(w.db.sessions[id := Session(ws, w.now, price, RUNNING, None, 0, 0, 0, None)],
                                   w.db.outbox))
            else w' == w
  {
  }

  /** A session opened at time `t` is, as long as it runs, as it was opened.  Once it has ended, its end
      lies between `t` and now, its seconds are the time from `t` to its end, rounded up, its cents those
      seconds at the price it was opened at, rounded up, and its meter row carries those seconds. */
  lemma OpenedIsBilled(steps: seq<Step>, more: seq<Step>, id: SessionId, ws: WorkspaceId, price: nat)
    requires CanOpen(Exec(Start, steps), id, ws)
    ensures var t := Exec(Start, steps).now;
            var w := Exec(Apply(Exec(Start, steps), OpenSession(id, ws, price)), more);
            && id in w.db.sessions
            && var s := w.db.sessions[id];
            && (s.status == RUNNING ==> s == Session(ws, t, price, RUNNING, None, 0, 0, 0, None))
            && (s.status == ENDED ==>
                  && s.workspaceId == ws && s.endMs.Some? && t <= s.endMs.value <= w.now
                  && 1000 * (s.totalSeconds - 1) < s.endMs.value - t <= 1000 * s.totalSeconds
                  && 3600 * (s.billedCents - 1) < s.totalSeconds * price <= 3600 * s.billedCents
                  && s.billedSeconds == s.totalSeconds
                  && id in w.db.outbox && w.db.outbox[id].valueSeconds == s.totalSeconds)
  {
    ExecInTime(Start, steps);
    var w0 := Exec(Start, steps);
    var w1 := Apply(w0, OpenSession(id, ws, price));
    StepKeeps(w0, OpenSession(id, ws, price));
    StepInTime(w0, OpenSession(id, ws, price));
    ExecInTime(w1, more);
    assert RowInTime(Exec(w1, more).db.sessions[id], Exec(w1, more).now);
  }

  // ---------------------------------------------------------------------------------------------
  // What can still be done
  // ---------------------------------------------------------------------------------------------

  lemma ExecFirst(w: World, steps: seq<Step>, a: Step, rest: seq<Step>)
    requires steps == [a] + rest
    ensures Exec(w, steps) == Exec(Apply(w, a), rest)
  {
    assert steps[0] == a && steps[1..] == rest;
  }

  lemma ExecThree(w: World, a: Step, b: Step, c: Step)
    ensures Exec(w, [a, b, c]) == Apply(Apply(Apply(w, a), b), c)
  {
    ExecFirst(w, [a, b, c], a, [b, c]);
    ExecFirst(Apply(w, a), [b, c], b, [c]);
    ExecFirst(Apply(Apply(w, a), b), [c], c, []);
  }

  lemma {:induction false} ExecSplit(w: World, steps: seq<Step>, more: seq<Step>)
    ensures Exec(w, steps + more) == Exec(Exec(w, steps), more)
    decreases |steps|
  {
    if steps == [] {
      assert steps + more == more;
    } else {
      ExecFirst(w, steps, steps[0], steps[1..]);
      ExecFirst(w, steps + more, steps[0], steps[1..] + more);
      ExecSplit(Apply(w, steps[0]), steps[1..], more);
    }
  }

  /** A closer that reads, stamps and commits. */
  function ClosingRun(pid: Pid, ws: WorkspaceId, id: SessionId): seq<Step> {
    [StartCloser(pid, ws, [id]), StampEnd(pid), CommitClose(pid)]
  }

  lemma CloserReads(w: World, pid: Pid, id: SessionId)
    requires pid !in w.procs && id in w.db.sessions && w.db.sessions[id].status == RUNNING
    ensures Apply(w, StartCloser(pid, w.db.sessions[id].workspaceId, [id]))
         == w.(procs := w.procs[pid := Closer([SnapshotOf(w.db, id)], None)])
  {
    var w' := Apply(w, StartCloser(pid, w.db.sessions[id].workspaceId, [id]));
    assert w'.procs[pid] == Closer([SnapshotOf(w.db, id)], None);
  }

  lemma CloserStamps(w: World, pid: Pid, snap: Snapshot)
    requires pid in w.procs && w.procs[pid] == Closer([snap], None)
    ensures Apply(w, StampEnd(pid)) == w.(procs := w.procs[pid := Closer([snap], Some(w.now))])
  {
  }

  lemma CloserCommits(w: World, pid: Pid, snap: Snapshot)
    requires pid in w.procs && w.procs[pid] == Closer([snap], Some(w.now))
    requires CloseTx(w.db, snap, w.now).Some?
    ensures Apply(w, CommitClose(pid)).db == CloseTx(w.db, snap, w.now).value
    ensures var w' := Apply(w, CommitClose(pid)); w'.stripe == w.stripe && w'.now == w.now
  {
  }

  /** Whatever has run, a RUNNING session can be closed now, and gets its row, due at once. */
  lemma RunningCanBeClosed(steps: seq<Step>, pid: Pid, id: SessionId)
    requires var w := Exec(Start, steps);
             pid !in w.procs && id in w.db.sessions && w.db.sessions[id].status == RUNNING
    ensures var w := Exec(Start, steps);
            var s := w.db.sessions[id];
            var w' := Exec(w, ClosingRun(pid, s.workspaceId, id));
            var n := TotalSeconds(s.startMs, w.now);
            && w'.db.sessions == w.db.sessions[id :=
                 Session(s.workspaceId, s.startMs, s.pricePerHourCents, ENDED, Some(w.now), n, n,
                         BilledCents(n, s.pricePerHourCents), None)]
            && w'.db.outbox == w.db.outbox[id := OutboxRow(n, PENDING, 0, 20, Some(w.now), None)]
            && w'.stripe == w.stripe && w'.now == w.now
  {
    ExecInTime(Start, steps);
    var w := Exec(Start, steps);
    var s, snap := w.db.sessions[id], SnapshotOf(w.db, id);
    assert RowInTime(s, w.now);
    assert CloseTx(w.db, snap, w.now).Some? && id !in w.db.outbox;
    ExecThree(w, StartCloser(pid, s.workspaceId, [id]), StampEnd(pid), CommitClose(pid));
    CloserReads(w, pid, id);
    var w1 := w.(procs := w.procs[pid := Closer([snap], None)]);
    CloserStamps(w1, pid, snap);
    CloserCommits(w1.(procs := w1.procs[pid := Closer([snap], Some(w.now))]), pid, snap);
  }

  /** The wait until a row is due. */
  function WaitOf(w: World, row: OutboxRow): (ms: nat)
    ensures row.nextAttemptAt.None? || row.nextAttemptAt.value <= w.now + ms
    ensures row.nextAttemptAt.Some? && w.now < row.nextAttemptAt.value ==> w.now + ms == row.nextAttemptAt.value
    ensures row.nextAttemptAt.None? || row.nextAttemptAt.value <= w.now ==> ms == 0
  {
    if row.nextAttemptAt.Some? && w.now < row.nextAttemptAt.value then row.nextAttemptAt.value - w.now else 0
  }

  /** A row can be picked exactly when it is PENDING or RETRY and its time has come. */
  lemma PickedIff(w: World, pid: Pid, id: SessionId)
    requires pid !in w.procs
    ensures var w' := Apply(w, StartEmitter(pid, [id]));
            if id in w.db.outbox && (w.db.outbox[id].status == PENDING || w.db.outbox[id].status == RETRY)
               && (w.db.outbox[id].nextAttemptAt == None || w.db.outbox[id].nextAttemptAt.value <= w.now)
            then w' == w.(procs := w.procs[pid := Emitter([Event(id, w.db.outbox[id])], Ready)])
            else w' == w
  {
    var w' := Apply(w, StartEmitter(pid, [id]));
    if id in w.db.outbox && Due(w.db.outbox[id], w.now) {
      assert CanStartEmitter(w, pid, [id]);
      assert w'.procs[pid] == Emitter([Event(id, w.db.outbox[id])], Ready);
    } else {
      assert [id][0] == id;
    }
  }

  /** An emitter that waits for a row, picks it, posts it and is acknowledged. */
  function DeliveringRun(pid: Pid, ms: nat, id: SessionId, value: nat): seq<Step> {
    [Tick(ms), StartEmitter(pid, [id]), Post(pid, true), StripeTakes(id, value), ReplyOk(pid), MarkSent(pid)]
  }

  lemma EmitterPosts(w: World, pid: Pid, e: Event)
    requires pid in w.procs && w.procs[pid] == Emitter([e], Ready)
    ensures Apply(w, Post(pid, true)) == w.(wire := w.wire + {(e.id, e.seen.valueSeconds)},
                                            procs := w.procs[pid := Emitter([e], Posted)])
  {
  }

  lemma StripeTakesAndAnswers(w: World, pid: Pid, e: Event)
    requires pid in w.procs && w.procs[pid] == Emitter([e], Posted) && (e.id, e.seen.valueSeconds) in w.wire
    requires e.id in w.stripe ==> w.stripe[e.id] == e.seen.valueSeconds
    ensures Apply(Apply(w, StripeTakes(e.id, e.seen.valueSeconds)), ReplyOk(pid))
         == w.(stripe := w.stripe[e.id := e.seen.valueSeconds], procs := w.procs[pid := Emitter([e], Replied)])
  {
    var w1 := Apply(w, StripeTakes(e.id, e.seen.valueSeconds));
    assert w1.stripe == w.stripe[e.id := e.seen.valueSeconds];
  }

  lemma EmitterMarks(w: World, pid: Pid, e: Event)
    requires pid in w.procs && w.procs[pid] == Emitter([e], Replied) && e.id in w.db.outbox && e.id in w.db.sessions
    ensures var w', row := Apply(w, MarkSent(pid)), w.db.outbox[e.id];
            && w'.db.outbox == w.db.outbox[e.id := OutboxRow(row.valueSeconds, SENT, row.attemptCount + 1,
                                                             row.maxAttempts,
                                                             None, Some(e.id))]
            && w'.db.sessions == w.db.sessions[e.id := w.db.sessions[e.id].(stripeMeterEventId := Some(e.id))]
            && w'.stripe == w.stripe
  {
  }

  lemma PickAndPost(w: World, pid: Pid, id: SessionId)
    requires pid !in w.procs && id in w.db.outbox
    requires w.db.outbox[id].status == PENDING || w.db.outbox[id].status == RETRY
    ensures var e := Event(id, w.db.outbox[id]);
            Exec(w, [Tick(WaitOf(w, e.seen)), StartEmitter(pid, [id]), Post(pid, true)]) ==
            w.(now := w.now + WaitOf(w, e.seen), wire := w.wire + {(id, e.seen.valueSeconds)},
               procs := w.procs[pid := Emitter([e], Posted)])
  {
    var e := Event(id, w.db.outbox[id]);
    ExecThree(w, Tick(WaitOf(w, e.seen)), StartEmitter(pid, [id]), Post(pid, true));
    var w1 := w.(now := w.now + WaitOf(w, e.seen));
    PickedIff(w1, pid, id);
    var w2 := w1.(procs := w.procs[pid := Emitter([e], Ready)]);
    EmitterPosts(w2, pid, e);
    assert w2.procs[pid := Emitter([e], Posted)] == w.procs[pid := Emitter([e], Posted)];
  }

  /** The row is SENT, its session has the event's identifier, and Stripe the row's value. */
  ghost predicate Delivered(w: World, id: SessionId, w': World) {
    && id in w.db.outbox && id in w.db.sessions
    && var row := w.db.outbox[id];
    && w'.stripe == w.stripe[id := row.valueSeconds]
    && w'.db.outbox == w.db.outbox[id := OutboxRow(row.valueSeconds, SENT, row.attemptCount + 1, row.maxAttempts, None,
                                                   Some(id))]
    && w'.db.sessions == w.db.sessions[id := w.db.sessions[id].(stripeMeterEventId := Some(id))]
  }

  lemma AnswerAndMark(w: World, pid: Pid, e: Event)
    requires pid in w.procs && w.procs[pid] == Emitter([e], Posted) && (e.id, e.seen.valueSeconds) in w.wire
    requires e.id in w.db.outbox && e.id in w.db.sessions && e.seen == w.db.outbox[e.id]
    requires e.id in w.stripe ==> w.stripe[e.id] == e.seen.valueSeconds
    ensures Delivered(w, e.id, Exec(w, [StripeTakes(e.id, e.seen.valueSeconds), ReplyOk(pid), MarkSent(pid)]))
  {
    ExecThree(w, StripeTakes(e.id, e.seen.valueSeconds), ReplyOk(pid), MarkSent(pid));
    StripeTakesAndAnswers(w, pid, e);
    var w2 := w.(stripe := w.stripe[e.id := e.seen.valueSeconds], procs := w.procs[pid := Emitter([e], Replied)]);
    EmitterMarks(w2, pid, e);
  }

  lemma DeliveryFrom(w: World, pid: Pid, id: SessionId)
    requires pid !in w.procs && id in w.db.outbox && id in w.db.sessions
    requires w.db.outbox[id].status == PENDING || w.db.outbox[id].status == RETRY
    requires id in w.stripe ==> w.stripe[id] == w.db.outbox[id].valueSeconds
    ensures var row := w.db.outbox[id];
            Delivered(w, id, Exec(w, DeliveringRun(pid, WaitOf(w, row), id, row.valueSeconds)))
  {
    var e := Event(id, w.db.outbox[id]);
    var v, ms := e.seen.valueSeconds, WaitOf(w, e.seen);
    var first := [Tick(ms), StartEmitter(pid, [id]), Post(pid, true)];
    var last := [StripeTakes(id, v), ReplyOk(pid), MarkSent(pid)];
    assert DeliveringRun(pid, ms, id, v) == first + last;
    ExecSplit(w, first, last);
    PickAndPost(w, pid, id);
    AnswerAndMark(Exec(w, first), pid, e);
  }

  /** Whatever has run, a row that is PENDING or RETRY can still be delivered: Stripe then has exactly its
      session's seconds, the row is SENT, and no other row is touched. */
  lemma WaitingCanBeDelivered(steps: seq<Step>, pid: Pid, id: SessionId)
    requires var w := Exec(Start, steps);
             pid !in w.procs && id in w.db.outbox
               && (w.db.outbox[id].status == PENDING || w.db.outbox[id].status == RETRY)
    ensures var w := Exec(Start, steps);
            var row := w.db.outbox[id];
            var w' := Exec(w, DeliveringRun(pid, WaitOf(w, row), id, row.valueSeconds));
            Delivered(w, id, w') && w'.stripe[id] == w.db.sessions[id].billedSeconds
  {
    ExecKeeps(Start, steps);
    DeliveryFrom(Exec(Start, steps), pid, id);
  }
}
