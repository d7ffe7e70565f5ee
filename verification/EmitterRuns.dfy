/**
 The emitter's loop is a run of the metering protocol: each attempt, however it ends, each batch, and each
 tick.  What holds over all runs of the protocol so holds over all ticks of the loop.
 */
module EmitterRuns {
  import opened Wrappers
  import opened Metering
  import opened BillingStore
  import opened SessionBills

  /** The steps of one attempt, by how it ends. */
  function RunOf(pid: Pid, e: Event, reply: Reply): seq<Step> {
    match reply
    case NoCustomer => [Post(pid, false), MarkFailed(pid)]
    case Refused => [Post(pid, true), ReplyLost(pid), MarkFailed(pid)]
    case Acknowledged => [Post(pid, true), StripeTakes(e.id, e.seen.valueSeconds), ReplyOk(pid), MarkSent(pid)]
    case ReplyMissing => [Post(pid, true), StripeTakes(e.id, e.seen.valueSeconds), ReplyLost(pid), MarkFailed(pid)]
  }

  /** The emitter is at its next event, in some phase. */
  ghost predicate AtEvent(w: World, pid: Pid, e: Event, rest: seq<Event>, phase: EmitPhase) {
    && pid in w.procs && w.procs[pid] == Emitter([e] + rest, phase)
    && e.id in w.db.outbox && e.id in w.db.sessions
  }

  /** Everything is as it was, but for the phase of the emitter and what is on the wire and at Stripe. */
  ghost predicate Moved(w: World, w': World, pid: Pid, e: Event, rest: seq<Event>, phase: EmitPhase,
                        stripe: map<SessionId, nat>) {
    && w'.db == w.db && w'.now == w.now && w'.stripe == stripe
    && w'.procs == w.procs[pid := Emitter([e] + rest, phase)]
  }

  /** The attempt is over: the books are as the loop's attempt leaves them, and the emitter goes on. */
  ghost predicate Over(w: World, w': World, pid: Pid, e: Event, rest: seq<Event>, reply: Reply) {
    && Books(w'.db, w'.stripe) == AfterAttempt(Books(w.db, w.stripe), e, reply, w.now)
    && w'.procs == w.procs[pid := Emitter(rest, Ready)] && w'.now == w.now
  }

  function Taking(stripe: map<SessionId, nat>, e: Event): map<SessionId, nat> {
    if e.id in stripe then stripe else stripe[e.id := e.seen.valueSeconds]
  }

  lemma Posts(w: World, pid: Pid, e: Event, rest: seq<Event>)
    requires AtEvent(w, pid, e, rest, Ready)
    ensures var w' := PostStep(w, pid, true);
            Moved(w, w', pid, e, rest, Posted, w.stripe) && (e.id, e.seen.valueSeconds) in w'.wire
    ensures Moved(w, PostStep(w, pid, false), pid, e, rest, Failing, w.stripe)
  {
  }

  lemma Loses(w: World, pid: Pid, e: Event, rest: seq<Event>)
    requires AtEvent(w, pid, e, rest, Posted)
    ensures Moved(w, ReplyLostStep(w, pid), pid, e, rest, Failing, w.stripe)
  {
  }

  lemma Takes(w: World, pid: Pid, e: Event, rest: seq<Event>)
    requires AtEvent(w, pid, e, rest, Posted) && (e.id, e.seen.valueSeconds) in w.wire
    ensures Moved(w, StripeStep(w, e.id, e.seen.valueSeconds), pid, e, rest, Posted, Taking(w.stripe, e))
  {
  }

  lemma Hears(w: World, pid: Pid, e: Event, rest: seq<Event>)
    requires AtEvent(w, pid, e, rest, Posted) && e.id in w.stripe
    ensures Moved(w, ReplyOkStep(w, pid), pid, e, rest, Replied, w.stripe)
  {
  }

  lemma Fails(w: World, pid: Pid, e: Event, rest: seq<Event>)
    requires AtEvent(w, pid, e, rest, Failing)
    ensures var w' := MarkFailedStep(w, pid);
            && w'.db == FailedTx(w.db, e.id, e.seen, w.now) && w'.stripe == w.stripe && w'.now == w.now
            && w'.procs == w.procs[pid := Emitter(rest, Ready)]
  {
    assert ([e] + rest)[1..] == rest;
  }

  lemma Succeeds(w: World, pid: Pid, e: Event, rest: seq<Event>)
    requires AtEvent(w, pid, e, rest, Replied)
    ensures var w' := MarkSentStep(w, pid);
            && w'.db == SentTx(w.db, e.id) && w'.stripe == w.stripe && w'.now == w.now
            && w'.procs == w.procs[pid := Emitter(rest, Ready)]
  {
    assert ([e] + rest)[1..] == rest;
  }

  lemma UncustomedIsARun(w: World, pid: Pid, e: Event, rest: seq<Event>)
    requires AtEvent(w, pid, e, rest, Ready)
    ensures Over(w, Exec(w, RunOf(pid, e, NoCustomer)), pid, e, rest, NoCustomer)
  {
    var w1 := PostStep(w, pid, false);
    Posts(w, pid, e, rest);
    Fails(w1, pid, e, rest);
    ExecFirst(w, RunOf(pid, e, NoCustomer), Post(pid, false), [MarkFailed(pid)]);
    ExecFirst(w1, [MarkFailed(pid)], MarkFailed(pid), []);
  }

  lemma RefusedIsARun(w: World, pid: Pid, e: Event, rest: seq<Event>)
    requires AtEvent(w, pid, e, rest, Ready)
    ensures Over(w, Exec(w, RunOf(pid, e, Refused)), pid, e, rest, Refused)
  {
    var w1 := PostStep(w, pid, true);
    Posts(w, pid, e, rest);
    Loses(w1, pid, e, rest);
    Fails(ReplyLostStep(w1, pid), pid, e, rest);
    ExecThree(w, Post(pid, true), ReplyLost(pid), MarkFailed(pid));
  }

  /** What follows a post that Stripe takes. */
  lemma AnswerIsHeard(w: World, pid: Pid, e: Event, rest: seq<Event>)
    requires AtEvent(w, pid, e, rest, Posted) && (e.id, e.seen.valueSeconds) in w.wire
    ensures Over(w, Exec(w, [StripeTakes(e.id, e.seen.valueSeconds), ReplyOk(pid), MarkSent(pid)]), pid, e, rest,
                 Acknowledged)
  {
    var w1 := StripeStep(w, e.id, e.seen.valueSeconds);
    Takes(w, pid, e, rest);
    Hears(w1, pid, e, rest);
    Succeeds(ReplyOkStep(w1, pid), pid, e, rest);
    ExecThree(w, StripeTakes(e.id, e.seen.valueSeconds), ReplyOk(pid), MarkSent(pid));
  }

  lemma AnswerIsLost(w: World, pid: Pid, e: Event, rest: seq<Event>)
    requires AtEvent(w, pid, e, rest, Posted) && (e.id, e.seen.valueSeconds) in w.wire
    ensures Over(w, Exec(w, [StripeTakes(e.id, e.seen.valueSeconds), ReplyLost(pid), MarkFailed(pid)]), pid, e, rest,
                 ReplyMissing)
  {
    var w1 := StripeStep(w, e.id, e.seen.valueSeconds);
    Takes(w, pid, e, rest);
    Loses(w1, pid, e, rest);
    Fails(ReplyLostStep(w1, pid), pid, e, rest);
    ExecThree(w, StripeTakes(e.id, e.seen.valueSeconds), ReplyLost(pid), MarkFailed(pid));
  }

  /** A post that Stripe takes, from the attempt's beginning. */
  lemma PostedIsARun(w: World, pid: Pid, e: Event, rest: seq<Event>, reply: Reply)
    requires AtEvent(w, pid, e, rest, Ready) && Taken(reply)
    ensures Over(w, Exec(w, RunOf(pid, e, reply)), pid, e, rest, reply)
  {
    var w1 := PostStep(w, pid, true);
    Posts(w, pid, e, rest);
    ExecFirst(w, RunOf(pid, e, reply), Post(pid, true), RunOf(pid, e, reply)[1..]);
    if reply == Acknowledged { AnswerIsHeard(w1, pid, e, rest); } else { AnswerIsLost(w1, pid, e, rest); }
  }

  /** An attempt of the loop is the run of its steps, and leaves the emitter ready for the next event. */
  lemma AttemptIsARun(w: World, pid: Pid, e: Event, rest: seq<Event>, reply: Reply)
    requires AtEvent(w, pid, e, rest, Ready)
    ensures Over(w, Exec(w, RunOf(pid, e, reply)), pid, e, rest, reply)
  {
    match reply
    case NoCustomer => UncustomedIsARun(w, pid, e, rest);
    case Refused => RefusedIsARun(w, pid, e, rest);
    case Acknowledged => PostedIsARun(w, pid, e, rest, reply);
    case ReplyMissing => PostedIsARun(w, pid, e, rest, reply);
  }

  /** An acknowledged event whose success transaction is rejected ends like one whose reply was lost. */
  lemma RejectedSuccessIsAFailure(w: World, pid: Pid, e: Event, rest: seq<Event>)
    requires AtEvent(w, pid, e, rest, Replied) && e.id in w.stripe
    ensures Over(w, Exec(w, [MarkSentRejected(pid), MarkFailed(pid)]), pid, e, rest, ReplyMissing)
  {
    var w1 := MarkSentRejectedStep(w, pid);
    assert Moved(w, w1, pid, e, rest, Failing, w.stripe);
    Fails(w1, pid, e, rest);
    ExecFirst(w, [MarkSentRejected(pid), MarkFailed(pid)], MarkSentRejected(pid), [MarkFailed(pid)]);
    ExecFirst(w1, [MarkFailed(pid)], MarkFailed(pid), []);
  }

  // ---------------------------------------------------------------------------------------------
  // Batches and ticks
  // ---------------------------------------------------------------------------------------------

  ghost function BatchRun(pid: Pid, batch: seq<Event>, replies: nat -> Reply, n: nat): seq<Step>
    requires n <= |batch|
  {
    if n == 0 then [] else BatchRun(pid, batch, replies, n - 1) + RunOf(pid, batch[n - 1], replies(n - 1))
  }

  /** The first `n` attempts of a batch have been made. */
  ghost predicate Done(w: World, w': World, pid: Pid, batch: seq<Event>, replies: nat -> Reply, n: nat)
    requires n <= |batch|
  {
    && Books(w'.db, w'.stripe) == AfterBatch(Books(w.db, w.stripe), batch, replies, w.now, n)
    && w'.procs == w.procs[pid := Emitter(batch[n..], Ready)] && w'.now == w.now
  }

  lemma OneMoreDone(w: World, w1: World, w2: World, pid: Pid, batch: seq<Event>, replies: nat -> Reply, n: nat)
    requires 0 < n <= |batch| && Done(w, w1, pid, batch, replies, n - 1)
    requires Over(w1, w2, pid, batch[n - 1], batch[n..], replies(n - 1))
    ensures Done(w, w2, pid, batch, replies, n)
  {
  }

  lemma NextAttempt(w: World, w1: World, pid: Pid, batch: seq<Event>, replies: nat -> Reply, n: nat)
    requires 0 < n <= |batch| && Done(w, w1, pid, batch, replies, n - 1) && ReadFrom(Books(w.db, w.stripe), batch)
    ensures AtEvent(w1, pid, batch[n - 1], batch[n..], Ready)
  {
    NextIsThere(Books(w.db, w.stripe), batch, replies, w.now, n - 1);
    assert batch[n - 1..] == [batch[n - 1]] + batch[n..];
  }

  lemma {:induction false} BatchIsARun(w: World, pid: Pid, batch: seq<Event>, replies: nat -> Reply, n: nat)
    requires pid in w.procs && w.procs[pid] == Emitter(batch, Ready) && n <= |batch|
    requires ReadFrom(Books(w.db, w.stripe), batch)
    ensures Done(w, Exec(w, BatchRun(pid, batch, replies, n)), pid, batch, replies, n)
  {
    if n == 0 {
      assert batch[0..] == batch;
    } else {
      BatchIsARun(w, pid, batch, replies, n - 1);
      var w1 := Exec(w, BatchRun(pid, batch, replies, n - 1));
      var run := RunOf(pid, batch[n - 1], replies(n - 1));
      NextAttempt(w, w1, pid, batch, replies, n);
      AttemptIsARun(w1, pid, batch[n - 1], batch[n..], replies(n - 1));
      ExecSplit(w, BatchRun(pid, batch, replies, n - 1), run);
      OneMoreDone(w, w1, Exec(w1, run), pid, batch, replies, n);
    }
  }

  function IdsOf(batch: seq<Event>): seq<SessionId> {
    seq(|batch|, i requires 0 <= i < |batch| => batch[i].id)
  }

  /** A tick of the loop: the query, then every attempt. */
  ghost function TickRun(pid: Pid, batch: seq<Event>, replies: nat -> Reply): seq<Step> {
    [StartEmitter(pid, IdsOf(batch))] + BatchRun(pid, batch, replies, |batch|)
  }

  lemma QueryStarts(w: World, pid: Pid, batch: seq<Event>, createdAt: SessionId -> int)
    requires pid !in w.procs && Picks(w.db.outbox, createdAt, w.now, batch)
    ensures Apply(w, StartEmitter(pid, IdsOf(batch))) == w.(procs := w.procs[pid := Emitter(batch, Ready)])
  {
    assert CanStartEmitter(w, pid, IdsOf(batch));
    assert StartEmitterStep(w, pid, IdsOf(batch)).procs[pid].batch == batch;
  }

  lemma TickFrom(w: World, pid: Pid, batch: seq<Event>, createdAt: SessionId -> int, replies: nat -> Reply)
    requires pid !in w.procs && Picks(w.db.outbox, createdAt, w.now, batch) && ReadFrom(Books(w.db, w.stripe), batch)
    ensures var w' := Exec(w, TickRun(pid, batch, replies));
            && Books(w'.db, w'.stripe) == AfterBatch(Books(w.db, w.stripe), batch, replies, w.now, |batch|)
            && w'.procs == w.procs[pid := Emitter([], Ready)] && w'.now == w.now
  {
    var w1 := w.(procs := w.procs[pid := Emitter(batch, Ready)]);
    QueryStarts(w, pid, batch, createdAt);
    BatchIsARun(w1, pid, batch, replies, |batch|);
    ExecFirst(w, TickRun(pid, batch, replies), StartEmitter(pid, IdsOf(batch)), BatchRun(pid, batch, replies, |batch|));
    assert batch[|batch|..] == [];
  }

  /** After any run of the protocol, a tick that picks by the query and attempts each row once is again a run
      of the protocol: the books are as the loop leaves them, and nothing else has changed. */
  lemma TickIsARun(steps: seq<Step>, pid: Pid, batch: seq<Event>, createdAt: SessionId -> int, replies: nat -> Reply)
    requires pid !in Exec(Start, steps).procs
    requires Picks(Exec(Start, steps).db.outbox, createdAt, Exec(Start, steps).now, batch)
    ensures var w := Exec(Start, steps);
            var w' := Exec(Start, steps + TickRun(pid, batch, replies));
            && Books(w'.db, w'.stripe) == AfterBatch(Books(w.db, w.stripe), batch, replies, w.now, |batch|)
            && w'.procs == w.procs[pid := Emitter([], Ready)] && w'.now == w.now
  {
    var w := Exec(Start, steps);
    RunReadsFrom(steps, createdAt, batch);
    TickFrom(w, pid, batch, createdAt, replies);
    ExecSplit(Start, steps, TickRun(pid, batch, replies));
  }

  lemma RunReadsFrom(steps: seq<Step>, createdAt: SessionId -> int, batch: seq<Event>)
    requires Picks(Exec(Start, steps).db.outbox, createdAt, Exec(Start, steps).now, batch)
    ensures ReadFrom(Books(Exec(Start, steps).db, Exec(Start, steps).stripe), batch)
  {
    ExecKeeps(Start, steps);
    var w := Exec(Start, steps);
    PicksAreRead(Books(w.db, w.stripe), createdAt, w.now, batch);
  }
}
