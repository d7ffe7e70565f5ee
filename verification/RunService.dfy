/** The run row as the event handler, the cancel route, the executor and the reporters update it. */
module RunService {
  import opened Wrappers
  import opened Rounding
  import opened RunLifecycle

  /** How a post to Stripe turns out: refused, taken and acknowledged, or taken with the reply lost. */
  datatype Delivery = Refused | Delivered | ReplyLost

  /** What every stage gives its caller: a changed status is a higher stage, a run that is over keeps its
      outcome, the reported flag is untouched, and a row in order stays in order. */
  predicate Progressed(before: Run, after: Run, now: int) {
    && (after.status != before.status ==> Rank(before.status) < Rank(after.status))
    && (Terminal(before.status) ==> SameOutcome(before, after))
    && after.reported == before.reported
    && (RowOk(before, now) ==> RowOk(after, now))
  }

  lemma ActProgresses(r: Run, act: Act, now: int)
    ensures Progressed(r, Acted(r, act, now), now)
  {
    ChangesRaiseTheStage(r, act, now);
    if RowOk(r, now) { ActKeepsRow(r, act, now); }
  }

  class Service {
    var run: Run
    var stripe: Option<int>

    constructor (hoursMax: nat)
      ensures run == Run(QUEUED, hoursMax, false, None, None, None, 0, false) && stripe == None
    {
      run, stripe := NewRun(hoursMax), None;
    }

    /** A STATUS event: the transition table decides, and the update is built column by column.  A start
        begins the billing, an end ends it and bills a run that has started for the time since. */
    method IngestStatus(state: Status, now: int) returns (accepted: bool)
      modifies this`run
      ensures run == Acted(old(run), AgentReports(state), now)
      ensures accepted <==> match old(run).status
                            case QUEUED => state == PROVISIONING || state == FAILED || state == CANCELED
                            case PROVISIONING => state == INITIALIZING || state == FAILED || state == CANCELED
                            case INITIALIZING => state == RUNNING || state == FAILED || state == CANCELED
                            case RUNNING =>
                              state == UPLOADING_ARTIFACTS || state == COMPLETED || state == FAILED
                              || state == CANCELED || state == TIMED_OUT
                            case UPLOADING_ARTIFACTS => state == COMPLETED || state == FAILED
                            case _ => false
      ensures accepted ==> run.status == state && Rank(old(run).status) < Rank(state)
      ensures accepted && state == RUNNING ==> run == old(run).(status := RUNNING, startedAt := Some(now))
      ensures accepted && state in {COMPLETED, FAILED, CANCELED, TIMED_OUT} ==>
                && run == old(run).(status := state, finishedAt := Some(now), infraFinishedAt := Some(now),
                                    billedSeconds := run.billedSeconds)
                && match old(run).startedAt
                   case Some(start) => 1000 * (run.billedSeconds - 1) < now - start <= 1000 * run.billedSeconds
                   case None => run.billedSeconds == old(run).billedSeconds
      ensures accepted && state in {PROVISIONING, INITIALIZING, UPLOADING_ARTIFACTS}
              ==> run == old(run).(status := state)
      ensures !accepted ==> run == old(run)
    {
      if state !in Allowed(run.status) {
        return false;
      }
      ChangesRaiseTheStage(run, AgentReports(state), now);
      var data := Patch(status := Some(state));
      if state == RUNNING {
        data := data.(startedAt := Some(now));
      } else if Terminal(state) {
        data := data.(finishedAt := Some(now), infraFinishedAt := Some(now));
        if run.startedAt.Some? {
          data := data.(billedSeconds := Some(CeilDiv(now - run.startedAt.value, 1000)));
        }
      }
      run := Updated(run, data);
      accepted := true;
    }

    /** The cancel route. */
    method CancelRun(now: int) returns (accepted: bool)
      modifies this`run
      ensures run == Acted(old(run), Cancel, now)
      ensures accepted <==> old(run).status !in {COMPLETED, FAILED, CANCELED, TIMED_OUT}
      ensures if accepted then run == old(run).(status := CANCELED, infraFinishedAt := Some(now)) else run == old(run)
    {
      if Terminal(run.status) {
        return false;
      }
      run := run.(status := CANCELED, infraFinishedAt := Some(now));
      accepted := true;
    }

    /** Only a queued run is touched; it gets a workspace and goes on, or it is over unbilled. */
    method ProcessQueuedRun(works: bool, now: int)
      modifies this`run
      ensures run == Acted(old(run), Provision(works), now)
      ensures old(run).status != QUEUED ==> run == old(run)
      ensures old(run).status == QUEUED ==>
                run == if works then old(run).(status := PROVISIONING, hasWorkspace := true)
                       else old(run).(status := FAILED, finishedAt := Some(now))
      ensures Progressed(old(run), run, now) && run.billedSeconds == old(run).billedSeconds
    {
      ActProgresses(run, Provision(works), now);
      if run.status == QUEUED {
        if works {
          run := run.(status := PROVISIONING, hasWorkspace := true);
        } else {
          run := run.(status := FAILED, finishedAt := Some(now));
        }
      }
    }

    /** Only a run waiting for its own workspace is touched; it goes on, or it is over unbilled. */
    method ProcessProvisioningRun(ready: bool, now: int)
      modifies this`run
      ensures run == Acted(old(run), CheckWorkspace(ready), now)
      ensures run != old(run) <==> old(run).status == PROVISIONING && old(run).hasWorkspace
      ensures run != old(run) ==>
                run == if ready then old(run).(status := INITIALIZING)
                       else old(run).(status := FAILED, finishedAt := Some(now))
      ensures Progressed(old(run), run, now) && run.billedSeconds == old(run).billedSeconds
    {
      ActProgresses(run, CheckWorkspace(ready), now);
      if run.status == PROVISIONING && run.hasWorkspace {
        if ready {
          run := run.(status := INITIALIZING);
        } else {
          run := run.(status := FAILED, finishedAt := Some(now));
        }
      }
    }

    /** Only an initializing run is touched; accepted, its billing starts now; refused, it is over
        unbilled, and so it is if its setup fails, but then without an end of its infrastructure. */
    method InitializeRun(start: StartResult, now: int)
      modifies this`run
      ensures run == Acted(old(run), Initialize(start), now)
      ensures run != old(run) <==> old(run).status == INITIALIZING && old(run).hasWorkspace
      ensures run != old(run) ==>
                run == match start
                       case Accepted => old(run).(status := RUNNING, startedAt := Some(now))
                       case CallFails => old(run).(status := FAILED, finishedAt := Some(now),
                                                   infraFinishedAt := Some(now))
                       case SetupFails => old(run).(status := FAILED, finishedAt := Some(now))
      ensures Progressed(old(run), run, now) && run.billedSeconds == old(run).billedSeconds
    {
      ActProgresses(run, Initialize(start), now);
      if run.status == INITIALIZING && run.hasWorkspace {
        match start
        case Accepted => run := run.(status := RUNNING, startedAt := Some(now));
        case CallFails => run := run.(status := FAILED, finishedAt := Some(now), infraFinishedAt := Some(now));
        case SetupFails => run := run.(status := FAILED, finishedAt := Some(now));
      }
    }

    /** Times out exactly when the run has been running for as many hours as it may, and then bills the
        whole time since its start, which is at least that. */
    method CheckRunTimeout(now: int) returns (timedOut: bool)
      modifies this`run
      ensures run == Acted(old(run), CheckTimeout, now)
      ensures timedOut <==>
                && old(run).status == RUNNING && old(run).startedAt.Some?
                && now - old(run).startedAt.value >= 3_600_000 * old(run).hoursMax
      ensures timedOut ==>
                && run == old(run).(status := TIMED_OUT, finishedAt := Some(now), infraFinishedAt := Some(now),
                                    billedSeconds := run.billedSeconds)
                && 1000 * (run.billedSeconds - 1) < now - run.startedAt.value <= 1000 * run.billedSeconds
                && run.billedSeconds >= 3600 * run.hoursMax
      ensures !timedOut ==> run == old(run)
    {
      if run.status != RUNNING || run.startedAt.None? {
        return false;
      }
      var elapsed := now - run.startedAt.value;
      if elapsed < MaxMs(run) {
        return false;
      }
      var billed := CeilDiv(elapsed, 1000);
      run := run.(status := TIMED_OUT, finishedAt := Some(now), infraFinishedAt := Some(now), billedSeconds := billed);
      timedOut := true;
    }

    /** Only a running run is touched; it is over and billed for exactly the time it ran. */
    method FailRun(now: int)
      modifies this`run
      ensures run == Acted(old(run), HeartbeatLost, now)
      ensures old(run).status != RUNNING ==> run == old(run)
      ensures old(run).status == RUNNING ==>
                run == old(run).(status := FAILED, finishedAt := Some(now), infraFinishedAt := Some(now),
                                 billedSeconds := run.billedSeconds)
      ensures old(run).status == RUNNING && RowOk(old(run), now) ==>
                && run.startedAt.Some?
                && 1000 * (run.billedSeconds - 1) < now - run.startedAt.value <= 1000 * run.billedSeconds
      ensures Progressed(old(run), run, now)
    {
      ActProgresses(run, HeartbeatLost, now);
      if run.status == RUNNING {
        var billed := 0;
        if run.startedAt.Some? { billed := CeilDiv(now - run.startedAt.value, 1000); }
        run := run.(status := FAILED, finishedAt := Some(now), infraFinishedAt := Some(now), billedSeconds := billed);
      }
    }

    /** Only an uploading run is touched.  It is COMPLETED; an end that is on record stays, and a missing
        one is now; a bill that is on record stays, and a missing one is the time from start to end. */
    method FinalizeRun(now: int)
      modifies this`run
      ensures run == Acted(old(run), Finalize, now)
      ensures old(run).status != UPLOADING_ARTIFACTS ==> run == old(run)
      ensures old(run).status == UPLOADING_ARTIFACTS ==>
                && run == old(run).(status := COMPLETED, finishedAt := run.finishedAt,
                                    infraFinishedAt := run.infraFinishedAt, billedSeconds := run.billedSeconds)
                && run.finishedAt == (if old(run).finishedAt.Some? then old(run).finishedAt else Some(now))
                && run.infraFinishedAt
                   == (if old(run).infraFinishedAt.Some? then old(run).infraFinishedAt else Some(now))
                && (if old(run).startedAt.Some? && old(run).billedSeconds == 0 then
                      1000 * (run.billedSeconds - 1) < run.finishedAt.value - run.startedAt.value
                        <= 1000 * run.billedSeconds
                    else run.billedSeconds == old(run).billedSeconds)
      ensures RowOk(old(run), now) && old(run).status == UPLOADING_ARTIFACTS && run.startedAt.Some? ==>
                1000 * (run.billedSeconds - 1) < now - run.startedAt.value <= 1000 * run.billedSeconds
                && run.finishedAt == Some(now)
    {
      if run.status == UPLOADING_ARTIFACTS {
        var billed := run.billedSeconds;
        if run.startedAt.Some? && billed == 0 {
          var finish := if run.finishedAt.Some? then run.finishedAt.value else now;
          billed := CeilDiv(finish - run.startedAt.value, 1000);
        }
        run := run.(status := COMPLETED,
                    finishedAt := if run.finishedAt.Some? then run.finishedAt else Some(now),
                    infraFinishedAt := if run.infraFinishedAt.Some? then run.infraFinishedAt else Some(now),
                    billedSeconds := billed);
      }
    }

    /** `reportRunBilling` and `reportUsageToStripe`, whole calls one after another: the run's seconds
        reach Stripe once however often a report is repeated, and a lost reply only repeats it. */
    method ReportBilling(hasCustomer: bool, delivery: Delivery)
      requires stripe.Some? ==> stripe.value == run.billedSeconds
      modifies this
      ensures run == old(run).(reported := old(run).reported
                               || (ShouldReport(old(run), hasCustomer) && delivery == Delivered))
      ensures stripe.Some? ==> stripe.value == run.billedSeconds
      ensures old(stripe).Some? ==> stripe == old(stripe)
      ensures stripe.Some? <==> old(stripe).Some? || (ShouldReport(old(run), hasCustomer) && delivery != Refused)
    {
      if !hasCustomer || run.reported || run.billedSeconds == 0 {
        return;
      }
      if delivery != Refused && stripe.None? {
        stripe := Some(run.billedSeconds);
      }
      if delivery == Delivered {
        run := run.(reported := true);
      }
    }
  }
}
