/** The worker's cleanup attempt as it runs: one awaited write or call after another inside a `try`. */
module CleanupWorker {
  import opened Wrappers
  import opened Metering
  import opened Teardown

  /** One attempt with nothing beside it. */
  function Alone(s: Site, a: Attempt): Teardown.World {
    Teardown.World(s, {}, map[0 := a], 0)
  }

  function Attempted(s: Site, a: Attempt, o: Outcome): Site {
    if o.Success? || o.effect then Effect(s, a) else s
  }

  lemma AloneGoes(s: Site, a: Attempt, outcomes: nat -> Outcome, n: nat)
    requires outcomes(n).Success?
    ensures Run(Alone(s, a), 0, outcomes, n)
         == if Next(s, a).Some? then Run(Alone(Effect(s, a), Next(s, a).value), 0, outcomes, n + 1)
            else Teardown.World(Effect(s, a), {}, map[], 0)
  {
    RunUnfolds(Alone(s, a), 0, outcomes, n);
    var next := Next(s, a);
    assert GoStep(Alone(s, a), 0)
           == if next.Some? then Alone(Effect(s, a), next.value) else Teardown.World(Effect(s, a), {}, map[], 0);
  }

  /** A failing stop is ignored. */
  lemma AloneStops(s: Site, a: Attempt, outcomes: nat -> Outcome, n: nat)
    requires a.pc == StopVm
    ensures Run(Alone(s, a), 0, outcomes, n)
            == Run(Alone(Attempted(s, a, outcomes(n)), a.(pc := DeleteVm)), 0, outcomes, n + 1)
  {
    assert Teardown.Apply(Alone(s, a), StepOf(0, outcomes(n)))
           == Alone(Attempted(s, a, outcomes(n)), a.(pc := DeleteVm));
  }

  /** A failure elsewhere ends in the catch block. */
  lemma AloneFails(s: Site, a: Attempt, outcomes: nat -> Outcome, n: nat)
    requires a.pc != StopVm && a.pc != RecordError && outcomes(n).Failure?
    ensures Run(Alone(s, a), 0, outcomes, n).site
         == Attempted(Attempted(s, a, outcomes(n)), a.(pc := RecordError, jitter := outcomes(n).jitter),
                      outcomes(n + 1))
  {
    var s1 := Attempted(s, a, outcomes(n));
    var caught := a.(pc := RecordError, jitter := outcomes(n).jitter);
    assert Teardown.Apply(Alone(s, a), StepOf(0, outcomes(n))) == Alone(s1, caught);
    var last := Teardown.Apply(Alone(s1, caught), StepOf(0, outcomes(n + 1)));
    assert 0 !in last.attempts;
    assert Run(Alone(s, a), 0, outcomes, n) == Run(Alone(s1, caught), 0, outcomes, n + 1);
    assert Run(Alone(s1, caught), 0, outcomes, n + 1) == Run(last, 0, outcomes, n + 2) == last;
  }

  /** The attempt is in order at its place, and run from here it ends in `end`. */
  ghost predicate On(s: Site, a: Attempt, outcomes: nat -> Outcome, n: nat, end: Site) {
    RowsMatch(s.db) && OneRunningEach(s.db) && AttemptOk(s, a) && Run(Alone(s, a), 0, outcomes, n).site == end
  }

  ghost predicate Then(s: Site, next: Option<Attempt>, outcomes: nat -> Outcome, n: nat, end: Site) {
    match next
    case Some(a) => On(s, a, outcomes, n, end)
    case None => s == end
  }

  /** The failure at outcome `n` is on the job, if the record was not lost as well. */
  ghost predicate Recorded(s0: Site, started: nat, outcomes: nat -> Outcome, n: nat, s: Site) {
    && outcomes(n).Failure?
    && (outcomes(n + 1).Success? ==> s.job == ErrorRecorded(s0.job, started, s0.now, outcomes(n).jitter))
  }

  /** The job after its n-th attempt has failed: FAILED for good exactly when that was the last one it may
      take, and otherwise in RETRY, due when the wait for n failures is over, give or take a tenth. */
  predicate FailureOnJob(job: Job, n: nat, maxAttempts: nat, nowMs: int) {
    && job.attemptCount == n && job.maxAttempts == maxAttempts
    && if maxAttempts <= n then job.status == JobFailed && job.nextAttemptAt == None
       else job.status == JobRetry && job.nextAttemptAt.Some?
            && 9 * NextBackoff(n) <= 10 * (job.nextAttemptAt.value - nowMs) <= 11 * NextBackoff(n)
  }

  lemma CaughtIsRecorded(s: Site, a: Attempt, outcomes: nat -> Outcome, n: nat)
    requires a.pc != RecordError && outcomes(n).Failure?
    ensures var caught := a.(pc := RecordError, jitter := outcomes(n).jitter);
            Recorded(s, a.started, outcomes, n, Attempted(Attempted(s, a, outcomes(n)), caught, outcomes(n + 1)))
  {
    EffectOnJob(s, a);
    assert Effect(s, a).now == s.now;
  }

  lemma StageLeadsOn(s: Site, a: Attempt, outcomes: nat -> Outcome, n: nat, end: Site)
    requires On(s, a, outcomes, n, end) && outcomes(n).Success?
    ensures Then(Effect(s, a), Next(s, a), outcomes, n + 1, end)
  {
    AloneGoes(s, a, outcomes, n);
    EffectAdvances(s, a);
    NextIsOk(s, a);
  }

  lemma StopLeadsOn(s: Site, a: Attempt, outcomes: nat -> Outcome, n: nat, end: Site)
    requires a.pc == StopVm && On(s, a, outcomes, n, end)
    ensures var s' := Attempted(s, a, outcomes(n));
            On(s', a.(pc := DeleteVm), outcomes, n + 1, end) && s'.job == s.job && s'.now == s.now
  {
    AloneStops(s, a, outcomes, n);
    EffectAdvances(s, a);
    NextIsOk(s, a);
  }

  lemma FinishedIsTornDown(s: Site, a: Attempt)
    requires AttemptOk(s, a) && a.pc == FinishJob
    ensures TornDown(Effect(s, a)) && Effect(s, a).job == JobFinished(s.job) && Next(s, a).None?
  {
  }

  class Worker {
    var site: Site

    constructor (s: Site)
      ensures site == s
    {
      site := s;
    }

    /** One awaited write or call; an outcome may report failure although it took effect. */
    method Await(a: Attempt, o: Outcome) returns (ok: bool)
      modifies this
      ensures site == Attempted(old(site), a, o)
      ensures ok == o.Success?
    {
      ok := o.Success?;
      if !ok && !o.effect {
        return;
      }
      match a.pc
      case ReadWorkspace =>
        if !site.present { site := site.(job := site.job.(status := JobDone, nextAttemptAt := None)); }
      case ListSessions =>
      case CloseSession =>
        if a.todo != [] {
          var r := CloseTx(site.db, a.todo[0], site.now);
          if r.Some? { site := site.(db := r.value); }
        }
      case ReleasePorts =>
        site := site.(gatewayHolds := false);
        if site.endpointReleased.Some? { site := site.(endpointReleased := Some(true)); }
      case StopVm =>
        if a.hasVm && site.vm == VmRunning { site := site.(vm := VmStopped); }
      case DeleteVm =>
        if a.hasVm { site := site.(vm := VmGone); }
      case FreeGpu =>
        if a.gpu.Some? && a.gpu.value in site.gpus { site := site.(gpus := site.gpus[a.gpu.value := Gpu(FREE, None)]); }
      case ReleaseAllocation =>
        if a.gpu.Some? && site.allocation.Some? {
          site := site.(allocation := Some(Allocation(site.allocation.value.gpu, true)));
        }
      case ReleaseEndpoint =>
        if site.endpointReleased.Some? { site := site.(endpointReleased := Some(true)); }
      case MarkTerminated => site := site.(terminated := true);
      case FinishJob => site := site.(job := site.job.(status := JobDone, nextAttemptAt := None));
      case RecordError =>
        if a.started >= site.job.maxAttempts {
          site := site.(job := site.job.(status := JobFailed, nextAttemptAt := None));
        } else {
          site := site.(job := site.job.(status := JobRetry,
                                         nextAttemptAt := Some(site.now + Delay(a.started, a.jitter))));
        }
    }

    /** A stage inside the `try`, of an attempt whose run ends in `end`: it leads to the next place, or
        its failure is recorded on the job and that is the end. */
    method Stage(a: Attempt, outcomes: nat -> Outcome, n: nat, ghost end: Site) returns (ok: bool)
      requires a.pc != StopVm && a.pc != RecordError && On(site, a, outcomes, n, end)
      modifies this
      ensures ok == outcomes(n).Success?
      ensures ok ==> site == Effect(old(site), a) && Then(site, Next(old(site), a), outcomes, n + 1, end)
      ensures !ok ==> site == end && Recorded(old(site), a.started, outcomes, n, site)
    {
      ghost var s := site;
      ok := Await(a, outcomes(n));
      if ok {
        StageLeadsOn(s, a, outcomes, n, end);
      } else {
        AloneFails(s, a, outcomes, n);
        CaughtIsRecorded(s, a, outcomes, n);
        var _ := Await(a.(pc := RecordError, jitter := outcomes(n).jitter), outcomes(n + 1));
      }
    }

    /** The loop of `finalizeUsageSessions`. */
    method CloseListed(a0: Attempt, outcomes: nat -> Outcome, n0: nat, ghost end: Site) returns (ok: bool, n: nat)
      requires a0.pc == CloseSession && On(site, a0, outcomes, n0, end)
      modifies this
      ensures ok ==> On(site, a0.(todo := []), outcomes, n, end)
      ensures ok ==> site.job == old(site).job && site.now == old(site).now
      ensures !ok ==> site == end && Recorded(old(site), a0.started, outcomes, n, site)
    {
      n, ok := n0, true;
      var a := a0;
      while a.todo != []
        invariant a == a0.(todo := a.todo) && On(site, a, outcomes, n, end)
        invariant ok && site.job == old(site).job && site.now == old(site).now
        decreases |a.todo|
      {
        ok := Stage(a, outcomes, n, end);
        if !ok { return; }
        n, a := n + 1, a.(todo := a.todo[1..]);
      }
    }

    /** `finalizeUsageSessions`, up to and including the count of sessions still running. */
    method CloseSessions(a0: Attempt, outcomes: nat -> Outcome, n0: nat, ghost end: Site)
      returns (ok: bool, n: nat, a: Attempt)
      requires a0.pc == ListSessions && On(site, a0, outcomes, n0, end)
      modifies this
      ensures ok ==> site.job == old(site).job && site.now == old(site).now
      ensures ok ==> a == a0.(pc := ReleasePorts, todo := []) && On(site, a, outcomes, n, end)
      ensures !ok ==> site == end && Recorded(old(site), a0.started, outcomes, n, site)
    {
      n, a := n0, a0;
      ok := Stage(a, outcomes, n, end);
      if !ok { return; }
      a := a.(pc := CloseSession, todo := OpenSessions(site.db, site.ws));
      ok, n := CloseListed(a, outcomes, n + 1, end);
      if !ok { return; }
      a := a.(todo := []);
      ok := Stage(a, outcomes, n, end);
      if !ok { return; }
      n, a := n + 1, a.(pc := ReleasePorts);
    }

    /** Stopping may fail; deleting may not. */
    method RemoveVm(a0: Attempt, outcomes: nat -> Outcome, n0: nat, ghost end: Site) returns (ok: bool, n: nat)
      requires a0.pc == StopVm && On(site, a0, outcomes, n0, end)
      modifies this
      ensures ok ==> site.job == old(site).job && site.now == old(site).now
      ensures ok ==> On(site, a0.(pc := AfterVm(a0)), outcomes, n, end)
      ensures !ok ==> site == end && Recorded(old(site), a0.started, outcomes, n, site)
    {
      StopLeadsOn(site, a0, outcomes, n0, end);
      var _ := Await(a0, outcomes(n0));
      n := n0 + 1;
      ok := Stage(a0.(pc := DeleteVm), outcomes, n, end);
      if ok { n := n + 1; }
    }

    /** The gateway call and the deletion of the VM. */
    method ReleaseOutside(a0: Attempt, outcomes: nat -> Outcome, n0: nat, ghost end: Site)
      returns (ok: bool, n: nat, a: Attempt)
      requires a0.pc == ReleasePorts && On(site, a0, outcomes, n0, end)
      modifies this
      ensures ok ==> site.job == old(site).job && site.now == old(site).now
      ensures ok ==> a == a0.(pc := AfterVm(a0)) && On(site, a, outcomes, n, end)
      ensures !ok ==> site == end && Recorded(old(site), a0.started, outcomes, n, site)
    {
      n, a := n0, a0;
      ok := Stage(a, outcomes, n, end);
      if !ok { return; }
      n := n + 1;
      if a.hasVm {
        ok, n := RemoveVm(a.(pc := StopVm), outcomes, n, end);
      }
      a := a.(pc := AfterVm(a));
    }

    /** The GPU and its allocation. */
    method ReleaseGpu(a0: Attempt, outcomes: nat -> Outcome, n0: nat, ghost end: Site)
      returns (ok: bool, n: nat, a: Attempt)
      requires a0.pc == AfterVm(a0) && On(site, a0, outcomes, n0, end)
      modifies this
      ensures ok ==> site.job == old(site).job && site.now == old(site).now
      ensures ok ==> a == a0.(pc := ReleaseEndpoint) && On(site, a, outcomes, n, end)
      ensures !ok ==> site == end && Recorded(old(site), a0.started, outcomes, n, site)
    {
      n, a := n0, a0;
      ok := true;
      if a.gpu.Some? {
        ok := Stage(a, outcomes, n, end);
        if !ok { return; }
        n, a := n + 1, a.(pc := ReleaseAllocation);
        ok := Stage(a, outcomes, n, end);
        if !ok { return; }
        n, a := n + 1, a.(pc := ReleaseEndpoint);
      }
    }

    /** A row update after the GPU's; it leaves the job alone. */
    method RowStage(a: Attempt, outcomes: nat -> Outcome, n: nat, ghost end: Site) returns (ok: bool)
      requires (a.pc == ReleaseEndpoint || a.pc == MarkTerminated) && On(site, a, outcomes, n, end)
      modifies this
      ensures ok ==> site.job == old(site).job && site.now == old(site).now
      ensures ok ==> On(site, a.(pc := if a.pc == ReleaseEndpoint then MarkTerminated else FinishJob), outcomes,
                        n + 1, end)
      ensures !ok ==> site == end && Recorded(old(site), a.started, outcomes, n, site)
    {
      RowsLeaveJob(site, a);
      ok := Stage(a, outcomes, n, end);
    }

    /** The endpoint, workspace and job rows. */
    method FinishRows(a0: Attempt, outcomes: nat -> Outcome, n0: nat, ghost end: Site) returns (ok: bool, n: nat)
      requires a0.pc == ReleaseEndpoint && On(site, a0, outcomes, n0, end)
      modifies this
      ensures site == end
      ensures ok ==> TornDown(site) && site.job == JobFinished(old(site).job)
      ensures !ok ==> Recorded(old(site), a0.started, outcomes, n, site)
    {
      n := n0;
      ok := RowStage(a0, outcomes, n, end);
      if !ok { return; }
      n := n + 1;
      ok := RowStage(a0.(pc := MarkTerminated), outcomes, n, end);
      if !ok { return; }
      n := n + 1;
      ghost var s := site;
      ok := Stage(a0.(pc := FinishJob), outcomes, n, end);
      if ok { FinishedIsTornDown(s, a0.(pc := FinishJob)); }
    }

    /** Everything after the workspace row was read and found. */
    method TearDown(a0: Attempt, outcomes: nat -> Outcome, ghost end: Site) returns (ok: bool, n: nat)
      requires a0.pc == ListSessions && On(site, a0, outcomes, 1, end)
      modifies this
      ensures site == end
      ensures ok ==> TornDown(site) && site.job == JobFinished(old(site).job)
      ensures !ok ==> Recorded(old(site), a0.started, outcomes, n, site)
    {
      var a;
      ok, n, a := CloseSessions(a0, outcomes, 1, end);
      if !ok { return; }
      ok, n, a := ReleaseOutside(a, outcomes, n, end);
      if !ok { return; }
      ok, n, a := ReleaseGpu(a, outcomes, n, end);
      if !ok { return; }
      ok, n := FinishRows(a, outcomes, n, end);
    }

    /** The `try` block and its handler. */
    method Attempting(a: Attempt, outcomes: nat -> Outcome, ghost end: Site) returns (ok: bool, n: nat)
      requires a == FirstPlace(a.started) && On(site, a, outcomes, 0, end)
      modifies this
      ensures site == end
      ensures ok ==> site.job == JobFinished(old(site).job) && (old(site).present ==> TornDown(site))
      ensures !ok ==> Recorded(old(site), a.started, outcomes, n, site)
    {
      n := 0;
      ok := Stage(a, outcomes, n, end);
      if ok && site.present {
        ok, n := TearDown(a.(pc := ListSessions, hasVm := site.hasVm, gpu := GpuOf(site)), outcomes, end);
      }
    }

    /** One attempt.  It is the run of the attempt in the cleanup protocol; if it returns normally the
        workspace is torn down and the job DONE; otherwise the failure is recorded on the job, FAILED
        exactly when the attempts are used up. */
    method ProcessCleanupJob(outcomes: nat -> Outcome) returns (ok: bool, n: nat)
      requires RowsMatch(site.db) && OneRunningEach(site.db)
      modifies this
      ensures var s0 := old(site).(job := Started(old(site).job));
              && site == Run(Alone(s0, FirstPlace(s0.job.attemptCount)), 0, outcomes, 0).site
              && (ok && old(site).present ==> TornDown(site))
              && (ok ==> site.job == JobFinished(s0.job))
              && (!ok ==> Recorded(s0, s0.job.attemptCount, outcomes, n, site))
      ensures ok ==> site.job == Job(JobDone, old(site).job.attemptCount + 1, old(site).job.maxAttempts, None)
      ensures !ok ==> outcomes(n).Failure?
      ensures !ok && outcomes(n + 1).Success? ==>
                FailureOnJob(site.job, old(site).job.attemptCount + 1, old(site).job.maxAttempts, old(site).now)
    {
      site := site.(job := site.job.(status := JobRunning, attemptCount := site.job.attemptCount + 1));
      var a := FirstPlace(site.job.attemptCount);
      ok, n := Attempting(a, outcomes, Run(Alone(site, a), 0, outcomes, 0).site);
    }
  }
}
