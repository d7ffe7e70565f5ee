/**
 The life of a training run: one row that agent events, the executor's stages and the cancel route
 drive through its stages, and that two reporters bill to Stripe.  A step reads the row, decides and
 writes it in one go; what a decision on an earlier read can do is shown at the end.
 */
module RunLifecycle {
  import opened Wrappers
  import opened Rounding

  type Pid = nat

  datatype Status =
    | QUEUED | PROVISIONING | INITIALIZING | RUNNING | UPLOADING_ARTIFACTS
    | COMPLETED | FAILED | CANCELED | TIMED_OUT

  datatype Run = Run(
    status: Status,
    hoursMax: nat,
    hasWorkspace: bool,
    startedAt: Option<int>,
    finishedAt: Option<int>,
    infraFinishedAt: Option<int>,
    billedSeconds: int,
    reported: bool)

  predicate Terminal(s: Status) {
    s in {COMPLETED, FAILED, CANCELED, TIMED_OUT}
  }

  /** `VALID_TRANSITIONS`: what an agent may report next. */
  function Allowed(s: Status): set<Status> {
    match s
    case QUEUED => {PROVISIONING, FAILED, CANCELED}
    case PROVISIONING => {INITIALIZING, FAILED, CANCELED}
    case INITIALIZING => {RUNNING, FAILED, CANCELED}
    case RUNNING => {UPLOADING_ARTIFACTS, COMPLETED, FAILED, CANCELED, TIMED_OUT}
    case UPLOADING_ARTIFACTS => {COMPLETED, FAILED}
    case _ => {}
  }

  function Rank(s: Status): nat {
    match s
    case QUEUED => 0
    case PROVISIONING => 1
    case INITIALIZING => 2
    case RUNNING => 3
    case UPLOADING_ARTIFACTS => 4
    case _ => 5
  }

  /** How the executor's start of a run ends: the agent accepts, its call fails, or something fails before
      the call. */
  datatype StartResult = Accepted | CallFails | SetupFails

  datatype Act =
    | AgentReports(state: Status)
    | Cancel
    | Provision(works: bool)
    | CheckWorkspace(ready: bool)
    | Initialize(start: StartResult)
    | CheckTimeout
    | HeartbeatLost
    | Finalize
    | SweepTimedOut

  /** The `data` of an update; `None` leaves a column alone. */
  datatype Patch = Patch(
    status: Option<Status> := None,
    hasWorkspace: Option<bool> := None,
    startedAt: Option<int> := None,
    finishedAt: Option<int> := None,
    infraFinishedAt: Option<int> := None,
    billedSeconds: Option<int> := None)

  function Seconds(from: int, to: int): int {
    CeilDiv(to - from, 1000)
  }

  function SetStatus(s: Status): Patch {
    Patch(status := Some(s))
  }

  function FailedPatch(now: int, infra: bool): Patch {
    Patch(status := Some(FAILED), finishedAt := Some(now), infraFinishedAt := if infra then Some(now) else None)
  }

  function Ended(s: Status, r: Run, now: int): Patch {
    Patch(status := Some(s), finishedAt := Some(now), infraFinishedAt := Some(now),
          billedSeconds := if r.startedAt.Some? then Some(Seconds(r.startedAt.value, now)) else None)
  }

  function AgentPatch(r: Run, state: Status, now: int): Patch {
    if state == RUNNING then Patch(status := Some(RUNNING), startedAt := Some(now))
    else if Terminal(state) then Ended(state, r, now)
    else SetStatus(state)
  }

  function MaxMs(r: Run): nat {
    r.hoursMax * 3600 * 1000
  }

  function FinalBill(r: Run, now: int): int {
    if r.startedAt.Some? && r.billedSeconds == 0
    then Seconds(r.startedAt.value, if r.finishedAt.Some? then r.finishedAt.value else now)
    else r.billedSeconds
  }

  function Or(a: Option<int>, b: int): Option<int> {
    if a.Some? then a else Some(b)
  }

  /** The update an action makes of the row it has read; `None` is no update. */
  function Decide(r: Run, act: Act, now: int): Option<Patch> {
    match act
    case AgentReports(state) => if state in Allowed(r.status) then Some(AgentPatch(r, state, now)) else None
    case Cancel => if Terminal(r.status) then None
      else Some(Patch(status := Some(CANCELED), infraFinishedAt := Some(now)))
    case Provision(works) =>
      if r.status != QUEUED then None
      else if works then Some(Patch(status := Some(PROVISIONING), hasWorkspace := Some(true)))
      else Some(FailedPatch(now, false))
    case CheckWorkspace(ready) =>
      if r.status != PROVISIONING || !r.hasWorkspace then None
      else Some(if ready then SetStatus(INITIALIZING) else FailedPatch(now, false))
    case Initialize(start) =>
      if r.status != INITIALIZING || !r.hasWorkspace then None
      else if start == Accepted then Some(Patch(status := Some(RUNNING), startedAt := Some(now)))
      else Some(FailedPatch(now, start == CallFails))
    case CheckTimeout =>
      if r.status == RUNNING && r.startedAt.Some? && now - r.startedAt.value >= MaxMs(r)
        then Some(Ended(TIMED_OUT, r, now)) else None
    case HeartbeatLost =>
      if r.status != RUNNING then None
      else
        var seconds := if r.startedAt.Some? then Seconds(r.startedAt.value, now) else 0;
        Some(Ended(FAILED, r, now).(billedSeconds := Some(seconds)))
    case Finalize =>
      if r.status != UPLOADING_ARTIFACTS then None
      else Some(Patch(status := Some(COMPLETED), finishedAt := Or(r.finishedAt, now),
                      infraFinishedAt := Or(r.infraFinishedAt, now), billedSeconds := Some(FinalBill(r, now))))
    case SweepTimedOut =>
      if r.status == TIMED_OUT && r.hasWorkspace && r.infraFinishedAt.None?
        then Some(Patch(infraFinishedAt := Some(now))) else None
  }

  function Updated(r: Run, p: Patch): Run {
    r.(status := if p.status.Some? then p.status.value else r.status,
       hasWorkspace := if p.hasWorkspace.Some? then p.hasWorkspace.value else r.hasWorkspace,
       startedAt := if p.startedAt.Some? then p.startedAt else r.startedAt,
       finishedAt := if p.finishedAt.Some? then p.finishedAt else r.finishedAt,
       infraFinishedAt := if p.infraFinishedAt.Some? then p.infraFinishedAt else r.infraFinishedAt,
       billedSeconds := if p.billedSeconds.Some? then p.billedSeconds.value else r.billedSeconds)
  }

  /** An update of `row` decided on `seen`. */
  function Blind(row: Run, seen: Run, act: Act, now: int): Run {
    var p := Decide(seen, act, now);
    if p.Some? then Updated(row, p.value) else row
  }

  function Acted(r: Run, act: Act, now: int): Run {
    Blind(r, r, act, now)
  }

  // ---------------------------------------------------------------------------------------------
  // The system
  // ---------------------------------------------------------------------------------------------

  datatype Phase = Ready | Posted | Acknowledged

  /** A reporter of either service, with the seconds it read. */
  datatype Reporter = Reporter(phase: Phase, value: int)

  /** Stripe keeps one event under the run's identifier; `wire` holds the values ever posted.
      `changes` counts the changes of status: it is history. */
  datatype World = World(run: Run, stripe: Option<int>, wire: set<int>, now: int, reporters: map<Pid, Reporter>,
                         changes: nat)

  datatype Step =
    | Tick(ms: nat)
    | Take(act: Act)
    | StartReport(pid: Pid, hasCustomer: bool)
    | Post(pid: Pid)
    | StripeTakes(value: int)
    | Reply(pid: Pid)
    | MarkReported(pid: Pid)
    | Drop(pid: Pid)

  function TakeStep(w: World, act: Act): World {
    var r := Acted(w.run, act, w.now);
    w.(run := r, changes := if r.status != w.run.status then w.changes + 1 else w.changes)
  }

  /** The guard both reporters share. */
  predicate ShouldReport(r: Run, hasCustomer: bool) {
    hasCustomer && !r.reported && r.billedSeconds != 0
  }

  predicate At(w: World, pid: Pid, phase: Phase) {
    pid in w.reporters && w.reporters[pid].phase == phase
  }

  function StartReportStep(w: World, pid: Pid, hasCustomer: bool): World {
    if pid !in w.reporters && ShouldReport(w.run, hasCustomer)
    then w.(reporters := w.reporters[pid := Reporter(Ready, w.run.billedSeconds)]) else w
  }

  function PostStep(w: World, pid: Pid): World {
    if At(w, pid, Ready)
    then w.(wire := w.wire + {w.reporters[pid].value},
            reporters := w.reporters[pid := w.reporters[pid].(phase := Posted)]) else w
  }

  /** Stripe acknowledges only when it holds an event under the identifier. */
  function ReplyStep(w: World, pid: Pid): World {
    if At(w, pid, Posted) && w.stripe.Some?
    then w.(reporters := w.reporters[pid := w.reporters[pid].(phase := Acknowledged)]) else w
  }

  function MarkReportedStep(w: World, pid: Pid): World {
    if At(w, pid, Acknowledged) then w.(run := w.run.(reported := true), reporters := w.reporters - {pid}) else w
  }

  function Apply(w: World, step: Step): World {
    match step
    case Tick(ms) => w.(now := w.now + ms)
    case Take(act) => TakeStep(w, act)
    case StartReport(pid, hasCustomer) => StartReportStep(w, pid, hasCustomer)
    case Post(pid) => PostStep(w, pid)
    case StripeTakes(value) => if value in w.wire && w.stripe.None? then w.(stripe := Some(value)) else w
    case Reply(pid) => ReplyStep(w, pid)
    case MarkReported(pid) => MarkReportedStep(w, pid)
    case Drop(pid) => w.(reporters := w.reporters - {pid})
  }

  function Exec(w: World, steps: seq<Step>): World
    decreases |steps|
  {
    if steps == [] then w else Exec(Apply(w, steps[0]), steps[1..])
  }

  function NewRun(hoursMax: nat): Run {
    Run(QUEUED, hoursMax, false, None, None, None, 0, false)
  }

  function Start(hoursMax: nat, now: int): World {
    World(NewRun(hoursMax), None, {}, now, map[], 0)
  }

  // ---------------------------------------------------------------------------------------------
  // The invariant
  // ---------------------------------------------------------------------------------------------

  /** A run that is not over has no bill and no end; one that is over is billed its own duration, or
      nothing if it never started or was canceled by its user. */
  predicate RowOk(r: Run, now: int) {
    && (r.startedAt.Some? ==> r.startedAt.value <= now)
    && (Rank(r.status) < 3 ==> r.startedAt.None?)
    && (!Terminal(r.status) ==> r.billedSeconds == 0 && r.finishedAt.None?)
    && (r.status in {RUNNING, UPLOADING_ARTIFACTS} ==> r.startedAt.Some?)
    && (r.status == TIMED_OUT ==> r.infraFinishedAt.Some?)
    && (Terminal(r.status) ==>
          && (r.finishedAt.None? ==> r.status == CANCELED && r.billedSeconds == 0)
          && (r.startedAt.None? ==> r.billedSeconds == 0)
          && (r.startedAt.Some? && r.finishedAt.Some? ==>
                r.startedAt.value <= r.finishedAt.value <= now
                  && r.billedSeconds == Seconds(r.startedAt.value, r.finishedAt.value)))
  }

  /** Whatever was read for a report, posted or taken is the bill of a run that is over. */
  ghost predicate ReportsMatch(w: World) {
    && (forall v | v in w.wire :: v == w.run.billedSeconds != 0)
    && (w.stripe.Some? ==> w.stripe.value == w.run.billedSeconds != 0)
    && (w.run.reported ==> w.stripe.Some?)
    && (forall p | p in w.reporters ::
          && w.reporters[p].value == w.run.billedSeconds != 0
          && (w.reporters[p].phase == Acknowledged ==> w.stripe.Some?))
  }

  ghost predicate Inv(w: World) {
    RowOk(w.run, w.now) && ReportsMatch(w) && w.changes <= Rank(w.run.status)
  }

  /** The columns of the bill. */
  predicate SameOutcome(a: Run, b: Run) {
    a.status == b.status && a.billedSeconds == b.billedSeconds && a.startedAt == b.startedAt
      && a.finishedAt == b.finishedAt
  }

  /** Every change of status raises the stage, and a run that is over keeps its outcome. */
  lemma ChangesRaiseTheStage(r: Run, act: Act, now: int)
    ensures var r' := Acted(r, act, now);
            && (r'.status != r.status ==> Rank(r.status) < Rank(r'.status))
            && (Terminal(r.status) ==> SameOutcome(r, r'))
            && r'.reported == r.reported
  {
  }

  lemma ActKeepsRow(r: Run, act: Act, now: int)
    requires RowOk(r, now)
    ensures RowOk(Acted(r, act, now), now)
  {
  }

  lemma ActKeepsBillOnceSet(r: Run, act: Act, now: int)
    requires RowOk(r, now) && r.billedSeconds != 0
    ensures Acted(r, act, now).billedSeconds == r.billedSeconds
  {
    ChangesRaiseTheStage(r, act, now);
  }

  lemma StepKeeps(w: World, step: Step)
    requires Inv(w)
    ensures Inv(Apply(w, step)) && (Terminal(w.run.status) ==> SameOutcome(w.run, Apply(w, step).run))
  {
    if step.Take? {
      ChangesRaiseTheStage(w.run, step.act, w.now);
      ActKeepsRow(w.run, step.act, w.now);
      if w.run.billedSeconds != 0 { ActKeepsBillOnceSet(w.run, step.act, w.now); }
    }
  }

  lemma {:induction false} ExecKeeps(w: World, steps: seq<Step>)
    requires Inv(w)
    ensures Inv(Exec(w, steps)) && (Terminal(w.run.status) ==> SameOutcome(w.run, Exec(w, steps).run))
    decreases |steps|
  {
    if steps == [] {
    } else {
      StepKeeps(w, steps[0]);
      ExecKeeps(Apply(w, steps[0]), steps[1..]);
    }
  }

  lemma ExecFirst(w: World, steps: seq<Step>, step: Step, rest: seq<Step>)
    requires steps == [step] + rest
    ensures Exec(w, steps) == Exec(Apply(w, step), rest)
  {
    assert steps[0] == step && steps[1..] == rest;
  }

  lemma {:induction false} ExecSplits(w: World, steps: seq<Step>, more: seq<Step>)
    ensures Exec(w, steps + more) == Exec(Exec(w, steps), more)
    decreases |steps|
  {
    if steps == [] {
      assert steps + more == more;
    } else {
      assert (steps + more)[1..] == steps[1..] + more;
      ExecSplits(Apply(w, steps[0]), steps[1..], more);
    }
  }

  // ---------------------------------------------------------------------------------------------
  // Main results
  // ---------------------------------------------------------------------------------------------

  /** What `changes` counts. */
  lemma ChangesIff(w: World, step: Step)
    ensures Apply(w, step).changes == w.changes + if Apply(w, step).run.status != w.run.status then 1 else 0
  {
  }

  /** The run of a run that nothing disturbs: it gets its workspace, starts, works for `ms`, uploads, and is
      finalized. */
  function UndisturbedRun(ms: nat): seq<Step> {
    [Take(Provision(true)), Take(CheckWorkspace(true)), Take(Initialize(Accepted))]
    + [Tick(ms), Take(AgentReports(UPLOADING_ARTIFACTS)), Take(Finalize)]
  }

  lemma StartsRunning(hoursMax: nat, now: int, rest: seq<Step>)
    ensures Exec(Start(hoursMax, now),
                 [Take(Provision(true)), Take(CheckWorkspace(true)), Take(Initialize(Accepted))] + rest)
         == Exec(World(Run(RUNNING, hoursMax, true, Some(now), None, None, 0, false), None, {}, now, map[], 3), rest)
  {
    var w := Start(hoursMax, now);
    var w1 := TakeStep(w, Provision(true));
    var w2 := TakeStep(w1, CheckWorkspace(true));
    var all := [Take(Provision(true)), Take(CheckWorkspace(true)), Take(Initialize(Accepted))] + rest;
    ExecFirst(w, all, Take(Provision(true)), [Take(CheckWorkspace(true)), Take(Initialize(Accepted))] + rest);
    ExecFirst(w1, [Take(CheckWorkspace(true)), Take(Initialize(Accepted))] + rest, Take(CheckWorkspace(true)),
              [Take(Initialize(Accepted))] + rest);
    ExecFirst(w2, [Take(Initialize(Accepted))] + rest, Take(Initialize(Accepted)), rest);
  }

  /** A run that nothing disturbs is COMPLETED in five changes of status, and billed the time it worked. */
  lemma UndisturbedCompletes(hoursMax: nat, now: int, ms: nat)
    ensures var w := Exec(Start(hoursMax, now), UndisturbedRun(ms));
            && w.run == Run(COMPLETED, hoursMax, true, Some(now), Some(now + ms), Some(now + ms),
                            w.run.billedSeconds, false)
            && 1000 * (w.run.billedSeconds - 1) < ms <= 1000 * w.run.billedSeconds
            && w.changes == 5 && w.stripe == None
  {
    var rest := [Tick(ms), Take(AgentReports(UPLOADING_ARTIFACTS)), Take(Finalize)];
    StartsRunning(hoursMax, now, rest);
    var w := World(Run(RUNNING, hoursMax, true, Some(now), None, None, 0, false), None, {}, now, map[], 3);
    var w1 := w.(now := now + ms);
    ExecFirst(w, rest, Tick(ms), [Take(AgentReports(UPLOADING_ARTIFACTS)), Take(Finalize)]);
    ExecFirst(w1, [Take(AgentReports(UPLOADING_ARTIFACTS)), Take(Finalize)], Take(AgentReports(UPLOADING_ARTIFACTS)),
              [Take(Finalize)]);
    ExecFirst(TakeStep(w1, AgentReports(UPLOADING_ARTIFACTS)), [Take(Finalize)], Take(Finalize), []);
  }

  /** A run changes status at most five times. */
  lemma AtMostFiveChanges(hoursMax: nat, now: int, steps: seq<Step>)
    ensures Exec(Start(hoursMax, now), steps).changes <= 5
  {
    ExecKeeps(Start(hoursMax, now), steps);
  }

  /** Once over, a run keeps its status, its times and its bill. */
  lemma TerminalAbsorbs(hoursMax: nat, now: int, steps: seq<Step>, more: seq<Step>)
    requires Terminal(Exec(Start(hoursMax, now), steps).run.status)
    ensures SameOutcome(Exec(Start(hoursMax, now), steps).run, Exec(Start(hoursMax, now), steps + more).run)
  {
    ExecKeeps(Start(hoursMax, now), steps);
    ExecSplits(Start(hoursMax, now), steps, more);
    ExecKeeps(Exec(Start(hoursMax, now), steps), more);
  }

  /** The bill of a run that is over: the seconds from its start to its end rounded up, and nothing
      for one that never started or that its user canceled. */
  lemma BillIsDuration(hoursMax: nat, now: int, steps: seq<Step>)
    ensures var r := Exec(Start(hoursMax, now), steps).run;
            && (!Terminal(r.status) ==> r.billedSeconds == 0)
            && (r.finishedAt.None? && Terminal(r.status) ==> r.status == CANCELED)
            && r.billedSeconds == (if r.startedAt.Some? && r.finishedAt.Some?
                                   then Seconds(r.startedAt.value, r.finishedAt.value) else 0)
            && r.billedSeconds >= 0
  {
    ExecKeeps(Start(hoursMax, now), steps);
    var r := Exec(Start(hoursMax, now), steps).run;
    if r.startedAt.Some? && r.finishedAt.Some? {
      CeilDivNonNegative(r.finishedAt.value - r.startedAt.value, 1000);
    }
  }

  /** Both reporters together, with lost replies, retries and crashes, have Stripe hold nothing or the
      final bill; a run marked as reported is at Stripe; and what Stripe holds never changes. */
  lemma StripeHoldsTheBill(hoursMax: nat, now: int, steps: seq<Step>, more: seq<Step>)
    ensures var w := Exec(Start(hoursMax, now), steps);
            && (w.stripe.Some? ==> Terminal(w.run.status) && w.stripe.value == w.run.billedSeconds > 0)
            && (w.run.reported ==> w.stripe.Some?)
            && (w.stripe.Some? ==> Exec(Start(hoursMax, now), steps + more).stripe == w.stripe)
  {
    ExecKeeps(Start(hoursMax, now), steps);
    BillIsDuration(hoursMax, now, steps);
    ExecSplits(Start(hoursMax, now), steps, more);
    if Exec(Start(hoursMax, now), steps).stripe.Some? { StripeKeeps(Exec(Start(hoursMax, now), steps), more); }
  }

  lemma {:induction false} StripeKeeps(w: World, steps: seq<Step>)
    requires w.stripe.Some?
    ensures Exec(w, steps).stripe == w.stripe
    decreases |steps|
  {
    if steps == [] {
    } else {
      StripeKeeps(Apply(w, steps[0]), steps[1..]);
    }
  }

  /** A run its user cancels never reaches Stripe, however long it has been running. */
  lemma UserCancelIsNeverBilled(hoursMax: nat, now: int, steps: seq<Step>, more: seq<Step>)
    requires !Terminal(Exec(Start(hoursMax, now), steps).run.status)
    ensures var w := Exec(Start(hoursMax, now), (steps + [Take(Cancel)]) + more);
            w.run.status == CANCELED && w.run.billedSeconds == 0 && w.stripe.None? && !w.run.reported
  {
    var w := Exec(Start(hoursMax, now), steps);
    var w1 := TakeStep(w, Cancel);
    ExecKeeps(Start(hoursMax, now), steps);
    StepKeeps(w, Take(Cancel));
    ExecSplits(Start(hoursMax, now), steps, [Take(Cancel)]);
    assert [Take(Cancel)][1..] == [] && Exec(w, [Take(Cancel)]) == w1;
    ExecSplits(Start(hoursMax, now), steps + [Take(Cancel)], more);
    ExecKeeps(w1, more);
  }

  /** A report that nothing disturbs. */
  function ReportingRun(pid: Pid, value: int): seq<Step> {
    [StartReport(pid, true), Post(pid), StripeTakes(value), Reply(pid), MarkReported(pid)]
  }

  lemma ReportPosts(w: World, pid: Pid, rest: seq<Step>)
    requires pid !in w.reporters && !w.run.reported && w.run.billedSeconds != 0
    ensures var v := w.run.billedSeconds;
            Exec(w, [StartReport(pid, true), Post(pid)] + rest) ==
            Exec(w.(wire := w.wire + {v}, reporters := w.reporters[pid := Reporter(Posted, v)]), rest)
  {
    var w1 := StartReportStep(w, pid, true);
    ExecFirst(w, [StartReport(pid, true), Post(pid)] + rest, StartReport(pid, true), [Post(pid)] + rest);
    ExecFirst(w1, [Post(pid)] + rest, Post(pid), rest);
    assert w1.reporters[pid := Reporter(Posted, w.run.billedSeconds)]
        == w.reporters[pid := Reporter(Posted, w.run.billedSeconds)];
  }

  /** After any run a bill that is not reported yet can be: Stripe then holds exactly it, and the run is
      marked, with nothing else of it changed. */
  lemma BillCanBeReported(hoursMax: nat, now: int, steps: seq<Step>, pid: Pid)
    requires var w := Exec(Start(hoursMax, now), steps);
             pid !in w.reporters && !w.run.reported && w.run.billedSeconds != 0
    ensures var w := Exec(Start(hoursMax, now), steps);
            var w' := Exec(w, ReportingRun(pid, w.run.billedSeconds));
            && w'.stripe == Some(w.run.billedSeconds) && w'.run == w.run.(reported := true)
            && w'.reporters == w.reporters && w'.now == w.now
  {
    ExecKeeps(Start(hoursMax, now), steps);
    var w := Exec(Start(hoursMax, now), steps);
    var v := w.run.billedSeconds;
    var rest := [StripeTakes(v), Reply(pid), MarkReported(pid)];
    assert ReportingRun(pid, v) == [StartReport(pid, true), Post(pid)] + rest;
    ReportPosts(w, pid, rest);
    PostIsTaken(w.(wire := w.wire + {v}, reporters := w.reporters[pid := Reporter(Posted, v)]), pid, v);
    assert w.reporters[pid := Reporter(Posted, v)] - {pid} == w.reporters;
  }

  lemma PostIsTaken(w: World, pid: Pid, v: int)
    requires At(w, pid, Posted) && v in w.wire && (w.stripe.Some? ==> w.stripe.value == v)
    ensures Exec(w, [StripeTakes(v), Reply(pid), MarkReported(pid)])
         == w.(stripe := Some(v), run := w.run.(reported := true), reporters := w.reporters - {pid})
  {
    var w1 := Apply(w, StripeTakes(v));
    var w2 := ReplyStep(w1, pid);
    ExecFirst(w, [StripeTakes(v), Reply(pid), MarkReported(pid)], StripeTakes(v), [Reply(pid), MarkReported(pid)]);
    ExecFirst(w1, [Reply(pid), MarkReported(pid)], Reply(pid), [MarkReported(pid)]);
    ExecFirst(w2, [MarkReported(pid)], MarkReported(pid), []);
  }

  predicate UploadTimeoutLive(r: Run) {
    r.status == UPLOADING_ARTIFACTS && r.finishedAt.Some?
  }

  /** While every update reads, decides and writes in one go, two safety nets of the executor never
      catch anything: the upload time-out looks at an end that an uploading run does not have, and the
      clean-up of timed-out runs for the lack of one that they always have. */
  lemma DeadBranches(hoursMax: nat, now: int, steps: seq<Step>)
    ensures var w := Exec(Start(hoursMax, now), steps);
            !UploadTimeoutLive(w.run) && Decide(w.run, SweepTimedOut, w.now).None?
  {
    ExecKeeps(Start(hoursMax, now), steps);
  }

  // ---------------------------------------------------------------------------------------------
  // Decisions on an earlier read
  // ---------------------------------------------------------------------------------------------

  /** The executor's updates carry no guard on the status.  One decided on an earlier read revives a
      run that has ended since, exactly when it leads to a stage that is not an end. */
  lemma StaleWriteRevivesIff(row: Run, seen: Run, act: Act, now: int)
    requires Terminal(row.status) && Decide(seen, act, now).Some?
    ensures !Terminal(Blind(row, seen, act, now).status)
       <==> act in {Provision(true), CheckWorkspace(true), Initialize(Accepted)}
            || (act.AgentReports? && !Terminal(act.state))
  {
  }

  /** A run canceled while the executor waits for the agent runs on. */
  lemma CancelDuringInitialize(seen: Run, now: int)
    requires seen.status == INITIALIZING && seen.hasWorkspace
    ensures var canceled := Acted(seen, Cancel, now);
            canceled.status == CANCELED && Blind(canceled, seen, Initialize(Accepted), now).status == RUNNING
  {
  }

  /** The upload time-out comes to life exactly when an agent's report of uploading, decided while the
      run was still running, is written after the run has got its end. */
  lemma UploadTimeoutLiveIff(row: Run, seen: Run, act: Act, now: int, t: int)
    requires RowOk(row, t)
    ensures UploadTimeoutLive(Blind(row, seen, act, now))
       <==> seen.status == RUNNING && act == AgentReports(UPLOADING_ARTIFACTS) && row.finishedAt.Some?
  {
  }

  /** An update of the row decided on any read whatsoever. */
  datatype Write = Write(seen: Run, act: Act, now: int)

  function Written(row: Run, writes: seq<Write>): Run {
    if writes == [] then row
    else
      var last := writes[|writes| - 1];
      Blind(Written(row, writes[..|writes| - 1]), last.seen, last.act, last.now)
  }

  /** Each update acts on the row as the ones before have left it. */
  lemma WrittenGoesOn(row: Run, writes: seq<Write>, last: Write)
    ensures Written(row, writes + [last]) == Blind(Written(row, writes), last.seen, last.act, last.now)
  {
    assert (writes + [last])[..|writes|] == writes;
  }

  /** What that clean-up would do. */
  lemma SweepEndsInfra(r: Run, now: int)
    requires r.status == TIMED_OUT && r.hasWorkspace && r.infraFinishedAt == None
    ensures Acted(r, SweepTimedOut, now) == r.(infraFinishedAt := Some(now))
  {
  }

  /** The clean-up of timed-out runs stays dead under stale updates too, in any number. */
  lemma {:induction false} SweepIsDeadForAllWrites(row: Run, writes: seq<Write>, now: int)
    requires row.status == TIMED_OUT ==> row.infraFinishedAt.Some?
    ensures var r := Written(row, writes);
            (r.status == TIMED_OUT ==> r.infraFinishedAt.Some?) && Decide(r, SweepTimedOut, now).None?
  {
    if writes != [] { SweepIsDeadForAllWrites(row, writes[..|writes| - 1], now); }
  }

  /** The updates that write a bill: an agent's report of an end, the time-out, the loss of the
      heartbeat and the finalization, each of a run read as started and not over. */
  predicate WritesBill(seen: Run, act: Act, now: int) {
    match act
    case AgentReports(state) => Terminal(state) && state in Allowed(seen.status) && seen.startedAt.Some?
    case CheckTimeout => seen.status == RUNNING && seen.startedAt.Some? && now - seen.startedAt.value >= MaxMs(seen)
    case HeartbeatLost => seen.status == RUNNING
    case Finalize => seen.status == UPLOADING_ARTIFACTS
    case _ => false
  }

  /** The k-th whole second after `start` falls between the two instants. */
  predicate SecondPasses(start: int, from: int, to: int, k: int) {
    from <= start + 1000 * k < to
  }

  lemma SecondsDifferIff(start: int, from: int, to: int)
    requires start <= from <= to
    ensures Seconds(start, from) != Seconds(start, to) <==> exists k :: SecondPasses(start, from, to, k)
  {
    CeilDivMonotone(from - start, to - start, 1000);
    if Seconds(start, from) != Seconds(start, to) {
      assert SecondPasses(start, from, to, Seconds(start, from));
    }
  }

  /** What an earlier read of the same run agrees on with the row: a start once written stays. */
  predicate EarlierRead(seen: Run, row: Run) {
    seen.startedAt.Some? ==> row.startedAt == seen.startedAt
  }

  lemma {:induction false} StartIsKept(w: World, steps: seq<Step>)
    requires Inv(w)
    ensures EarlierRead(w.run, Exec(w, steps).run)
    decreases |steps|
  {
    if steps == [] {
    } else {
      StepKeeps(w, steps[0]);
      StartIsKept(Apply(w, steps[0]), steps[1..]);
    }
  }

  /** When a late update changes the bill of a finished run, for every row, read and action: exactly
      when it is one that writes a bill and, for a run with an end, a whole second after its start
      passes between that end and the update; for one its user canceled, any time after its start. */
  lemma StaleUpdateRebillsIff(row: Run, seen: Run, act: Act, now: int)
    requires Terminal(row.status) && RowOk(row, now) && RowOk(seen, now) && EarlierRead(seen, row)
    ensures Blind(row, seen, act, now).billedSeconds != row.billedSeconds
       <==> && WritesBill(seen, act, now)
            && match row.finishedAt
               case Some(end) => exists k :: SecondPasses(seen.startedAt.value, end, now, k)
               case None => seen.startedAt.value < now
  {
    if WritesBill(seen, act, now) {
      var start := seen.startedAt.value;
      BillWritten(row, seen, act, now);
      SecondsDifferIff(start, if row.finishedAt.Some? then row.finishedAt.value else start, now);
    }
  }

  lemma BillWritten(row: Run, seen: Run, act: Act, now: int)
    requires RowOk(seen, now) && WritesBill(seen, act, now)
    ensures var r := Blind(row, seen, act, now);
            seen.startedAt.Some? && r.billedSeconds == Seconds(seen.startedAt.value, now) && Terminal(r.status)
  {
  }

  /** The same over runs: `steps` lead to the read, `more` to the row it is written to. */
  lemma LateWriteRebillsIff(hoursMax: nat, t0: int, steps: seq<Step>, more: seq<Step>, act: Act)
    requires Terminal(Exec(Start(hoursMax, t0), steps + more).run.status)
    ensures var seen := Exec(Start(hoursMax, t0), steps).run;
            var w := Exec(Start(hoursMax, t0), steps + more);
            && (WritesBill(seen, act, w.now) ==> seen.startedAt.Some?)
            && (Blind(w.run, seen, act, w.now).billedSeconds != w.run.billedSeconds
                <==> && WritesBill(seen, act, w.now)
                     && match w.run.finishedAt
                        case Some(end) => exists k :: SecondPasses(seen.startedAt.value, end, w.now, k)
                        case None => seen.startedAt.value < w.now)
  {
    var w0 := Exec(Start(hoursMax, t0), steps);
    ExecKeeps(Start(hoursMax, t0), steps);
    ExecSplits(Start(hoursMax, t0), steps, more);
    ExecKeeps(w0, more);
    StartIsKept(w0, more);
    TimeNeverFalls(w0, more);
    StaleUpdateRebillsIff(Exec(w0, more).run, w0.run, act, Exec(w0, more).now);
  }

  lemma {:induction false} TimeNeverFalls(w: World, steps: seq<Step>)
    ensures w.now <= Exec(w, steps).now
    decreases |steps|
  {
    if steps == [] {
    } else {
      TimeNeverFalls(Apply(w, steps[0]), steps[1..]);
    }
  }

  lemma {:induction false} OutcomeStays(w: World, steps: seq<Step>)
    requires Terminal(w.run.status)
    ensures SameOutcome(w.run, Exec(w, steps).run)
    decreases |steps|
  {
    if steps == [] {
    } else {
      if steps[0].Take? { ChangesRaiseTheStage(w.run, steps[0].act, w.now); }
      OutcomeStays(Apply(w, steps[0]), steps[1..]);
    }
  }

  /** What follows for Stripe: if it holds the bill already when a late update changes it, row and
      event disagree for ever. */
  lemma RebilledDisagreesForEver(w: World, seen: Run, act: Act, more: seq<Step>)
    requires Inv(w) && Terminal(w.run.status) && w.stripe.Some? && RowOk(seen, w.now)
    requires Blind(w.run, seen, act, w.now).billedSeconds != w.run.billedSeconds
    ensures var rebilled := w.(run := Blind(w.run, seen, act, w.now));
            var later := Exec(rebilled, more);
            later.stripe == w.stripe && later.run.billedSeconds == rebilled.run.billedSeconds != later.stripe.value
  {
    var rebilled := w.(run := Blind(w.run, seen, act, w.now));
    BillWritten(w.run, seen, act, w.now);
    OutcomeStays(rebilled, more);
    StripeKeeps(rebilled, more);
  }
}
