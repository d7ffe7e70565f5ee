/** The spend loop, the launch gate and the monitor's check of one user, as they run. */
module BudgetMonitor {
  import opened Wrappers
  import opened Metering
  import opened Budget

  datatype WsState = Active | Terminating | Other
  datatype Action = AUTO_TERMINATE | ALERT
  datatype Alert = Alert(mtd: nat, limitCents: nat, thresholdPct: nat, action: Action, terminated: nat, at: int)

  /** The loop over the month's sessions. */
  method MtdSpendCents(rows: seq<Session>, monthStart: int, now: int) returns (cents: nat)
    ensures cents == Mtd(rows, monthStart, now)
  {
    cents := 0;
    for i := 0 to |rows|
      invariant cents == Mtd(rows[..i], monthStart, now)
    {
      assert rows[..i + 1][..i] == rows[..i];
      var s := rows[i];
      if s.startMs >= monthStart {
        if s.status == ENDED {
          cents := cents + s.billedCents;
        } else {
          cents := cents + Estimate(s.startMs, s.pricePerHourCents, now);
        }
      }
    }
    assert rows[..|rows|] == rows;
  }

  /** The gate in front of a launch: it refuses exactly users with an enforced limit that their month's
      spend has reached.  A refusal holds for the rest of the month exactly when no pending
      close can take the spend below the limit again. */
  method MayLaunch(m: Month, monthStart: int, limitCents: Option<nat>, autoTerminate: bool) returns (admitted: bool)
    ensures !admitted <==> && limitCents.Some? && limitCents.value > 0 && autoTerminate
                           && Mtd(m.rows, monthStart, m.now) >= limitCents.value
    ensures !admitted ==>
              ((forall events :: MtdOf(Budget.Exec(m, events), monthStart) >= limitCents.value)
               <==> SureSpend(m, monthStart) >= limitCents.value)
    ensures !admitted && m.stamps == [] ==> SureSpend(m, monthStart) >= limitCents.value
  {
    if limitCents.None? || limitCents.value == 0 || !autoTerminate {
      return true;
    }
    var mtd := MtdSpendCents(m.rows, monthStart, m.now);
    admitted := mtd < limitCents.value;
    if !admitted {
      SpendStaysIff(m, monthStart, limitCents.value);
      if m.stamps == [] {
        MtdNearSure(m.rows, m.stamps, monthStart, m.now);
        NoStampsNoRisk(m.rows, monthStart, m.now);
      }
    }
  }

  /** Exactly the workspaces in `done` have become TERMINATING. */
  ghost predicate Terminated(before: map<WorkspaceId, WsState>, after: map<WorkspaceId, WsState>,
                             done: set<WorkspaceId>) {
    && after.Keys == before.Keys
    && forall w | w in before :: after[w] == if w in done then Terminating else before[w]
  }

  lemma OneMoreTerminated(before: map<WorkspaceId, WsState>, after: map<WorkspaceId, WsState>,
                          done: set<WorkspaceId>, w: WorkspaceId)
    requires Terminated(before, after, done) && w in before
    ensures Terminated(before, after[w := Terminating], done + {w})
  {
  }

  class Account {
    var workspaces: map<WorkspaceId, WsState>
    var cleanupQueued: set<WorkspaceId>
    var alerts: seq<Alert>
    var lastBudgetAlertAt: Option<int>

    constructor (fleet: map<WorkspaceId, WsState>)
      ensures workspaces == fleet && cleanupQueued == {} && alerts == [] && lastBudgetAlertAt == None
    {
      workspaces, cleanupQueued, alerts, lastBudgetAlertAt := fleet, {}, [], None;
    }

    ghost function ActiveIn(fleet: map<WorkspaceId, WsState>): set<WorkspaceId> {
      set w | w in fleet && fleet[w] == Active
    }

    /** Sets every active workspace to TERMINATING, with a cleanup job each. */
    method TerminateAll() returns (count: nat)
      modifies this`workspaces, this`cleanupQueued
      ensures count == |ActiveIn(old(workspaces))|
      ensures cleanupQueued == old(cleanupQueued) + ActiveIn(old(workspaces))
      ensures Terminated(old(workspaces), workspaces, ActiveIn(old(workspaces)))
    {
      var active := set w | w in workspaces && workspaces[w] == Active;
      var todo := active;
      while todo != {}
        invariant todo <= active
        invariant Terminated(old(workspaces), workspaces, active - todo)
        invariant cleanupQueued == old(cleanupQueued) + (active - todo)
        decreases todo
      {
        var w :| w in todo;
        OneMoreTerminated(old(workspaces), workspaces, active - todo, w);
        assert active - (todo - {w}) == (active - todo) + {w};
        todo := todo - {w};
        workspaces := workspaces[w := Terminating];
        cleanupQueued := cleanupQueued + {w};
      }
      assert active - todo == active;
      count := |active|;
    }

    /** One check.  From 99.5 per cent of an enforced limit on nothing active is left; otherwise a warning
        goes out from 89.5 per cent on, unless an alert went out in the four hours before. */
    method CheckBudget(rows: seq<Session>, monthStart: int, now: int, limitCents: nat, autoTerminate: bool)
      requires limitCents > 0
      modifies this
      ensures var mtd, active := Mtd(rows, monthStart, now), ActiveIn(old(workspaces));
              if autoTerminate && 200 * mtd >= 199 * limitCents then
                && Terminated(old(workspaces), workspaces, active) && ActiveIn(workspaces) == {}
                && cleanupQueued == old(cleanupQueued) + active
                && alerts == old(alerts)
                   + (if active != {} then [Alert(mtd, limitCents, 100, AUTO_TERMINATE, |active|, now)] else [])
                && lastBudgetAlertAt == if active != {} then Some(now) else old(lastBudgetAlertAt)
              else if 200 * mtd >= 179 * limitCents
                      && (old(lastBudgetAlertAt).None? || now - old(lastBudgetAlertAt).value >= 14_400_000) then
                && workspaces == old(workspaces) && cleanupQueued == old(cleanupQueued)
                && alerts == old(alerts)
                   + [Alert(mtd, limitCents, if 200 * mtd >= 199 * limitCents then 100 else 90, ALERT, 0, now)]
                && lastBudgetAlertAt == Some(now)
              else
                && workspaces == old(workspaces) && cleanupQueued == old(cleanupQueued)
                && alerts == old(alerts) && lastBudgetAlertAt == old(lastBudgetAlertAt)
      ensures var check := Check(Mtd(rows, monthStart, now), |ActiveIn(old(workspaces))|, now);
              lastBudgetAlertAt == AfterCheck(limitCents, autoTerminate, old(lastBudgetAlertAt), check)
    {
      var mtd := MtdSpendCents(rows, monthStart, now);
      var pct := Pct(mtd, limitCents);
      PctReachesIff(mtd, limitCents, 100);
      PctReachesIff(mtd, limitCents, 90);
      var cooling := lastBudgetAlertAt.Some? && now - lastBudgetAlertAt.value < ALERT_COOLDOWN_MS;
      if pct >= 100 && autoTerminate {
        var count := TerminateAll();
        if count > 0 {
          alerts := alerts + [Alert(mtd, limitCents, 100, AUTO_TERMINATE, count, now)];
          lastBudgetAlertAt := Some(now);
        }
        return;
      }
      if pct >= 90 && !cooling {
        alerts := alerts + [Alert(mtd, limitCents, if pct >= 100 then 100 else 90, ALERT, 0, now)];
        lastBudgetAlertAt := Some(now);
      }
    }
  }
}
