/**
 Month-to-date spend and what it triggers: the launch gate and the budget monitor.  `rows` are the
 usage sessions of one user (or organization), as opened, closed and read within one month.
 */
module Budget {
  import opened Wrappers
  import opened Rounding
  import opened Metering

  const ALERT_COOLDOWN_MS: nat := 14_400_000

  // ---------------------------------------------------------------------------------------------
  // Spend
  // ---------------------------------------------------------------------------------------------

  /** `Math.max(0, to - from)`. */
  function Elapsed(from: int, to: int): nat {
    if to < from then 0 else to - from
  }

  /** What a running session is put at: its elapsed time, unrounded, at its price. */
  function Estimate(startMs: int, price: nat, now: int): (c: nat)
    ensures now <= startMs ==> c == 0
  {
    CeilDivNonNegative(Elapsed(startMs, now) * price, 3_600_000);
    CeilDiv(Elapsed(startMs, now) * price, 3_600_000)
  }

  /** What closing it now would bill. */
  function BillNow(startMs: int, price: nat, now: int): nat {
    BilledCents(TotalSeconds(startMs, now), price)
  }

  function Spent(s: Session, now: int): nat {
    match s.status
    case ENDED => s.billedCents
    case RUNNING => Estimate(s.startMs, s.pricePerHourCents, now)
  }

  function Mtd(rows: seq<Session>, monthStart: int, now: int): nat {
    if rows == [] then 0
    else
      var s := rows[|rows| - 1];
      Mtd(rows[..|rows| - 1], monthStart, now) + if s.startMs >= monthStart then Spent(s, now) else 0
  }

  /** The month's bill if every running session were closed now, and the most rounding can add to it. */
  function MtdIfClosed(rows: seq<Session>, monthStart: int, now: int): nat {
    if rows == [] then 0
    else
      var s := rows[|rows| - 1];
      MtdIfClosed(rows[..|rows| - 1], monthStart, now)
      + if s.startMs < monthStart then 0
        else if s.status == ENDED then s.billedCents else BillNow(s.startMs, s.pricePerHourCents, now)
  }

  function RoundingRoom(rows: seq<Session>, monthStart: int): int {
    if rows == [] then 0
    else
      var s := rows[|rows| - 1];
      RoundingRoom(rows[..|rows| - 1], monthStart)
      + if s.startMs >= monthStart && s.status == RUNNING then CeilDiv(s.pricePerHourCents, 3600) else 0
  }

  /** Milliseconds priced by the hour, against seconds priced by the hour. */
  lemma CeilScale(x: int)
    ensures CeilDiv(1000 * x, 3_600_000) == CeilDiv(x, 3600)
  {
    var r := CeilDiv(x, 3600);
    assert 1000 * (3600 * (r - 1)) < 1000 * x <= 1000 * (3600 * r);
    CeilDivUnique(1000 * x, 3_600_000, r);
  }

  lemma MulMonotone(a: int, b: int, p: nat)
    requires a <= b
    ensures a * p <= b * p
  {
  }

  lemma RoundedSecondsCostMore(ms: int, t: int, price: nat)
    requires ms <= 1000 * t
    ensures CeilDiv(ms * price, 3_600_000) <= CeilDiv(t * price, 3600)
  {
    MulMonotone(ms, 1000 * t, price);
    CeilScale(t * price);
    assert (1000 * t) * price == 1000 * (t * price);
    CeilDivMonotone(ms * price, 1000 * (t * price), 3_600_000);
  }

  lemma RoundedSecondsCostOneMore(ms: int, t: int, price: nat)
    requires 1000 * (t - 1) <= ms
    ensures CeilDiv(t * price, 3600) <= CeilDiv(ms * price, 3_600_000) + CeilDiv(price, 3600)
  {
    MulMonotone(1000 * (t - 1), ms, price);
    CeilScale((t - 1) * price);
    assert (1000 * (t - 1)) * price == 1000 * ((t - 1) * price);
    CeilDivMonotone(1000 * ((t - 1) * price), ms * price, 3_600_000);
    assert (t - 1) * price + price == t * price;
    CeilDivSubadditive((t - 1) * price, price, 3600);
  }

  /** The running estimate never exceeds the bill of the same instant, and the bill exceeds it by at
      most one second's price rounded up. */
  lemma EstimateNearBill(startMs: int, price: nat, now: int)
    ensures Estimate(startMs, price, now) <= BillNow(startMs, price, now)
    ensures BillNow(startMs, price, now) <= Estimate(startMs, price, now) + CeilDiv(price, 3600)
  {
    var t := TotalSeconds(startMs, now);
    RoundedSecondsCostMore(Elapsed(startMs, now), t, price);
    RoundedSecondsCostOneMore(Elapsed(startMs, now), t, price);
  }

  lemma EstimateGrows(startMs: int, price: nat, now: int, later: int)
    requires now <= later
    ensures Estimate(startMs, price, now) <= Estimate(startMs, price, later)
  {
    MulMonotone(Elapsed(startMs, now), Elapsed(startMs, later), price);
    CeilDivMonotone(Elapsed(startMs, now) * price, Elapsed(startMs, later) * price, 3_600_000);
  }

  /** Over a whole month's rows. */
  lemma {:induction false} MtdNearBill(rows: seq<Session>, monthStart: int, now: int)
    ensures Mtd(rows, monthStart, now) <= MtdIfClosed(rows, monthStart, now)
         <= Mtd(rows, monthStart, now) + RoundingRoom(rows, monthStart)
  {
    if rows != [] {
      MtdNearBill(rows[..|rows| - 1], monthStart, now);
      EstimateNearBill(rows[|rows| - 1].startMs, rows[|rows| - 1].pricePerHourCents, now);
    }
  }

  // ---------------------------------------------------------------------------------------------
  // A month
  // ---------------------------------------------------------------------------------------------

  /** A closer's end time for the row at `index`: taken before its transaction, which may come later. */
  datatype Stamp = Stamp(index: nat, at: int)

  /** `stamps` are the ends taken and not given up.  A stamp may stay after its commit: the row is then
      ENDED, and a second commit finds nothing. */
  datatype Month = Month(rows: seq<Session>, stamps: seq<Stamp>, now: int)

  datatype Event =
    | Pass(ms: nat)
    | OpenAt(ws: WorkspaceId, price: nat)
    | TakeEnd(index: nat)
    | CommitEnd(stamp: Stamp)
    | Abandon(k: nat)

  /** The closing transaction ends the row with the stamp if it is still running. */
  function Closed(s: Session, at: int): Session {
    if s.status == RUNNING then EndedRow(s, Snapshot(0, s.startMs, s.pricePerHourCents), at) else s
  }

  function CommitTo(m: Month, st: Stamp): Month {
    if st in m.stamps && st.index < |m.rows| then m.(rows := m.rows[st.index := Closed(m.rows[st.index], st.at)]) else m
  }

  function Apply(m: Month, e: Event): Month {
    match e
    case Pass(ms) => m.(now := m.now + ms)
    case OpenAt(ws, price) => m.(rows := m.rows + [NewSession(ws, m.now, price)])
    case TakeEnd(i) => if i < |m.rows| then m.(stamps := m.stamps + [Stamp(i, m.now)]) else m
    case CommitEnd(st) => CommitTo(m, st)
    case Abandon(k) => if k < |m.stamps| then m.(stamps := m.stamps[..k] + m.stamps[k + 1..]) else m
  }

  function Exec(m: Month, events: seq<Event>): Month
    decreases |events|
  {
    if events == [] then m else Exec(Apply(m, events[0]), events[1..])
  }

  function MtdOf(m: Month, monthStart: int): nat {
    Mtd(m.rows, monthStart, m.now)
  }

  /** Every stamp was taken, for a row that is there, at or before now. */
  predicate StampsOk(m: Month) {
    forall k | 0 <= k < |m.stamps| :: m.stamps[k].index < |m.rows| && m.stamps[k].at <= m.now
  }

  // What a month's spend can come to.

  function Least(a: nat, b: nat): nat {
    if a < b then a else b
  }

  /** The least of `spent` and the bills that the stamps for this row would give it. */
  function LowestBill(s: Session, i: nat, stamps: seq<Stamp>, spent: nat): nat {
    if stamps == [] then spent
    else
      var st := stamps[|stamps| - 1];
      var rest := LowestBill(s, i, stamps[..|stamps| - 1], spent);
      if st.index == i then Least(rest, BillNow(s.startMs, s.pricePerHourCents, st.at)) else rest
  }

  /** What a row is sure to count at least, from now on. */
  function Sure(s: Session, i: nat, stamps: seq<Stamp>, now: int): nat {
    if s.status == ENDED then s.billedCents else LowestBill(s, i, stamps, Spent(s, now))
  }

  function SureOfRows(rows: seq<Session>, stamps: seq<Stamp>, monthStart: int, now: int): nat {
    if rows == [] then 0
    else
      var last := |rows| - 1;
      SureOfRows(rows[..last], stamps, monthStart, now)
      + if rows[last].startMs >= monthStart then Sure(rows[last], last, stamps, now) else 0
  }

  /** The spend no pending close can take away any more. */
  function SureSpend(m: Month, monthStart: int): nat {
    SureOfRows(m.rows, m.stamps, monthStart, m.now)
  }

  lemma {:induction false} LowestBillIsLowest(s: Session, i: nat, stamps: seq<Stamp>, spent: nat)
    ensures LowestBill(s, i, stamps, spent) <= spent
    ensures forall st | st in stamps && st.index == i ::
            LowestBill(s, i, stamps, spent) <= BillNow(s.startMs, s.pricePerHourCents, st.at)
    ensures LowestBill(s, i, stamps, spent) == spent
            || exists st ::
                 st in stamps && st.index == i
                 && LowestBill(s, i, stamps, spent) == BillNow(s.startMs, s.pricePerHourCents, st.at)
  {
    if stamps != [] {
      var last := |stamps| - 1;
      LowestBillIsLowest(s, i, stamps[..last], spent);
      assert stamps == stamps[..last] + [stamps[last]];
    }
  }

  /** Less spent, or more stamps, can only lower it. */
  lemma LowestBillMonotone(s: Session, i: nat, stamps: seq<Stamp>, stamps': seq<Stamp>, spent: nat, spent': nat)
    requires spent <= spent'
    requires forall st | st in stamps' && st.index == i ::
               st in stamps || spent <= BillNow(s.startMs, s.pricePerHourCents, st.at)
    ensures LowestBill(s, i, stamps, spent) <= LowestBill(s, i, stamps', spent')
  {
    LowestBillIsLowest(s, i, stamps, spent);
    LowestBillIsLowest(s, i, stamps', spent');
  }

  /** Time, further stamps and abandoned ones leave a row at least as sure. */
  lemma SureGrows(s: Session, i: nat, stamps: seq<Stamp>, stamps': seq<Stamp>, now: int, later: int)
    requires now <= later && forall st | st in stamps' :: st in stamps || st.at == now
    ensures Sure(s, i, stamps, now) <= Sure(s, i, stamps', later)
  {
    if s.status == RUNNING {
      EstimateGrows(s.startMs, s.pricePerHourCents, now, later);
      EstimateNearBill(s.startMs, s.pricePerHourCents, now);
      LowestBillMonotone(s, i, stamps, stamps', Spent(s, now), Spent(s, later));
    }
  }

  /** A row that is closed counts at least what was sure. */
  lemma CloseIsSure(s: Session, i: nat, stamps: seq<Stamp>, now: int, at: int)
    requires Stamp(i, at) in stamps
    ensures Sure(s, i, stamps, now) <= Sure(Closed(s, at), i, stamps, now)
  {
    LowestBillIsLowest(s, i, stamps, Spent(s, now));
  }

  /** Row by row, then the sum. */
  lemma {:induction false} SureSumGrows(rows: seq<Session>, rows': seq<Session>, stamps: seq<Stamp>,
                                        stamps': seq<Stamp>,
                                        monthStart: int, now: int, later: int)
    requires |rows| <= |rows'|
    requires forall i: nat | i < |rows| ::
               rows'[i].startMs == rows[i].startMs && Sure(rows[i], i, stamps, now) <= Sure(rows'[i], i, stamps', later)
    ensures SureOfRows(rows, stamps, monthStart, now) <= SureOfRows(rows', stamps', monthStart, later)
    decreases |rows'|
  {
    if |rows| < |rows'| {
      SureSumGrows(rows, rows'[..|rows'| - 1], stamps, stamps', monthStart, now, later);
    } else if rows != [] {
      var last := |rows| - 1;
      SureSumGrows(rows[..last], rows'[..last], stamps, stamps', monthStart, now, later);
    }
  }

  lemma StepKeepsSure(m: Month, e: Event, monthStart: int)
    ensures SureSpend(m, monthStart) <= SureSpend(Apply(m, e), monthStart)
  {
    var m' := Apply(m, e);
    forall i: nat | i < |m.rows|
      ensures m'.rows[i].startMs == m.rows[i].startMs
      ensures Sure(m.rows[i], i, m.stamps, m.now) <= Sure(m'.rows[i], i, m'.stamps, m'.now)
    {
      if e.CommitEnd? && m' != m && i == e.stamp.index {
        CloseIsSure(m.rows[i], i, m.stamps, m.now, e.stamp.at);
      } else {
        SureGrows(m.rows[i], i, m.stamps, m'.stamps, m.now, m'.now);
      }
    }
    SureSumGrows(m.rows, m'.rows, m.stamps, m'.stamps, monthStart, m.now, m'.now);
  }

  /** The sure spend never falls, however sessions open and close and whenever the closes were stamped. */
  lemma {:induction false} SureSpendNeverFalls(m: Month, events: seq<Event>, monthStart: int)
    ensures SureSpend(m, monthStart) <= SureSpend(Exec(m, events), monthStart)
    decreases |events|
  {
    if events == [] {
    } else {
      StepKeepsSure(m, events[0], monthStart);
      SureSpendNeverFalls(Apply(m, events[0]), events[1..], monthStart);
    }
  }

  lemma {:induction false} SureAtMostMtd(rows: seq<Session>, stamps: seq<Stamp>, monthStart: int, now: int)
    ensures SureOfRows(rows, stamps, monthStart, now) <= Mtd(rows, monthStart, now)
  {
    if rows != [] {
      var last := |rows| - 1;
      SureAtMostMtd(rows[..last], stamps, monthStart, now);
      LowestBillIsLowest(rows[last], last, stamps, Spent(rows[last], now));
    }
  }

  // How far the spend can fall.

  /** What the time since a stamp costs. */
  function CostSince(price: nat, at: int, now: int): nat {
    CeilDivNonNegative(Elapsed(at, now) * price, 3_600_000);
    CeilDiv(Elapsed(at, now) * price, 3_600_000)
  }

  lemma CostAdds(e: int, e0: int, d: int, price: nat)
    requires e <= e0 + d
    ensures CeilDiv(e * price, 3_600_000) <= CeilDiv(e0 * price, 3_600_000) + CeilDiv(d * price, 3_600_000)
  {
    MulMonotone(e, e0 + d, price);
    MulDistributes(e0, d, price);
    CeilDivMonotone(e * price, e0 * price + d * price, 3_600_000);
    CeilDivSubadditive(e0 * price, d * price, 3_600_000);
  }

  lemma MulDistributes(a: int, b: int, p: int)
    ensures (a + b) * p == a * p + b * p
  {
  }

  lemma EstimateSince(startMs: int, price: nat, at: int, now: int)
    requires at <= now
    ensures Estimate(startMs, price, now) <= Estimate(startMs, price, at) + CostSince(price, at, now)
  {
    CostAdds(Elapsed(startMs, now), Elapsed(startMs, at), Elapsed(at, now), price);
  }

  lemma StampLosesAtMost(startMs: int, price: nat, at: int, now: int)
    requires at <= now
    ensures Estimate(startMs, price, now) <= BillNow(startMs, price, at) + CostSince(price, at, now)
  {
    EstimateNearBill(startMs, price, at);
    EstimateSince(startMs, price, at, now);
  }

  /** The most a pending close of this row can take away. */
  function AtRisk(s: Session, i: nat, stamps: seq<Stamp>, now: int): nat {
    if stamps == [] || s.status == ENDED then 0
    else
      var st := stamps[|stamps| - 1];
      var rest := AtRisk(s, i, stamps[..|stamps| - 1], now);
      if st.index == i && CostSince(s.pricePerHourCents, st.at, now) > rest
        then CostSince(s.pricePerHourCents, st.at, now) else rest
  }

  function RiskOfRows(rows: seq<Session>, stamps: seq<Stamp>, monthStart: int, now: int): nat {
    if rows == [] then 0
    else
      var last := |rows| - 1;
      RiskOfRows(rows[..last], stamps, monthStart, now)
      + if rows[last].startMs >= monthStart then AtRisk(rows[last], last, stamps, now) else 0
  }

  lemma {:induction false} SpentNearSure(s: Session, i: nat, stamps: seq<Stamp>, now: int)
    requires forall k | 0 <= k < |stamps| :: stamps[k].at <= now
    ensures Spent(s, now) <= Sure(s, i, stamps, now) + AtRisk(s, i, stamps, now)
  {
    if stamps != [] && s.status == RUNNING {
      SpentNearSure(s, i, stamps[..|stamps| - 1], now);
      StampLosesAtMost(s.startMs, s.pricePerHourCents, stamps[|stamps| - 1].at, now);
    }
  }

  lemma {:induction false} MtdNearSure(rows: seq<Session>, stamps: seq<Stamp>, monthStart: int, now: int)
    requires forall k | 0 <= k < |stamps| :: stamps[k].at <= now
    ensures Mtd(rows, monthStart, now) <= SureOfRows(rows, stamps, monthStart, now)
            + RiskOfRows(rows, stamps, monthStart, now)
  {
    if rows != [] {
      var last := |rows| - 1;
      MtdNearSure(rows[..last], stamps, monthStart, now);
      SpentNearSure(rows[last], last, stamps, now);
    }
  }

  /** Month-to-date spend never falls by more than what the time since the stamps in flight costs; with
      none in flight it never falls. */
  lemma SpendFallsAtMost(m: Month, events: seq<Event>, monthStart: int)
    requires StampsOk(m)
    ensures MtdOf(m, monthStart) <= MtdOf(Exec(m, events), monthStart) + RiskOfRows(m.rows, m.stamps, monthStart, m.now)
    ensures m.stamps == [] ==> MtdOf(m, monthStart) <= MtdOf(Exec(m, events), monthStart)
  {
    MtdNearSure(m.rows, m.stamps, monthStart, m.now);
    SureSpendHolds(m, events, monthStart);
    if m.stamps == [] { NoStampsNoRisk(m.rows, monthStart, m.now); }
  }

  lemma {:induction false} NoStampsNoRisk(rows: seq<Session>, monthStart: int, now: int)
    ensures RiskOfRows(rows, [], monthStart, now) == 0
  {
    if rows != [] { NoStampsNoRisk(rows[..|rows| - 1], monthStart, now); }
  }

  /** The commits that bring every row before the n-th down to what is sure of it. */
  lemma {:induction false} SinkRows(m: Month, n: nat) returns (events: seq<Event>)
    requires n <= |m.rows|
    ensures var m' := Exec(m, events);
            && m'.now == m.now && m'.stamps == m.stamps && |m'.rows| == |m.rows|
            && (forall i: nat | n <= i < |m.rows| :: m'.rows[i] == m.rows[i])
            && (forall i: nat | i < n ::
                m'.rows[i].startMs == m.rows[i].startMs
                  && Spent(m'.rows[i], m.now) == Sure(m.rows[i], i, m.stamps, m.now))
    decreases n
  {
    if n == 0 {
      events := [];
    } else {
      var before := SinkRows(m, n - 1);
      var m1 := Exec(m, before);
      var s := m.rows[n - 1];
      LowestBillIsLowest(s, n - 1, m.stamps, Spent(s, m.now));
      if Sure(s, n - 1, m.stamps, m.now) == Spent(s, m.now) {
        events := before;
      } else {
        var st :| st in m.stamps && st.index == n - 1
          && Sure(s, n - 1, m.stamps, m.now) == BillNow(s.startMs, s.pricePerHourCents, st.at);
        events := before + [CommitEnd(st)];
        ExecAppend(m, before, CommitEnd(st));
      }
    }
  }

  lemma {:induction false} ExecAppend(m: Month, events: seq<Event>, e: Event)
    ensures Exec(m, events + [e]) == Apply(Exec(m, events), e)
    decreases |events|
  {
    if events == [] {
      assert [e][1..] == [] && Exec(m, [e]) == Exec(Apply(m, e), [e][1..]);
    } else {
      assert (events + [e])[1..] == events[1..] + [e];
      ExecAppend(Apply(m, events[0]), events[1..], e);
    }
  }

  lemma {:induction false} SunkSum(rows: seq<Session>, rows': seq<Session>, stamps: seq<Stamp>, monthStart: int,
                                   now: int)
    requires |rows| == |rows'|
    requires forall i: nat | i < |rows| ::
             rows'[i].startMs == rows[i].startMs && Spent(rows'[i], now) == Sure(rows[i], i, stamps, now)
    ensures Mtd(rows', monthStart, now) == SureOfRows(rows, stamps, monthStart, now)
    decreases |rows|
  {
    if rows != [] {
      var last := |rows| - 1;
      SunkSum(rows[..last], rows'[..last], stamps, monthStart, now);
    }
  }

  lemma SureSpendHolds(m: Month, events: seq<Event>, monthStart: int)
    ensures SureSpend(m, monthStart) <= MtdOf(Exec(m, events), monthStart)
  {
    var m' := Exec(m, events);
    SureSpendNeverFalls(m, events, monthStart);
    SureAtMostMtd(m'.rows, m'.stamps, monthStart, m'.now);
  }

  /** Month-to-date spend stays at a level in every continuation exactly when the sure spend is there: the
      pending closes alone can bring it down to that, and nothing can bring it lower. */
  lemma SpendStaysIff(m: Month, monthStart: int, level: nat)
    ensures (forall events :: MtdOf(Exec(m, events), monthStart) >= level) <==> SureSpend(m, monthStart) >= level
  {
    var events := SinkRows(m, |m.rows|);
    SunkSum(m.rows, Exec(m, events).rows, m.stamps, monthStart, m.now);
    assert MtdOf(Exec(m, events), monthStart) == SureSpend(m, monthStart);
    forall events | SureSpend(m, monthStart) >= level ensures MtdOf(Exec(m, events), monthStart) >= level {
      SureSpendHolds(m, events, monthStart);
    }
  }

  lemma {:induction false} MtdWithRow(rows: seq<Session>, monthStart: int, now: int, i: nat, s: Session)
    requires i < |rows| && s.startMs == rows[i].startMs
    ensures Mtd(rows[i := s], monthStart, now)
         == Mtd(rows, monthStart, now) + if s.startMs >= monthStart then Spent(s, now) - Spent(rows[i], now) else 0
  {
    var last := |rows| - 1;
    if i == last {
      assert rows[i := s][..last] == rows[..last];
    } else {
      assert rows[i := s][..last] == rows[..last][i := s];
      MtdWithRow(rows[..last], monthStart, now, i, s);
    }
  }

  /** A running row of the month whose estimate exceeds the bill up to `at`. */
  predicate Outgrown(s: Session, at: int, monthStart: int, now: int) {
    && s.status == RUNNING && s.startMs >= monthStart
    && Estimate(s.startMs, s.pricePerHourCents, now) > BillNow(s.startMs, s.pricePerHourCents, at)
  }

  /** One commit lowers the spend exactly when it ends a running row of the month with a stamp whose bill
      the row's estimate has outgrown. */
  lemma CommitLowersIff(m: Month, st: Stamp, monthStart: int)
    requires st in m.stamps && st.index < |m.rows|
    ensures MtdOf(CommitTo(m, st), monthStart) < MtdOf(m, monthStart)
            <==> Outgrown(m.rows[st.index], st.at, monthStart, m.now)
  {
    MtdWithRow(m.rows, monthStart, m.now, st.index, Closed(m.rows[st.index], st.at));
  }

  const OPENED: Month := Month([NewSession(0, 0, 3600)], [Stamp(0, 1000)], 10_000)

  lemma OpenedReachable()
    ensures Exec(Month([], [], 0), [OpenAt(0, 3600), Pass(1000), TakeEnd(0), Pass(9000)]) == OPENED
  {
    var events := [OpenAt(0, 3600), Pass(1000), TakeEnd(0), Pass(9000)];
    var m1 := Apply(Month([], [], 0), events[0]);
    var m2 := Apply(m1, events[1]);
    var m3 := Apply(m2, events[2]);
    assert events[1..][1..] == events[2..] && events[2..][1..] == events[3..] && events[3..][1..] == [];
    assert Exec(Month([], [], 0), events) == Exec(m1, events[1..]) == Exec(m2, events[2..]) == Exec(m3, events[3..]);
    assert Exec(m3, events[3..]) == Exec(Apply(m3, events[3]), []);
  }

  lemma OpenedAmounts()
    ensures Estimate(0, 3600, 10_000) == 10 && BillNow(0, 3600, 1000) == 1
  {
    CeilDivUnique(10_000 * 3600, 3_600_000, 10);
    CeilDivUnique(1000, 1000, 1);
    CeilDivUnique(3600, 3600, 1);
  }

  /** So the spend can fall: an hour at 36 dollars, closed with the end of its first second when nine more
      have passed, goes from ten cents to one. */
  lemma SpendCanFall()
    ensures Exec(Month([], [], 0), [OpenAt(0, 3600), Pass(1000), TakeEnd(0), Pass(9000)]) == OPENED
    ensures MtdOf(OPENED, 0) == 10 && MtdOf(Apply(OPENED, CommitEnd(Stamp(0, 1000))), 0) == 1
  {
    OpenedReachable();
    OpenedAmounts();
    assert OPENED.rows[..0] == [] && Mtd([], 0, 10_000) == 0;
    MtdWithRow(OPENED.rows, 0, OPENED.now, 0, Closed(OPENED.rows[0], 1000));
  }

  // ---------------------------------------------------------------------------------------------
  // The gate and the monitor
  // ---------------------------------------------------------------------------------------------

  /** The launch gate, for a limit that is set and enforced. */
  predicate Refused(limitCents: nat, autoTerminate: bool, mtd: nat) {
    limitCents > 0 && autoTerminate && mtd >= limitCents
  }

  function Pct(mtd: nat, limitCents: nat): int
    requires limitCents > 0
  {
    RoundHalfUp((mtd as real / limitCents as real) * 100.0)
  }

  lemma QuotientIff(x: real, d: real, q: real)
    requires d > 0.0
    ensures x / d >= q <==> x >= q * d
  {
    if x >= q * d {
      assert (x - q * d) / d >= 0.0;
      assert x / d - q == (x - q * d) / d;
    } else {
      assert (q * d - x) / d > 0.0;
      assert q - x / d == (q * d - x) / d;
    }
  }

  /** The monitor's rounded percentage reaches `p` half a percent before the spend does. */
  lemma PctReachesIff(mtd: nat, limitCents: nat, p: nat)
    requires limitCents > 0 && p > 0
    ensures Pct(mtd, limitCents) >= p <==> 200 * mtd >= (2 * p - 1) * limitCents
  {
    var x, d := mtd as real, limitCents as real;
    var q := (2 * p - 1) as real / 200.0;
    QuotientIff(x, d, q);
    assert Pct(mtd, limitCents) >= p <==> (x / d) * 100.0 >= p as real - 0.5;
    assert p as real - 0.5 == q * 100.0;
    assert q * d * 200.0 == ((2 * p - 1) * limitCents) as real;
    assert x * 200.0 == (200 * mtd) as real;
  }

  lemma RefusedStaysRefused(m: Month, events: seq<Event>, monthStart: int, limitCents: nat)
    requires limitCents > 0 && SureSpend(m, monthStart) >= limitCents
    ensures var m' := Exec(m, events);
            Refused(limitCents, true, MtdOf(m', monthStart)) && Pct(MtdOf(m', monthStart), limitCents) >= 100
  {
    SureSpendHolds(m, events, monthStart);
    PctReachesIff(MtdOf(Exec(m, events), monthStart), limitCents, 100);
  }

  /** A user refused at the gate stays refused for the rest of the month, whatever happens, exactly when
      the sure spend has reached the limit; the monitor then sees at least 100 per cent throughout. */
  lemma StaysRefusedIff(m: Month, monthStart: int, limitCents: nat)
    requires limitCents > 0
    ensures (forall events :: Refused(limitCents, true, MtdOf(Exec(m, events), monthStart)))
            <==> SureSpend(m, monthStart) >= limitCents
  {
    SpendStaysIff(m, monthStart, limitCents);
    assert forall events ::
        Refused(limitCents, true, MtdOf(Exec(m, events), monthStart))
        <==> MtdOf(Exec(m, events), monthStart) >= limitCents;
  }

  /** The converse fails by the rounding: the monitor terminates users the gate would still admit,
      exactly those within half a per cent of their limit. */
  lemma TerminatedButAdmittedIff(mtd: nat, limitCents: nat)
    requires limitCents > 0
    ensures Pct(mtd, limitCents) >= 100 && !Refused(limitCents, true, mtd)
            <==> 199 * limitCents <= 200 * mtd < 200 * limitCents
  {
    PctReachesIff(mtd, limitCents, 100);
  }

  datatype Verdict = Terminate | Warn | Nothing

  function VerdictOf(pct: int, autoTerminate: bool, cooling: bool): Verdict {
    if pct >= 100 && autoTerminate then Terminate
    else if pct >= 90 && !cooling then Warn
    else Nothing
  }

  predicate Cooling(lastAlertAt: Option<int>, now: int) {
    lastAlertAt.Some? && now - lastAlertAt.value < ALERT_COOLDOWN_MS
  }

  /** The verdict in spend and limit: it terminates from 99.5 per cent of an enforced limit on, and warns from
      89.5 per cent on whenever it does not, unless an alert went out in the four hours before. */
  lemma VerdictIs(mtd: nat, limitCents: nat, autoTerminate: bool, last: Option<int>, now: int)
    requires limitCents > 0
    ensures VerdictOf(Pct(mtd, limitCents), autoTerminate, Cooling(last, now))
         == if autoTerminate && 200 * mtd >= 199 * limitCents then Terminate
            else if 200 * mtd >= 179 * limitCents && (last.None? || now - last.value >= 14_400_000) then Warn
            else Nothing
  {
    PctReachesIff(mtd, limitCents, 100);
    PctReachesIff(mtd, limitCents, 90);
  }

  /** One check of the monitor: the spend it finds, the workspaces it would terminate, and when. */
  datatype Check = Check(mtd: nat, active: nat, at: int)

  function AfterCheck(limitCents: nat, autoTerminate: bool, last: Option<int>, c: Check): Option<int>
    requires limitCents > 0
  {
    match VerdictOf(Pct(c.mtd, limitCents), autoTerminate, Cooling(last, c.at))
    case Terminate => if c.active > 0 then Some(c.at) else last
    case Warn => Some(c.at)
    case Nothing => last
  }

  /** When warnings go out over a run of checks. */
  function Warnings(limitCents: nat, autoTerminate: bool, last: Option<int>, checks: seq<Check>): seq<int>
    requires limitCents > 0
    decreases |checks|
  {
    if checks == [] then []
    else (if VerdictOf(Pct(checks[0].mtd, limitCents), autoTerminate, Cooling(last, checks[0].at)) == Warn
          then [checks[0].at] else [])
         + Warnings(limitCents, autoTerminate, AfterCheck(limitCents, autoTerminate, last, checks[0]), checks[1..])
  }

  /** When the last alert went out, after a run of checks. */
  function AlertAfter(limitCents: nat, autoTerminate: bool, last: Option<int>, checks: seq<Check>): Option<int>
    requires limitCents > 0
    decreases |checks|
  {
    if checks == [] then last
    else AlertAfter(limitCents, autoTerminate, AfterCheck(limitCents, autoTerminate, last, checks[0]), checks[1..])
  }

  /** A run of checks warns at each check that finds 89.5 per cent of the limit spent, terminates nothing, and
      has no alert in the four hours before it, and at no other. */
  lemma {:induction false} WarningsGoOn(limitCents: nat, autoTerminate: bool, last: Option<int>, checks: seq<Check>,
                                        c: Check)
    requires limitCents > 0
    ensures var alert := AlertAfter(limitCents, autoTerminate, last, checks);
            Warnings(limitCents, autoTerminate, last, checks + [c]) ==
            Warnings(limitCents, autoTerminate, last, checks)
            + if 200 * c.mtd >= 179 * limitCents && !(autoTerminate && 200 * c.mtd >= 199 * limitCents)
                 && (alert.None? || c.at - alert.value >= 14_400_000)
              then [c.at] else []
    decreases |checks|
  {
    if checks == [] {
      assert [c][1..] == [] && checks + [c] == [c];
      VerdictIs(c.mtd, limitCents, autoTerminate, last, c.at);
      assert Warnings(limitCents, autoTerminate, AfterCheck(limitCents, autoTerminate, last, c), []) == [];
    } else {
      assert (checks + [c])[1..] == checks[1..] + [c];
      WarningsGoOn(limitCents, autoTerminate, AfterCheck(limitCents, autoTerminate, last, checks[0]), checks[1..], c);
    }
  }

  predicate Chronological(checks: seq<Check>, from: int) {
    forall i | 0 <= i < |checks| :: from <= checks[i].at && forall j | i < j < |checks| :: checks[i].at <= checks[j].at
  }

  /** Instants from `from` on that are the cool-down apart, and that far from the last alert before. */
  predicate Spaced(ws: seq<int>, from: int, last: Option<int>) {
    && (forall i | 0 <= i < |ws| :: ws[i] >= from && (last.Some? ==> ws[i] - last.value >= ALERT_COOLDOWN_MS))
    && (forall i, j | 0 <= i < j < |ws| :: ws[j] - ws[i] >= ALERT_COOLDOWN_MS)
  }

  lemma SpacedAfterWarning(rest: seq<int>, at: int, from: int, last: Option<int>)
    requires Spaced(rest, at, Some(at)) && from <= at && !Cooling(last, at)
    ensures Spaced([at] + rest, from, last)
  {
    var ws := [at] + rest;
    assert forall i | 1 <= i < |ws| :: ws[i] == rest[i - 1];
  }

  lemma SpacedAfterOther(rest: seq<int>, at: int, from: int, last: Option<int>, last': Option<int>)
    requires Spaced(rest, at, last') && from <= at && (last' == last || last' == Some(at))
             && (last.Some? ==> last.value <= from)
    ensures Spaced(rest, from, last)
  {
  }

  /** Warnings are at least the cool-down apart, and a first one at least that after the last alert. */
  lemma {:induction false} WarningsAreSpaced(limitCents: nat, autoTerminate: bool, last: Option<int>,
                                             checks: seq<Check>, from: int)
    requires limitCents > 0 && Chronological(checks, from) && (last.Some? ==> last.value <= from)
    ensures Spaced(Warnings(limitCents, autoTerminate, last, checks), from, last)
    decreases |checks|
  {
    if checks != [] {
      var at := checks[0].at;
      forall i | 0 <= i < |checks| - 1 ensures at <= checks[1..][i].at { assert checks[1..][i] == checks[i + 1]; }
      assert from <= at;
      var last' := AfterCheck(limitCents, autoTerminate, last, checks[0]);
      WarningsAreSpaced(limitCents, autoTerminate, last', checks[1..], at);
      var rest := Warnings(limitCents, autoTerminate, last', checks[1..]);
      if VerdictOf(Pct(checks[0].mtd, limitCents), autoTerminate, Cooling(last, at)) == Warn {
        SpacedAfterWarning(rest, at, from, last);
      } else {
        SpacedAfterOther(rest, at, from, last, last');
        assert Warnings(limitCents, autoTerminate, last, checks) == rest;
      }
    }
  }
}
