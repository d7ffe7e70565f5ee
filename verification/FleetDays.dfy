/**
 Apportioning usage sessions to UTC days: what the days of a session add up to, in seconds and in
 money.  Instants are milliseconds since the epoch; day `d` starts at `d * DAY_MS`.
 */
module FleetDays {
  import opened Wrappers
  import opened Rounding
  import opened Metering

  const DAY_MS: nat := 86_400_000

  type GpuType = string
  type UserId = nat

  datatype Usage = Usage(user: UserId, gpuType: GpuType, start: int, end: Option<int>, totalSeconds: nat,
                         billedCents: nat)

  function DayStart(d: int): int {
    d * DAY_MS
  }

  function Max(a: int, b: int): int {
    if a < b then b else a
  }

  function Min(a: int, b: int): int {
    if a < b then a else b
  }

  function OverlapSeconds(aStart: int, aEnd: int, bStart: int, bEnd: int): nat {
    Max(0, FloorDiv(Min(aEnd, bEnd) - Max(aStart, bStart), 1000))
  }

  /** The seconds of day `d` a session from `a` to `e` is credited with. */
  function OnDay(a: int, e: int, d: int): nat {
    OverlapSeconds(a, e, DayStart(d), DayStart(d + 1))
  }

  function OverDays(a: int, e: int, d: int, n: nat): nat {
    if n == 0 then 0 else OverDays(a, e, d, n - 1) + OnDay(a, e, d + n - 1)
  }

  // ---------------------------------------------------------------------------------------------
  // Seconds
  // ---------------------------------------------------------------------------------------------

  function DayOf(t: int): int {
    FloorDiv(t, DAY_MS)
  }

  /** What the days of a session up to `x` add up to: on its first day the whole seconds it lasted, and
      from then on the whole clock seconds it spans. */
  function Credited(a: int, x: int): int {
    if x <= DayStart(DayOf(a) + 1) then FloorDiv(x - a, 1000) else FloorDiv(x, 1000) - CeilDiv(a, 1000)
  }

  /** A midnight is a whole second, so cutting there loses only the two ragged ends. */
  lemma CutAtWholeSecond(a: int, k: int, x: int)
    ensures FloorDiv(1000 * k - a, 1000) == FloorDiv(1000 * k, 1000) - CeilDiv(a, 1000) == k - CeilDiv(a, 1000)
    ensures FloorDiv(x - 1000 * k, 1000) == FloorDiv(x, 1000) - k
  {
  }

  lemma MidnightsInOrder(d: int, d': int)
    requires d <= d'
    ensures DayStart(d) <= DayStart(d') && DayStart(d) == 1000 * (86_400 * d)
  {
  }

  /** One more day, from a midnight within the session. */
  lemma CreditedNextDay(a: int, d: int, x: int)
    requires DayOf(a) < d && DayStart(d) <= x <= DayStart(d + 1)
    ensures Credited(a, x) == Credited(a, DayStart(d)) + FloorDiv(x - DayStart(d), 1000)
  {
    MidnightsInOrder(DayOf(a) + 1, d);
    MidnightsInOrder(d, d);
    CutAtWholeSecond(a, 86_400 * d, x);
    CreditedFrom(a, DayStart(DayOf(a) + 1), 86_400 * d, x);
  }

  lemma CreditedFrom(a: int, first: int, k: int, x: int)
    requires first <= 1000 * k <= x && DayStart(DayOf(a) + 1) == first
    ensures Credited(a, x) == Credited(a, 1000 * k) + FloorDiv(x - 1000 * k, 1000)
  {
    CutAtWholeSecond(a, k, x);
    CutAtWholeSecond(a, k, 1000 * k);
  }

  lemma {:induction false} DaysAddUp(a: int, e: int, d: int, n: nat)
    requires a <= e && DayStart(d) <= a
    ensures OverDays(a, e, d, n) == CreditedBefore(a, e, d + n)
  {
    if n > 0 {
      DaysAddUp(a, e, d, n - 1);
      DayIsCredited(a, e, d + n - 1);
    }
  }

  /** What a session from `a` to `e` is credited for before the day `d`. */
  function CreditedBefore(a: int, e: int, d: int): int
    requires a <= e
  {
    if DayStart(d) <= a then 0 else Credited(a, Min(e, DayStart(d)))
  }

  lemma DayIsCredited(a: int, e: int, d: int)
    requires a <= e
    ensures CreditedBefore(a, e, d + 1) == CreditedBefore(a, e, d) + OnDay(a, e, d)
  {
    if DayStart(d + 1) <= a {
      assert OnDay(a, e, d) == 0;
    } else if DayStart(d) <= a {
      assert DayOf(a) == d;
    } else {
      assert DayOf(a) < d;
      if DayStart(d) <= e { CreditedNextDay(a, d, Min(e, DayStart(d + 1))); }
    }
  }

  predicate Covers(d: int, n: nat, a: int, e: int) {
    DayStart(d) <= a <= e <= DayStart(d + n)
  }

  /** The milliseconds by which a session starts before a whole second, and ends after one. */
  function Ragged(a: int, e: int): int {
    (1000 * CeilDiv(a, 1000) - a) + (e - 1000 * FloorDiv(e, 1000))
  }

  /** The days of a closed session add up to its whole seconds, or to one less: one less exactly when
      it crosses midnight and its two ragged ends make up a second between them. */
  lemma DaysConserveUsage(a: int, e: int, d: int, n: nat)
    requires Covers(d, n, a, e)
    ensures OverDays(a, e, d, n)
         == FloorDiv(e - a, 1000) - if e > DayStart(DayOf(a) + 1) && Ragged(a, e) >= 1000 then 1 else 0
  {
    DaysAddUp(a, e, d, n);
    if DayStart(d + n) <= a {
      assert e == a;
    }
  }

  /** Hence they fall short of the billed seconds, which are rounded up, by two at most. */
  lemma DaysNearBill(a: int, e: int, d: int, n: nat)
    requires Covers(d, n, a, e)
    ensures TotalSeconds(a, e) - 2 <= OverDays(a, e, d, n) <= TotalSeconds(a, e)
  {
    DaysConserveUsage(a, e, d, n);
  }

  // ---------------------------------------------------------------------------------------------
  // Money
  // ---------------------------------------------------------------------------------------------

  function EndOf(s: Usage, now: int): int {
    if s.end.Some? then s.end.value else now
  }

  function UsedOn(s: Usage, now: int, d: int): nat {
    OnDay(s.start, EndOf(s, now), d)
  }

  /** A session's bill in dollars. */
  function BillUsd(s: Usage): (usd: real)
    ensures usd >= 0.0
  {
    s.billedCents as real / 100.0
  }

  function Fraction(part: nat, whole: nat): (f: real)
    ensures 0 < part <= whole ==> 0.0 < f <= 1.0
  {
    if whole > 0 then part as real / whole as real else 0.0
  }

  /** The part of a session's bill that goes to a day on which it has `seconds`, in dollars. */
  function Share(s: Usage, seconds: nat): real {
    BillUsd(s) * Fraction(seconds, if s.totalSeconds > 0 then s.totalSeconds else seconds)
  }

  /** A session without a total, as one still open, has its whole bill on each of its days. */
  lemma ShareWithoutTotal(s: Usage, seconds: nat)
    requires s.totalSeconds == 0 && seconds > 0
    ensures Share(s, seconds) == s.billedCents as real / 100.0
  {
    assert Fraction(seconds, seconds) == 1.0;
  }

  function RevenueOn(s: Usage, now: int, d: int): real {
    if UsedOn(s, now, d) == 0 then 0.0 else Share(s, UsedOn(s, now, d))
  }

  function RevenueOver(s: Usage, now: int, d: int, n: nat): real {
    if n == 0 then 0.0 else RevenueOver(s, now, d, n - 1) + RevenueOn(s, now, d + n - 1)
  }

  lemma FractionsAdd(x: nat, y: nat, whole: nat)
    requires whole > 0
    ensures Fraction(0, whole) == 0.0 && Fraction(x + y, whole) == Fraction(x, whole) + Fraction(y, whole)
  {
  }

  lemma FractionNearOne(x: nat, whole: nat)
    requires whole > 0 && whole - 2 <= x <= whole
    ensures 1.0 - Fraction(2, whole) <= Fraction(x, whole) <= 1.0
  {
    FractionsAdd(x, whole - x, whole);
    FractionsAdd(whole - x, 2 - (whole - x), whole);
    FractionIsNonNegative(whole - x, whole);
    FractionIsNonNegative(2 - (whole - x), whole);
  }

  lemma FractionIsNonNegative(x: nat, whole: nat)
    ensures Fraction(x, whole) >= 0.0
    ensures whole > 0 ==> Fraction(whole, whole) == 1.0
  {
  }

  lemma ShareAdds(s: Usage, x: nat, y: nat)
    requires s.totalSeconds > 0
    ensures Share(s, 0) == 0.0 && Share(s, x + y) == Share(s, x) + Share(s, y)
  {
    FractionsAdd(x, y, s.totalSeconds);
    Distribute(BillUsd(s), Fraction(x, s.totalSeconds), Fraction(y, s.totalSeconds));
  }

  lemma Distribute(c: real, x: real, y: real)
    ensures c * (x + y) == c * x + c * y
  {
  }

  lemma {:induction false} RevenueIsProportional(s: Usage, now: int, d: int, n: nat)
    requires s.totalSeconds > 0
    ensures RevenueOver(s, now, d, n) == Share(s, OverDays(s.start, EndOf(s, now), d, n))
  {
    ShareAdds(s, 0, 0);
    if n > 0 {
      RevenueIsProportional(s, now, d, n - 1);
      ShareAdds(s, OverDays(s.start, EndOf(s, now), d, n - 1), UsedOn(s, now, d + n - 1));
    }
  }

  /** Money credited for a bill: never more, and short of it by at most `lost`. */
  predicate NearBill(bill: real, lost: real, credited: real) {
    bill - lost <= credited <= bill
  }

  lemma PortionNearBill(bill: real, short: real, part: real, credited: real)
    requires bill >= 0.0 && 1.0 - short <= part <= 1.0 && credited == bill * part
    ensures NearBill(bill, bill * short, credited)
  {
    NonNegativeProduct(bill, part - 1.0 + short);
    NonNegativeProduct(bill, 1.0 - part);
    assert bill * (part - 1.0 + short) == bill * part - bill + bill * short;
    assert bill * (1.0 - part) == bill - bill * part;
  }

  lemma NonNegativeProduct(a: real, b: real)
    requires a >= 0.0 && b >= 0.0
    ensures a * b >= 0.0
  {
  }

  /** The most that apportioning a bill to days can lose: two seconds' worth. */
  function MostLost(s: Usage): real {
    if s.totalSeconds == 0 then BillUsd(s) else BillUsd(s) * Fraction(2, s.totalSeconds)
  }

  /** The money credited to the days of a closed session never exceeds its bill, and falls short of it
      by at most two seconds' worth. */
  lemma DaysConserveRevenue(s: Usage, now: int, d: int, n: nat)
    requires s.end.Some? && Covers(d, n, s.start, s.end.value)
    requires s.totalSeconds == TotalSeconds(s.start, s.end.value)
    ensures var credited := RevenueOver(s, now, d, n);
            NearBill(BillUsd(s), MostLost(s), credited) && (s.totalSeconds == 0 ==> credited == 0.0)
  {
    DaysNearBill(s.start, s.end.value, d, n);
    if s.totalSeconds > 0 {
      RevenueIsProportional(s, now, d, n);
      ShareNearBill(s, OverDays(s.start, s.end.value, d, n));
    } else {
      NoUsageNoRevenue(s, now, d, n);
    }
  }

  lemma ShareNearBill(s: Usage, seconds: nat)
    requires s.totalSeconds > 0 && s.totalSeconds - 2 <= seconds <= s.totalSeconds
    ensures NearBill(BillUsd(s), MostLost(s), Share(s, seconds))
  {
    FractionNearOne(seconds, s.totalSeconds);
    PortionNearBill(BillUsd(s), Fraction(2, s.totalSeconds), Fraction(seconds, s.totalSeconds), Share(s, seconds));
  }

  lemma {:induction false} NoUsageNoRevenue(s: Usage, now: int, d: int, n: nat)
    requires OverDays(s.start, EndOf(s, now), d, n) == 0
    ensures RevenueOver(s, now, d, n) == 0.0
  {
    if n > 0 { NoUsageNoRevenue(s, now, d, n - 1); }
  }

  // ---------------------------------------------------------------------------------------------
  // Many sessions
  // ---------------------------------------------------------------------------------------------

  /** Sessions and GPUs without a type count as UNKNOWN. */
  function KeyOf(t: GpuType): GpuType {
    if t == "" then "UNKNOWN" else t
  }

  predicate Counts(s: Usage, g: GpuType, now: int, d: int) {
    KeyOf(s.gpuType) == g && UsedOn(s, now, d) > 0
  }

  /** What one row of the daily table is about. */
  datatype Agg = Agg(sessionsCount: nat, customers: set<UserId>, usedSeconds: nat, revenueUsd: real)

  const NoUsage: Agg := Agg(0, {}, 0, 0.0)

  function AddTo(agg: Agg, s: Usage, now: int, d: int): Agg {
    Agg(agg.sessionsCount + 1, agg.customers + {s.user}, agg.usedSeconds + UsedOn(s, now, d),
        agg.revenueUsd + RevenueOn(s, now, d))
  }

  function DayAgg(sessions: seq<Usage>, g: GpuType, now: int, d: int): Agg {
    if sessions == [] then NoUsage
    else
      var rest := DayAgg(sessions[..|sessions| - 1], g, now, d);
      var s := sessions[|sessions| - 1];
      if Counts(s, g, now, d) then AddTo(rest, s, now, d) else rest
  }

  /** The seconds of all days of the sessions of one GPU type, session by session. */
  function UsedBySessions(sessions: seq<Usage>, g: GpuType, now: int, d: int, n: nat): nat {
    if sessions == [] then 0
    else
      var s := sessions[|sessions| - 1];
      UsedBySessions(sessions[..|sessions| - 1], g, now, d, n)
      + if KeyOf(s.gpuType) == g then OverDays(s.start, EndOf(s, now), d, n) else 0
  }

  /** The same, day by day. */
  function UsedByDays(sessions: seq<Usage>, g: GpuType, now: int, d: int, n: nat): nat {
    if n == 0 then 0 else UsedByDays(sessions, g, now, d, n - 1) + DayAgg(sessions, g, now, d + n - 1).usedSeconds
  }

  lemma {:induction false} DaysAndSessionsAgree(sessions: seq<Usage>, g: GpuType, now: int, d: int, n: nat)
    ensures UsedByDays(sessions, g, now, d, n) == UsedBySessions(sessions, g, now, d, n)
    decreases n
  {
    if n == 0 {
      NoDays(sessions, g, now, d);
    } else {
      DaysAndSessionsAgree(sessions, g, now, d, n - 1);
      OneMoreDay(sessions, g, now, d, n);
    }
  }

  lemma {:induction false} NoDays(sessions: seq<Usage>, g: GpuType, now: int, d: int)
    ensures UsedBySessions(sessions, g, now, d, 0) == 0
  {
    if sessions != [] { NoDays(sessions[..|sessions| - 1], g, now, d); }
  }

  lemma {:induction false} OneMoreDay(sessions: seq<Usage>, g: GpuType, now: int, d: int, n: nat)
    requires n > 0
    ensures UsedBySessions(sessions, g, now, d, n)
         == UsedBySessions(sessions, g, now, d, n - 1) + DayAgg(sessions, g, now, d + n - 1).usedSeconds
  {
    if sessions != [] { OneMoreDay(sessions[..|sessions| - 1], g, now, d, n); }
  }

  /** The billed seconds and the number of the sessions of one GPU type. */
  function BilledOf(sessions: seq<Usage>, g: GpuType): nat {
    if sessions == [] then 0
    else BilledOf(sessions[..|sessions| - 1], g)
         + if KeyOf(sessions[|sessions| - 1].gpuType) == g then sessions[|sessions| - 1].totalSeconds else 0
  }

  function CountOf(sessions: seq<Usage>, g: GpuType): nat {
    if sessions == [] then 0
    else CountOf(sessions[..|sessions| - 1], g) + if KeyOf(sessions[|sessions| - 1].gpuType) == g then 1 else 0
  }

  predicate ClosedWithin(s: Usage, d: int, n: nat) {
    s.end.Some? && Covers(d, n, s.start, s.end.value) && s.totalSeconds == TotalSeconds(s.start, s.end.value)
  }

  /** Over days that cover the sessions, the used seconds of the daily rows of a GPU type are its billed
      seconds, less at most two per session. */
  lemma {:induction false} DailyRowsConserveUsage(sessions: seq<Usage>, g: GpuType, now: int, d: int, n: nat)
    requires forall i | 0 <= i < |sessions| :: ClosedWithin(sessions[i], d, n)
    ensures BilledOf(sessions, g) - 2 * CountOf(sessions, g)
         <= UsedByDays(sessions, g, now, d, n) <= BilledOf(sessions, g)
    decreases |sessions|
  {
    DaysAndSessionsAgree(sessions, g, now, d, n);
    if sessions != [] {
      var s := sessions[|sessions| - 1];
      DaysNearBill(s.start, s.end.value, d, n);
      DailyRowsConserveUsage(sessions[..|sessions| - 1], g, now, d, n);
      DaysAndSessionsAgree(sessions[..|sessions| - 1], g, now, d, n);
    }
  }

  /** The positions of the sessions that count for a row. */
  function Counted(sessions: seq<Usage>, g: GpuType, now: int, d: int): set<nat> {
    set i: nat | i < |sessions| && Counts(sessions[i], g, now, d)
  }

  lemma CountedNext(sessions: seq<Usage>, g: GpuType, now: int, d: int)
    requires sessions != []
    ensures var last: nat := |sessions| - 1; var before := Counted(sessions[..last], g, now, d);
            && Counted(sessions, g, now, d) == (if Counts(sessions[last], g, now, d) then before + {last} else before)
            && last !in before && (forall i | i in before :: sessions[..last][i] == sessions[i])
  {
  }

  lemma AggNext(sessions: seq<Usage>, g: GpuType, now: int, d: int)
    requires sessions != []
    ensures var s := sessions[|sessions| - 1];
            var agg := DayAgg(sessions, g, now, d);
            var rest := DayAgg(sessions[..|sessions| - 1], g, now, d);
            && agg.sessionsCount == rest.sessionsCount + (if Counts(s, g, now, d) then 1 else 0)
            && agg.customers == rest.customers + (if Counts(s, g, now, d) then {s.user} else {})
  {
  }

  /** What a row says: how many sessions of its type have seconds on the day, and whose they are. */
  lemma {:induction false} RowCountsSessionsAndCustomers(sessions: seq<Usage>, g: GpuType, now: int, d: int)
    ensures var agg := DayAgg(sessions, g, now, d); var counted := Counted(sessions, g, now, d);
            && agg.sessionsCount == |counted|
            && (forall i | i in counted :: sessions[i].user in agg.customers)
            && (forall u | u in agg.customers :: exists i :: i in counted && sessions[i].user == u)
  {
    if sessions != [] {
      RowCountsSessionsAndCustomers(sessions[..|sessions| - 1], g, now, d);
      CountedNext(sessions, g, now, d);
      AggNext(sessions, g, now, d);
    }
  }

  function RevenueByDays(sessions: seq<Usage>, g: GpuType, now: int, d: int, n: nat): real {
    if n == 0 then 0.0 else RevenueByDays(sessions, g, now, d, n - 1) + DayAgg(sessions, g, now, d + n - 1).revenueUsd
  }

  function RevenueBySessions(sessions: seq<Usage>, g: GpuType, now: int, d: int, n: nat): real {
    if sessions == [] then 0.0
    else
      var s := sessions[|sessions| - 1];
      RevenueBySessions(sessions[..|sessions| - 1], g, now, d, n)
      + if KeyOf(s.gpuType) == g then RevenueOver(s, now, d, n) else 0.0
  }

  lemma {:induction false} RevenueOneMoreDay(sessions: seq<Usage>, g: GpuType, now: int, d: int, n: nat)
    requires n > 0
    ensures RevenueBySessions(sessions, g, now, d, n)
         == RevenueBySessions(sessions, g, now, d, n - 1) + DayAgg(sessions, g, now, d + n - 1).revenueUsd
  {
    if sessions != [] { RevenueOneMoreDay(sessions[..|sessions| - 1], g, now, d, n); }
  }

  lemma {:induction false} NoDaysNoRevenue(sessions: seq<Usage>, g: GpuType, now: int, d: int)
    ensures RevenueBySessions(sessions, g, now, d, 0) == 0.0
  {
    if sessions != [] { NoDaysNoRevenue(sessions[..|sessions| - 1], g, now, d); }
  }

  lemma {:induction false} RevenueDaysAndSessionsAgree(sessions: seq<Usage>, g: GpuType, now: int, d: int, n: nat)
    ensures RevenueByDays(sessions, g, now, d, n) == RevenueBySessions(sessions, g, now, d, n)
    decreases n
  {
    if n == 0 {
      NoDaysNoRevenue(sessions, g, now, d);
    } else {
      RevenueDaysAndSessionsAgree(sessions, g, now, d, n - 1);
      RevenueOneMoreDay(sessions, g, now, d, n);
    }
  }

  /** The bills of one GPU type, and the most that apportioning them to days can lose. */
  function BillsUsd(sessions: seq<Usage>, g: GpuType): real {
    if sessions == [] then 0.0
    else BillsUsd(sessions[..|sessions| - 1], g)
         + if KeyOf(sessions[|sessions| - 1].gpuType) == g then BillUsd(sessions[|sessions| - 1]) else 0.0
  }

  function MostLostOf(sessions: seq<Usage>, g: GpuType): real {
    if sessions == [] then 0.0
    else MostLostOf(sessions[..|sessions| - 1], g)
         + if KeyOf(sessions[|sessions| - 1].gpuType) == g then MostLost(sessions[|sessions| - 1]) else 0.0
  }

  /** Over days that cover the sessions, the revenue of the daily rows of a GPU type never exceeds its
      bills, and falls short by at most two seconds' worth of each. */
  lemma {:induction false} DailyRowsConserveRevenue(sessions: seq<Usage>, g: GpuType, now: int, d: int, n: nat)
    requires forall i | 0 <= i < |sessions| :: ClosedWithin(sessions[i], d, n)
    ensures NearBill(BillsUsd(sessions, g), MostLostOf(sessions, g), RevenueByDays(sessions, g, now, d, n))
    decreases |sessions|
  {
    RevenueDaysAndSessionsAgree(sessions, g, now, d, n);
    if sessions != [] {
      var s := sessions[|sessions| - 1];
      DaysConserveRevenue(s, now, d, n);
      DailyRowsConserveRevenue(sessions[..|sessions| - 1], g, now, d, n);
      RevenueDaysAndSessionsAgree(sessions[..|sessions| - 1], g, now, d, n);
    }
  }
}
