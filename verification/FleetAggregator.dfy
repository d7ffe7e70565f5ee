/** The daily fleet table as the aggregation job fills it, accumulating per GPU type in maps. */
module FleetAggregator {
  import opened Wrappers
  import opened FleetDays

  datatype Row = Row(gpuCount: nat, hoursAvailable: nat, hoursUsed: real, utilizationPct: real, revenueUsd: real,
                     sessionsCount: nat, uniqueCustomers: nat)

  function Clamp(n: real, lo: real, hi: real): real {
    var m := if hi < n then hi else n;
    if m < lo then lo else m
  }

  /** The hours of the row are these seconds, and its utilization is the percentage that is of all hours of
      its GPUs, 100 at most. */
  predicate Utilized(row: Row, seconds: nat) {
    && row.hoursAvailable == 24 * row.gpuCount && 3600.0 * row.hoursUsed == seconds as real
    && if row.gpuCount == 0 then row.utilizationPct == 0.0
       else if seconds >= 86_400 * row.gpuCount then row.utilizationPct == 100.0
       else 864.0 * row.gpuCount as real * row.utilizationPct == seconds as real
  }

  lemma UtilizationIs(count: nat, seconds: nat)
    requires count > 0
    ensures var util := ((seconds as real / 3600.0) / (count * 24) as real) * 100.0;
            && 864.0 * count as real * util == seconds as real
            && (seconds >= 86_400 * count <==> util >= 100.0) && util >= 0.0
  {
    var hours, available := seconds as real / 3600.0, (count * 24) as real;
    var q := hours / available;
    assert q * available == hours;
    assert (864.0 * count as real) * (q * 100.0) == 3600.0 * (q * available);
    if seconds >= 86_400 * count {
      assert hours >= available;
      QuotientAtLeastOneIff(hours, available);
    } else {
      assert hours < available;
      QuotientAtLeastOneIff(hours, available);
    }
  }

  lemma QuotientAtLeastOneIff(x: real, d: real)
    requires d > 0.0 && x >= 0.0
    ensures (x / d >= 1.0 <==> x >= d) && x / d >= 0.0
  {
    assert d / d == 1.0;
    if x >= d { assert (x - d) / d >= 0.0; } else { assert (d - x) / d > 0.0; }
  }

  function RowOf(count: nat, agg: Agg): (row: Row)
    ensures row.gpuCount == count && Utilized(row, agg.usedSeconds)
    ensures row.revenueUsd == agg.revenueUsd
    ensures row.sessionsCount == agg.sessionsCount && row.uniqueCustomers == |agg.customers|
  {
    var used := agg.usedSeconds as real / 3600.0;
    var available := count * 24;
    var util := if available > 0 then (used / available as real) * 100.0 else 0.0;
    if count > 0 then
      UtilizationIs(count, agg.usedSeconds);
      Row(count, available, used, Clamp(util, 0.0, 100.0), agg.revenueUsd, agg.sessionsCount, |agg.customers|)
    else Row(count, available, used, Clamp(util, 0.0, 100.0), agg.revenueUsd, agg.sessionsCount, |agg.customers|)
  }

  function CountIn(inventory: seq<GpuType>, g: GpuType): nat {
    if inventory == [] then 0
    else CountIn(inventory[..|inventory| - 1], g) + if KeyOf(inventory[|inventory| - 1]) == g then 1 else 0
  }

  /** The inputs of a day's rows: GPU types in the fleet and all usage sessions. */
  datatype Fleet = Fleet(inventory: seq<GpuType>, sessions: seq<Usage>, now: int)

  predicate HasRow(f: Fleet, g: GpuType, d: int) {
    CountIn(f.inventory, g) > 0 || DayAgg(f.sessions, g, f.now, d).sessionsCount > 0
  }

  function DayRow(f: Fleet, g: GpuType, d: int): Row {
    RowOf(CountIn(f.inventory, g), DayAgg(f.sessions, g, f.now, d))
  }

  type Rows = map<(int, GpuType), Row>

  /** Day `d` has exactly its rows, beside those that were there. */
  ghost predicate DayFilled(before: Rows, after: Rows, f: Fleet, d: int) {
    forall g ::
      if HasRow(f, g, d) then (d, g) in after && after[(d, g)] == DayRow(f, g, d)
      else ((d, g) in after <==> (d, g) in before) && ((d, g) in before ==> after[(d, g)] == before[(d, g)])
  }

  ghost predicate SameOn(before: Rows, after: Rows, d: int) {
    forall g :: ((d, g) in after <==> (d, g) in before) && ((d, g) in before ==> after[(d, g)] == before[(d, g)])
  }

  /** A session outside the query's range has no seconds on the day. */
  lemma QueryMissesNothing(s: Usage, now: int, d: int)
    requires !(s.start < DayStart(d + 1) && (s.end.None? || s.end.value > DayStart(d)))
    ensures UsedOn(s, now, d) == 0
  {
  }

  lemma {:induction false} UsageMeansSessions(sessions: seq<Usage>, g: GpuType, now: int, d: int)
    ensures DayAgg(sessions, g, now, d).sessionsCount == 0 ==> DayAgg(sessions, g, now, d) == NoUsage
  {
    if sessions != [] { UsageMeansSessions(sessions[..|sessions| - 1], g, now, d); }
  }

  /** The positions of a type in the inventory; those without a type count as UNKNOWN. */
  function OfType(inventory: seq<GpuType>, g: GpuType): set<nat> {
    set i: nat | i < |inventory| && (inventory[i] == g != "" || (inventory[i] == "" && g == "UNKNOWN"))
  }

  lemma OfTypeNext(inventory: seq<GpuType>, g: GpuType)
    requires inventory != []
    ensures var last: nat := |inventory| - 1; var before := OfType(inventory[..last], g);
            && last !in before
            && OfType(inventory, g) == if KeyOf(inventory[last]) == g then before + {last} else before
  {
    var last: nat := |inventory| - 1;
    assert forall i: nat | i < last :: inventory[..last][i] == inventory[i];
  }

  lemma {:induction false} CountInIsSize(inventory: seq<GpuType>, g: GpuType)
    ensures CountIn(inventory, g) == |OfType(inventory, g)|
  {
    if inventory == [] {
      assert OfType(inventory, g) == {};
    } else {
      CountInIsSize(inventory[..|inventory| - 1], g);
      OfTypeNext(inventory, g);
    }
  }

  /** What a row of the table says: the GPUs of its type and their hours, the seconds its type was used on
      the day and the share of the hours that is, and of how many sessions and users. */
  ghost predicate RowFacts(row: Row, f: Fleet, g: GpuType, d: int) {
    && row.gpuCount == |OfType(f.inventory, g)|
    && Utilized(row, DayAgg(f.sessions, g, f.now, d).usedSeconds)
    && row.sessionsCount == |Counted(f.sessions, g, f.now, d)|
    && row.uniqueCustomers == |set i | i in Counted(f.sessions, g, f.now, d) :: f.sessions[i].user|
  }

  lemma CustomersAre(sessions: seq<Usage>, g: GpuType, now: int, d: int)
    ensures var agg := DayAgg(sessions, g, now, d);
            && agg.sessionsCount == |Counted(sessions, g, now, d)|
            && |agg.customers| == |set i | i in Counted(sessions, g, now, d) :: sessions[i].user|
  {
    RowCountsSessionsAndCustomers(sessions, g, now, d);
    assert (set i | i in Counted(sessions, g, now, d) :: sessions[i].user) == DayAgg(sessions, g, now, d).customers;
  }

  lemma RowSays(f: Fleet, g: GpuType, d: int)
    ensures RowFacts(DayRow(f, g, d), f, g, d)
  {
    CountInIsSize(f.inventory, g);
    CustomersAre(f.sessions, g, f.now, d);
  }

  /** The day has a row for exactly the GPU types in the fleet or with seconds on the day. */
  lemma HasRowIff(f: Fleet, g: GpuType, d: int)
    ensures HasRow(f, g, d)
       <==> || (exists i :: 0 <= i < |f.inventory| && KeyOf(f.inventory[i]) == g)
            || (exists i :: 0 <= i < |f.sessions| && KeyOf(f.sessions[i].gpuType) == g
                            && UsedOn(f.sessions[i], f.now, d) > 0)
  {
    CountInIsSize(f.inventory, g);
    var at := OfType(f.inventory, g);
    assert |at| > 0 <==> at != {};
    if at != {} { var i :| i in at; assert KeyOf(f.inventory[i]) == g; }
    if exists i :: 0 <= i < |f.inventory| && KeyOf(f.inventory[i]) == g {
      var i :| 0 <= i < |f.inventory| && KeyOf(f.inventory[i]) == g;
      assert i in at;
    }
    RowCountsSessionsAndCustomers(f.sessions, g, f.now, d);
    var counted := Counted(f.sessions, g, f.now, d);
    assert |counted| > 0 <==> counted != {};
    if counted != {} { var i :| i in counted; assert Counts(f.sessions[i], g, f.now, d); }
    if exists i :: 0 <= i < |f.sessions| && Counts(f.sessions[i], g, f.now, d) {
      var i :| 0 <= i < |f.sessions| && Counts(f.sessions[i], g, f.now, d);
      assert i in counted;
    }
    assert forall i | 0 <= i < |f.sessions| ::
        Counts(f.sessions[i], g, f.now, d) <==>
        KeyOf(f.sessions[i].gpuType) == g && UsedOn(f.sessions[i], f.now, d) > 0;
  }

  /** The used hours of a GPU type in the rows of `n` days. */
  ghost function HoursIn(rows: Rows, g: GpuType, d: int, n: nat): real {
    if n == 0 then 0.0
    else HoursIn(rows, g, d, n - 1) + if (d + n - 1, g) in rows then rows[(d + n - 1, g)].hoursUsed else 0.0
  }

  /** The revenue of a GPU type in the rows of `n` days. */
  ghost function RevenueIn(rows: Rows, g: GpuType, d: int, n: nat): real {
    if n == 0 then 0.0
    else RevenueIn(rows, g, d, n - 1) + if (d + n - 1, g) in rows then rows[(d + n - 1, g)].revenueUsd else 0.0
  }

  /** Rows of these days that the job does not write carry no hours and no revenue. */
  ghost predicate OthersIdle(before: Rows, f: Fleet, d: int, n: nat) {
    forall x, g | d <= x < d + n && !HasRow(f, g, x) && (x, g) in before ::
      before[(x, g)].hoursUsed == 0.0 && before[(x, g)].revenueUsd == 0.0
  }

  /** The hours and the revenue of filled days, if other rows have none, are those of the sessions. */
  lemma {:induction false} HoursAddUp(before: Rows, rows: Rows, f: Fleet, g: GpuType, d: int, n: nat)
    requires forall x | d <= x < d + n :: DayFilled(before, rows, f, x)
    requires OthersIdle(before, f, d, n)
    ensures HoursIn(rows, g, d, n) == UsedByDays(f.sessions, g, f.now, d, n) as real / 3600.0
    ensures RevenueIn(rows, g, d, n) == RevenueByDays(f.sessions, g, f.now, d, n)
  {
    if n > 0 {
      HoursAddUp(before, rows, f, g, d, n - 1);
      var last := d + n - 1;
      assert DayFilled(before, rows, f, last);
      UsageMeansSessions(f.sessions, g, f.now, last);
    }
  }

  /** The hours of the days are the billed seconds of a GPU type, less at most two per session, and their
      revenue is its bills, less at most two seconds' worth of each. */
  ghost predicate AccountsFor(rows: Rows, f: Fleet, g: GpuType, d: int, n: nat) {
    && NearBill(BillsUsd(f.sessions, g), MostLostOf(f.sessions, g), RevenueIn(rows, g, d, n))
    && var seconds := HoursIn(rows, g, d, n) * 3600.0;
    (BilledOf(f.sessions, g) - 2 * CountOf(f.sessions, g)) as real <= seconds <= BilledOf(f.sessions, g) as real
  }

  /** The map has exactly the usage of the day's GPU types. */
  ghost predicate Aggregated(byGpu: map<GpuType, Agg>, sessions: seq<Usage>, now: int, d: int) {
    forall g :: (g in byGpu <==> DayAgg(sessions, g, now, d).sessionsCount > 0)
                && DayAgg(sessions, g, now, d) == if g in byGpu then byGpu[g] else NoUsage
  }

  lemma SessionSkipped(byGpu: map<GpuType, Agg>, sessions: seq<Usage>, i: nat, now: int, d: int)
    requires i < |sessions| && Aggregated(byGpu, sessions[..i], now, d) && UsedOn(sessions[i], now, d) == 0
    ensures Aggregated(byGpu, sessions[..i + 1], now, d)
  {
    assert sessions[..i + 1][..i] == sessions[..i];
  }

  lemma SessionAdded(byGpu: map<GpuType, Agg>, sessions: seq<Usage>, i: nat, now: int, d: int)
    requires i < |sessions| && Aggregated(byGpu, sessions[..i], now, d) && UsedOn(sessions[i], now, d) > 0
    ensures var g := KeyOf(sessions[i].gpuType);
            Aggregated(byGpu[g := AddTo(if g in byGpu then byGpu[g] else NoUsage, sessions[i], now, d)],
                       sessions[..i + 1], now, d)
  {
    assert sessions[..i + 1][..i] == sessions[..i];
  }

  class Table {
    var rows: Rows

    constructor ()
      ensures rows == map[]
    {
      rows := map[];
    }

    static method CountInventory(inventory: seq<GpuType>) returns (counts: map<GpuType, nat>)
      ensures forall g ::
                (g in counts <==> CountIn(inventory, g) > 0) && (g in counts ==> counts[g] == CountIn(inventory, g))
    {
      counts := map[];
      for i := 0 to |inventory|
        invariant forall g ::
                  (g in counts <==> CountIn(inventory[..i], g) > 0)
                    && (g in counts ==> counts[g] == CountIn(inventory[..i], g))
      {
        var t := KeyOf(inventory[i]);
        assert inventory[..i + 1][..i] == inventory[..i];
        counts := counts[t := (if t in counts then counts[t] else 0) + 1];
      }
      assert inventory[..|inventory|] == inventory;
    }

    static method Aggregate(sessions: seq<Usage>, now: int, d: int) returns (byGpu: map<GpuType, Agg>)
      ensures Aggregated(byGpu, sessions, now, d)
    {
      byGpu := map[];
      for i := 0 to |sessions|
        invariant Aggregated(byGpu, sessions[..i], now, d)
      {
        var s := sessions[i];
        if s.start < DayStart(d + 1) && (s.end.None? || s.end.value > DayStart(d)) {
          var ov := OverlapSeconds(s.start, if s.end.Some? then s.end.value else now, DayStart(d), DayStart(d + 1));
          if ov > 0 {
            SessionAdded(byGpu, sessions, i, now, d);
            var g := KeyOf(s.gpuType);
            var agg := if g in byGpu then byGpu[g] else NoUsage;
            byGpu := byGpu[g := Agg(agg.sessionsCount + 1, agg.customers + {s.user}, agg.usedSeconds + ov,
                                    agg.revenueUsd + Share(s, ov))];
          } else {
            SessionSkipped(byGpu, sessions, i, now, d);
          }
        } else {
          QueryMissesNothing(s, now, d);
          SessionSkipped(byGpu, sessions, i, now, d);
        }
      }
      assert sessions[..|sessions|] == sessions;
    }

    /** The upserts of one day. */
    method WriteRows(d: int, values: map<GpuType, Row>)
      modifies this
      ensures forall g | g in values :: (d, g) in rows && rows[(d, g)] == values[g]
      ensures forall g | g !in values ::
                ((d, g) in rows <==> (d, g) in old(rows)) && ((d, g) in old(rows) ==> rows[(d, g)] == old(rows)[(d, g)])
      ensures forall other | other != d :: SameOn(old(rows), rows, other)
    {
      var todo := values.Keys;
      while todo != {}
        invariant todo <= values.Keys
        invariant forall g | g in values && g !in todo :: (d, g) in rows && rows[(d, g)] == values[g]
        invariant forall g | g !in values ::
                    ((d, g) in rows <==> (d, g) in old(rows))
                      && ((d, g) in old(rows) ==> rows[(d, g)] == old(rows)[(d, g)])
        invariant forall other | other != d :: SameOn(old(rows), rows, other)
        decreases todo
      {
        var g :| g in todo;
        todo := todo - {g};
        ghost var before := rows;
        rows := rows[(d, g) := values[g]];
        forall other | other != d ensures SameOn(old(rows), rows, other) {
          assert SameOn(old(rows), before, other);
        }
      }
    }

    /** Writes the rows of one day, for every GPU type in the fleet or in use, and no others. */
    method ComputeForDate(f: Fleet, d: int)
      modifies this
      ensures DayFilled(old(rows), rows, f, d)
      ensures forall g | HasRow(f, g, d) :: (d, g) in rows && RowFacts(rows[(d, g)], f, g, d)
      ensures forall other | other != d :: SameOn(old(rows), rows, other)
    {
      forall g ensures RowFacts(DayRow(f, g, d), f, g, d) { RowSays(f, g, d); }
      var counts := CountInventory(f.inventory);
      var byGpu := Aggregate(f.sessions, f.now, d);
      WriteRows(d, map g | g in counts.Keys + byGpu.Keys ::
        RowOf(if g in counts then counts[g] else 0, if g in byGpu then byGpu[g] else NoUsage));
    }

    /** Refills the last `days` days up to `today`, and at least yesterday and today, whatever the table
        holds.  The used hours and the revenue of these days then account for the billed seconds and the
        bills of the sessions closed within them, unless a row that is not rewritten carries either. */
    method Backfill(f: Fleet, today: int, days: int) returns (start: int, n: nat)
      modifies this
      ensures start == today - Max(1, days - 1) && start + n == today + 1
      ensures forall d | start <= d <= today :: DayFilled(old(rows), rows, f, d)
      ensures forall d | d < start || today < d :: SameOn(old(rows), rows, d)
      ensures OthersIdle(old(rows), f, start, n)
              && (forall i | 0 <= i < |f.sessions| :: ClosedWithin(f.sessions[i], start, n)) ==>
                forall g :: AccountsFor(rows, f, g, start, n)
    {
      start := today - Max(1, days - 1);
      n := 0;
      while start + n <= today
        invariant start + n <= today + 1
        invariant forall d | start <= d < start + n :: DayFilled(old(rows), rows, f, d)
        invariant forall d | d < start || start + n <= d :: SameOn(old(rows), rows, d)
        decreases today + 1 - start - n
      {
        ghost var before := rows;
        ComputeForDate(f, start + n);
        OneMoreDayFilled(old(rows), before, rows, f, start, n);
        n := n + 1;
      }
      if OthersIdle(old(rows), f, start, n)
        && forall i | 0 <= i < |f.sessions| :: ClosedWithin(f.sessions[i], start, n)
      {
        forall g ensures AccountsFor(rows, f, g, start, n) {
          HoursAddUp(old(rows), rows, f, g, start, n);
          DailyRowsConserveUsage(f.sessions, g, f.now, start, n);
          DailyRowsConserveRevenue(f.sessions, g, f.now, start, n);
        }
      }
    }
  }

  lemma OneMoreDayFilled(first: Rows, before: Rows, after: Rows, f: Fleet, start: int, n: nat)
    requires forall d | start <= d < start + n :: DayFilled(first, before, f, d)
    requires forall d | d < start || start + n <= d :: SameOn(first, before, d)
    requires DayFilled(before, after, f, start + n)
    requires forall other | other != start + n :: SameOn(before, after, other)
    ensures forall d | start <= d < start + n + 1 :: DayFilled(first, after, f, d)
    ensures forall d | d < start || start + n + 1 <= d :: SameOn(first, after, d)
  {
    forall d | d < start || start + n + 1 <= d ensures SameOn(first, after, d) {
      assert SameOn(before, after, d) && SameOn(first, before, d);
    }
    forall d | start <= d < start + n + 1 ensures DayFilled(first, after, f, d) {
      if d == start + n {
        assert SameOn(first, before, d);
      } else {
        assert SameOn(before, after, d) && DayFilled(first, before, f, d);
      }
    }
  }
}
