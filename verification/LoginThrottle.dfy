/**
 The login throttle: failures counted per e-mail, per e-mail and address, and per address, in windows
 that restart when they expire, with a lock when a window is full and a sweep that drops old entries.
 An attempt is taken as one step.
 */
module LoginThrottle {
  import opened Wrappers

  type Email = nat
  type Ip = nat

  datatype Key = ByEmail(email: Email) | ByEmailIp(email: Email, ip: Ip) | ByIp(ip: Ip)

  datatype Config = Config(production: bool, maxFailures: nat, windowMs: nat, lockMs: nat)

  const PRODUCTION: Config := Config(true, 5, 900_000, 1_800_000)
  const DEVELOPMENT: Config := Config(false, 10, 900_000, 120_000)

  datatype Entry = Entry(count: nat, windowStartedAt: int, lockUntil: Option<int>)

  type Table = map<Key, Entry>

  function Keys(cfg: Config, email: Email, ip: Ip): seq<Key> {
    [ByEmail(email), ByEmailIp(email, ip)] + if cfg.production then [ByIp(ip)] else []
  }

  predicate Expired(cfg: Config, e: Entry, now: int) {
    now - e.windowStartedAt > cfg.windowMs
  }

  /** The entry an access finds: one whose window is over counts as none. */
  function Current(cfg: Config, t: Table, k: Key, now: int): Entry {
    if k in t && !Expired(cfg, t[k], now) then t[k] else Entry(0, now, None)
  }

  predicate Locks(e: Entry, now: int) {
    e.lockUntil.Some? && e.lockUntil.value > now
  }

  /** The table after the lock check: it stores what it finds, up to the first lock. */
  function Checked(cfg: Config, t: Table, keys: seq<Key>, now: int): Table
    decreases |keys|
  {
    if keys == [] then t
    else
      var e := Current(cfg, t, keys[0], now);
      var t' := t[keys[0] := e];
      if Locks(e, now) then t' else Checked(cfg, t', keys[1..], now)
  }

  /** The lock the check reports. */
  function ActiveLock(cfg: Config, t: Table, keys: seq<Key>, now: int): Option<int>
    decreases |keys|
  {
    if keys == [] then None
    else
      var e := Current(cfg, t, keys[0], now);
      if Locks(e, now) then e.lockUntil else ActiveLock(cfg, t[keys[0] := e], keys[1..], now)
  }

  function Bumped(cfg: Config, e: Entry, now: int): Entry {
    e.(count := e.count + 1,
       lockUntil := if e.count + 1 >= cfg.maxFailures then Some(now + cfg.lockMs) else e.lockUntil)
  }

  function Recorded(cfg: Config, t: Table, keys: seq<Key>, now: int): Table
    decreases |keys|
  {
    if keys == [] then t
    else Recorded(cfg, t[keys[0] := Bumped(cfg, Current(cfg, t, keys[0], now), now)], keys[1..], now)
  }

  function Cleared(t: Table, keys: seq<Key>): Table {
    t - (set k | k in keys)
  }

  predicate Sweepable(cfg: Config, e: Entry, now: int) {
    Expired(cfg, e, now) && (e.lockUntil.None? || e.lockUntil.value < now)
  }

  function Swept(cfg: Config, t: Table, now: int): Table {
    t - (set k | k in t && Sweepable(cfg, t[k], now))
  }

  // ---------------------------------------------------------------------------------------------
  // Runs
  // ---------------------------------------------------------------------------------------------

  datatype Event = Attempt(email: Email, ip: Ip, valid: bool, at: int) | Sweep(at: int)

  predicate InOrder(events: seq<Event>, from: int) {
    forall i | 0 <= i < |events| :: from <= events[i].at && forall j | i < j < |events| :: events[i].at <= events[j].at
  }

  /** What an attempt gets: 429 with the end of the lock, 401, or a session. */
  datatype Answer = Throttled(until: int) | Rejected | Welcome

  function AnswerTo(cfg: Config, t: Table, e: Event): Answer
    requires e.Attempt?
  {
    var lock := ActiveLock(cfg, t, Keys(cfg, e.email, e.ip), e.at);
    if lock.Some? then Throttled(lock.value) else if e.valid then Welcome else Rejected
  }

  function After(cfg: Config, t: Table, e: Event): Table {
    if e.Sweep? then Swept(cfg, t, e.at)
    else
      var keys := Keys(cfg, e.email, e.ip);
      var t' := Checked(cfg, t, keys, e.at);
      match AnswerTo(cfg, t, e)
      case Throttled(_) => t'
      case Welcome => Cleared(t', keys)
      case Rejected => Recorded(cfg, t', keys, e.at)
  }

  function Answers(cfg: Config, t: Table, events: seq<Event>): seq<Answer>
    decreases |events|
  {
    if events == [] then []
    else (if events[0].Attempt? then [AnswerTo(cfg, t, events[0])] else [])
         + Answers(cfg, After(cfg, t, events[0]), events[1..])
  }

  /** The failures recorded for one key: when, and in the window started when. */
  datatype Mark = Mark(at: int, window: int)

  predicate Records(cfg: Config, t: Table, e: Event, k: Key) {
    e.Attempt? && AnswerTo(cfg, t, e) == Rejected && k in Keys(cfg, e.email, e.ip)
  }

  function Marks(cfg: Config, t: Table, events: seq<Event>, k: Key): seq<Mark>
    decreases |events|
  {
    if events == [] then []
    else (if Records(cfg, t, events[0], k)
          then [Mark(events[0].at, Current(cfg, t, k, events[0].at).windowStartedAt)] else [])
         + Marks(cfg, After(cfg, t, events[0]), events[1..], k)
  }

  predicate NoSuccess(cfg: Config, t: Table, events: seq<Event>, k: Key)
    decreases |events|
  {
    events == [] ||
    (!(events[0].Attempt? && AnswerTo(cfg, t, events[0]) == Welcome && k in Keys(cfg, events[0].email, events[0].ip))
     && NoSuccess(cfg, After(cfg, t, events[0]), events[1..], k))
  }

  // ---------------------------------------------------------------------------------------------
  // One key's entry through an event
  // ---------------------------------------------------------------------------------------------

  lemma {:induction false} CheckedAt(cfg: Config, t: Table, keys: seq<Key>, now: int, k: Key)
    ensures var t' := Checked(cfg, t, keys, now);
            && Current(cfg, t', k, now) == Current(cfg, t, k, now)
            && (k in t' ==> t'[k] == Current(cfg, t, k, now) || (k in t && t'[k] == t[k]))
            && (k in t ==> k in t')
            && (k in keys && ActiveLock(cfg, t, keys, now).None?
                ==> k in t' && t'[k] == Current(cfg, t, k, now) && !Locks(t'[k], now))
    decreases |keys|
  {
    if keys != [] {
      var e := Current(cfg, t, keys[0], now);
      if !Locks(e, now) {
        CheckedAt(cfg, t[keys[0] := e], keys[1..], now, k);
        if k == keys[0] { CheckedFirst(cfg, t[k := e], keys[1..], now, k); }
      }
    }
  }

  /** An entry in its window stays through a check. */
  lemma {:induction false} CheckedFirst(cfg: Config, t: Table, keys: seq<Key>, now: int, k: Key)
    requires k in t && !Expired(cfg, t[k], now)
    ensures var t' := Checked(cfg, t, keys, now); k in t' && t'[k] == t[k]
    decreases |keys|
  {
    if keys != [] {
      var e := Current(cfg, t, keys[0], now);
      if !Locks(e, now) { CheckedFirst(cfg, t[keys[0] := e], keys[1..], now, k); }
    }
  }

  predicate Distinct(keys: seq<Key>) {
    forall i, j | 0 <= i < j < |keys| :: keys[i] != keys[j]
  }

  lemma {:induction false} RecordedAt(cfg: Config, t: Table, keys: seq<Key>, now: int, k: Key)
    requires Distinct(keys)
    ensures var t' := Recorded(cfg, t, keys, now);
            if k in keys then k in t' && t'[k] == Bumped(cfg, Current(cfg, t, k, now), now)
            else (k in t' <==> k in t) && (k in t ==> t'[k] == t[k])
    decreases |keys|
  {
    if keys != [] {
      assert keys == [keys[0]] + keys[1..];
      assert keys[0] !in keys[1..];
      RecordedAt(cfg, t[keys[0] := Bumped(cfg, Current(cfg, t, keys[0], now), now)], keys[1..], now, k);
    }
  }

  // ---------------------------------------------------------------------------------------------
  // The bound
  // ---------------------------------------------------------------------------------------------

  /** The marks so far and the key's entry: the last `count` marks are of the entry's window, all
      earlier ones of windows that were over before it started, and a full window is locked from its last
      mark on. */
  ghost predicate Consistent(cfg: Config, t: Table, k: Key, marks: seq<Mark>, now: int) {
    && Orderly(cfg, marks)
    && (forall i | 0 <= i < |marks| :: marks[i].at <= now)
    && if k !in t then forall i | 0 <= i < |marks| :: marks[i].window + cfg.windowMs < now
       else
         var e := t[k];
         && e.windowStartedAt <= now && e.count <= |marks|
         && (forall i | |marks| - e.count <= i < |marks| :: marks[i].window == e.windowStartedAt)
         && (forall i | 0 <= i < |marks| - e.count :: marks[i].window + cfg.windowMs < e.windowStartedAt)
         && (0 < e.count && cfg.maxFailures <= e.count ==> e.lockUntil == Some(marks[|marks| - 1].at + cfg.lockMs))
  }

  /** Marks come in order and lie in their windows, windows do not overlap, and a mark that finds its
      window full comes no earlier than the lock of the mark before it ends. */
  ghost predicate Orderly(cfg: Config, marks: seq<Mark>) {
    InTime(marks) && InWindows(cfg, marks) && LocksKept(cfg, marks)
  }

  ghost predicate InTime(marks: seq<Mark>) {
    forall i, j | 0 <= i < j < |marks| :: marks[i].at <= marks[j].at
  }

  ghost predicate InWindows(cfg: Config, marks: seq<Mark>) {
    && (forall i | 0 <= i < |marks| :: marks[i].window <= marks[i].at <= marks[i].window + cfg.windowMs)
    && (forall i, j | 0 <= i < j < |marks| ::
        marks[i].window == marks[j].window || marks[i].window + cfg.windowMs < marks[j].window)
  }

  ghost predicate LocksKept(cfg: Config, marks: seq<Mark>) {
    forall j | 0 < j < |marks| :: FindsFull(cfg, marks, j) ==> marks[j - 1].at + cfg.lockMs <= marks[j].at
  }

  /** As many marks as fill a window precede this one in its own. */
  predicate FindsFull(cfg: Config, marks: seq<Mark>, j: int)
    requires 0 <= j < |marks|
  {
    cfg.maxFailures <= j && marks[j - cfg.maxFailures].window == marks[j].window
  }

  predicate Proper(cfg: Config) {
    cfg.maxFailures > 0 && cfg.windowMs > 0
  }

  lemma TimePasses(cfg: Config, t: Table, k: Key, marks: seq<Mark>, now: int, later: int)
    requires Consistent(cfg, t, k, marks, now) && now <= later
    ensures Consistent(cfg, t, k, marks, later)
  {
  }

  /** Reading the entry restarts an expired window and keeps the account. */
  lemma ReadConsistent(cfg: Config, t: Table, k: Key, marks: seq<Mark>, now: int)
    requires Proper(cfg) && Consistent(cfg, t, k, marks, now)
    ensures Consistent(cfg, t[k := Current(cfg, t, k, now)], k, marks, now)
  {
  }

  lemma SameEntrySameAccount(cfg: Config, t: Table, t': Table, k: Key, marks: seq<Mark>, now: int)
    requires Consistent(cfg, t, k, marks, now) && (k in t' <==> k in t) && (k in t ==> t'[k] == t[k])
    ensures Consistent(cfg, t', k, marks, now)
  {
  }

  lemma CheckConsistent(cfg: Config, t: Table, keys: seq<Key>, k: Key, marks: seq<Mark>, now: int)
    requires Proper(cfg) && Consistent(cfg, t, k, marks, now)
    ensures Consistent(cfg, Checked(cfg, t, keys, now), k, marks, now)
  {
    CheckedAt(cfg, t, keys, now, k);
    ReadConsistent(cfg, t, k, marks, now);
    var t' := Checked(cfg, t, keys, now);
    if k in t' && !(k in t && t'[k] == t[k]) {
      SameEntrySameAccount(cfg, t[k := Current(cfg, t, k, now)], t', k, marks, now);
    } else {
      SameEntrySameAccount(cfg, t, t', k, marks, now);
    }
  }

  lemma SweepConsistent(cfg: Config, t: Table, k: Key, marks: seq<Mark>, now: int)
    requires Proper(cfg) && Consistent(cfg, t, k, marks, now)
    ensures Consistent(cfg, Swept(cfg, t, now), k, marks, now)
  {
  }

  lemma SameFull(cfg: Config, marks: seq<Mark>, more: seq<Mark>, j: nat)
    requires Proper(cfg) && j < |marks|
    ensures FindsFull(cfg, marks + more, j) <==> FindsFull(cfg, marks, j)
  {
  }

  lemma OneMoreKept(cfg: Config, marks: seq<Mark>, m: Mark)
    requires Proper(cfg) && LocksKept(cfg, marks)
    requires FindsFull(cfg, marks + [m], |marks|) ==> marks[|marks| - 1].at + cfg.lockMs <= m.at
    ensures LocksKept(cfg, marks + [m])
  {
    var marks' := marks + [m];
    forall j | 0 < j < |marks'| && FindsFull(cfg, marks', j) ensures marks'[j - 1].at + cfg.lockMs <= marks'[j].at {
      if j < |marks| { SameFull(cfg, marks, [m], j); }
    }
  }

  /** A mark may follow if its window is the last one's or later, and any lock is over. */
  lemma OneMoreOrderly(cfg: Config, marks: seq<Mark>, m: Mark)
    requires Proper(cfg) && Orderly(cfg, marks) && m.window <= m.at <= m.window + cfg.windowMs
    requires forall i | 0 <= i < |marks| :: marks[i].at <= m.at
    requires forall i | 0 <= i < |marks| :: marks[i].window == m.window || marks[i].window + cfg.windowMs < m.window
    requires FindsFull(cfg, marks + [m], |marks|) ==> marks[|marks| - 1].at + cfg.lockMs <= m.at
    ensures Orderly(cfg, marks + [m])
  {
    OneMoreKept(cfg, marks, m);
  }

  /** A failure is recorded in a window that is not locked: one with room, or one whose lock is over. */
  lemma FailureConsistent(cfg: Config, t: Table, t': Table, k: Key, marks: seq<Mark>, now: int)
    requires Proper(cfg) && Consistent(cfg, t, k, marks, now)
    requires k in t && t[k] == Current(cfg, t, k, now) && !Expired(cfg, t[k], now) && !Locks(t[k], now)
    requires k in t' && t'[k] == Bumped(cfg, t[k], now)
    ensures Consistent(cfg, t', k, marks + [Mark(now, t[k].windowStartedAt)], now)
  {
    var m := Mark(now, t[k].windowStartedAt);
    if FindsFull(cfg, marks + [m], |marks|) {
      assert marks[|marks| - cfg.maxFailures].window == t[k].windowStartedAt;
      assert cfg.maxFailures <= t[k].count;
    }
    OneMoreOrderly(cfg, marks, m);
  }

  function MarkOf(cfg: Config, t: Table, e: Event, k: Key): seq<Mark> {
    if Records(cfg, t, e, k) then [Mark(e.at, Current(cfg, t, k, e.at).windowStartedAt)] else []
  }

  lemma RejectionConsistent(cfg: Config, t: Table, e: Event, k: Key, marks: seq<Mark>)
    requires Proper(cfg) && Consistent(cfg, t, k, marks, e.at) && e.Attempt? && AnswerTo(cfg, t, e) == Rejected
    ensures Consistent(cfg, After(cfg, t, e), k, marks + MarkOf(cfg, t, e, k), e.at)
  {
    var keys := Keys(cfg, e.email, e.ip);
    var t' := Checked(cfg, t, keys, e.at);
    CheckConsistent(cfg, t, keys, k, marks, e.at);
    CheckedAt(cfg, t, keys, e.at, k);
    RecordedAt(cfg, t', keys, e.at, k);
    if k in keys {
      FailureConsistent(cfg, t', After(cfg, t, e), k, marks, e.at);
    } else {
      SameEntrySameAccount(cfg, t', After(cfg, t, e), k, marks, e.at);
      assert marks + [] == marks;
    }
  }

  lemma UnrecordedConsistent(cfg: Config, t: Table, e: Event, k: Key, marks: seq<Mark>)
    requires Proper(cfg) && Consistent(cfg, t, k, marks, e.at) && NoSuccess(cfg, t, [e], k)
    requires e.Attempt? && AnswerTo(cfg, t, e) != Rejected
    ensures Consistent(cfg, After(cfg, t, e), k, marks, e.at)
  {
    var keys := Keys(cfg, e.email, e.ip);
    CheckConsistent(cfg, t, keys, k, marks, e.at);
    if AnswerTo(cfg, t, e) == Welcome {
      SameEntrySameAccount(cfg, Checked(cfg, t, keys, e.at), After(cfg, t, e), k, marks, e.at);
    }
  }

  lemma EventConsistent(cfg: Config, t: Table, e: Event, k: Key, marks: seq<Mark>)
    requires Proper(cfg) && Consistent(cfg, t, k, marks, e.at) && NoSuccess(cfg, t, [e], k)
    ensures Consistent(cfg, After(cfg, t, e), k, marks + MarkOf(cfg, t, e, k), e.at)
  {
    if e.Attempt? && AnswerTo(cfg, t, e) == Rejected {
      RejectionConsistent(cfg, t, e, k, marks);
    } else {
      assert MarkOf(cfg, t, e, k) == [] && marks + [] == marks;
      if e.Sweep? { SweepConsistent(cfg, t, k, marks, e.at); } else { UnrecordedConsistent(cfg, t, e, k, marks); }
    }
  }

  lemma MarksUnfold(cfg: Config, t: Table, events: seq<Event>, k: Key, marks: seq<Mark>)
    requires events != []
    ensures marks + Marks(cfg, t, events, k)
         == marks + MarkOf(cfg, t, events[0], k) + Marks(cfg, After(cfg, t, events[0]), events[1..], k)
  {
  }

  lemma {:induction false} RunOrderly(cfg: Config, t: Table, events: seq<Event>, k: Key, marks: seq<Mark>, now: int)
    requires Proper(cfg) && Consistent(cfg, t, k, marks, now) && InOrder(events, now)
             && NoSuccess(cfg, t, events, k)
    ensures Orderly(cfg, marks + Marks(cfg, t, events, k))
    decreases |events|
  {
    if events == [] {
      assert marks + [] == marks;
    } else {
      var e := events[0];
      TimePasses(cfg, t, k, marks, now, e.at);
      EventConsistent(cfg, t, e, k, marks);
      var marks' := marks + MarkOf(cfg, t, e, k);
      forall i | 0 <= i < |events| - 1 ensures e.at <= events[1..][i].at { assert events[1..][i] == events[i + 1]; }
      RunOrderly(cfg, After(cfg, t, e), events[1..], k, marks', e.at);
      MarksUnfold(cfg, t, events, k, marks);
    }
  }

  /** How many failures are recorded within an interval. */
  function CountWithin(marks: seq<Mark>, lo: int, hi: int): nat {
    if marks == [] then 0
    else CountWithin(marks[..|marks| - 1], lo, hi) + if lo <= marks[|marks| - 1].at <= hi then 1 else 0
  }

  /** Marks in an interval lie within a stretch of the log. */
  lemma {:induction false} CountWithinStretch(marks: seq<Mark>, lo: int, hi: int, first: nat)
    requires first <= |marks| && forall i | 0 <= i < first :: !(lo <= marks[i].at <= hi)
    ensures CountWithin(marks, lo, hi) <= |marks| - first
  {
    if marks != [] {
      if first == |marks| {
        CountWithinStretch(marks[..|marks| - 1], lo, hi, first - 1);
      } else {
        CountWithinStretch(marks[..|marks| - 1], lo, hi, first);
      }
    }
  }

  /** The first mark from an instant on. */
  function FirstFrom(marks: seq<Mark>, x: int): (first: nat)
    ensures first <= |marks|
    ensures forall i | first <= i < |marks| :: x <= marks[i].at
    ensures first > 0 ==> marks[first - 1].at < x
  {
    if marks == [] || marks[|marks| - 1].at < x then |marks| else FirstFrom(marks[..|marks| - 1], x)
  }

  /** Where the marks of the last one's window begin, looking no further back than `from`. */
  function WindowBegin(marks: seq<Mark>, from: nat, to: nat): (first: nat)
    requires from < to <= |marks|
    ensures from <= first < to && forall i | first <= i < to :: marks[i].window == marks[to - 1].window
    ensures first > from ==> marks[first - 1].window != marks[to - 1].window
  {
    if to - 1 == from || marks[to - 2].window != marks[to - 1].window then to - 1 else WindowBegin(marks, from, to - 1)
  }

  /** In one window, all marks but the first few are a lock apart. */
  lemma {:induction false} LocksApart(cfg: Config, marks: seq<Mark>, from: nat, n: nat)
    requires Proper(cfg) && Orderly(cfg, marks) && from + cfg.maxFailures + n <= |marks|
    requires forall i | from <= i < from + cfg.maxFailures + n :: marks[i].window == marks[from].window
    ensures marks[from].at + n * cfg.lockMs <= marks[from + cfg.maxFailures + n - 1].at
  {
    if n > 0 {
      LocksApart(cfg, marks, from, n - 1);
      assert FindsFull(cfg, marks, from + cfg.maxFailures + n - 1);
      OneMoreTimes(n, cfg.lockMs);
    }
  }

  lemma OneMoreTimes(n: nat, d: int)
    requires n > 0
    ensures n * d == (n - 1) * d + d
  {
  }

  /** The marks of one window beyond the maximum. */
  function Beyond(cfg: Config, n: nat): nat {
    if n <= cfg.maxFailures then 0 else n - cfg.maxFailures
  }

  lemma StretchTakesTime(cfg: Config, marks: seq<Mark>, from: nat, to: nat)
    requires Proper(cfg) && Orderly(cfg, marks) && from < to <= |marks|
    requires forall i | from <= i < to :: marks[i].window == marks[from].window
    ensures Beyond(cfg, to - from) * cfg.lockMs <= marks[to - 1].at - marks[from].at
  {
    if to - from > cfg.maxFailures {
      LocksApart(cfg, marks, from, to - from - cfg.maxFailures);
    }
  }

  /** The locks that fit into a window's length, besides the first instant. */
  function LocksThatFit(cfg: Config): nat
    requires Proper(cfg) && cfg.lockMs > 0
  {
    (cfg.windowMs - 1) / cfg.lockMs
  }

  function MostFailures(cfg: Config): nat
    requires Proper(cfg) && cfg.lockMs > 0
  {
    2 * cfg.maxFailures + LocksThatFit(cfg)
  }

  lemma AtMost(n: nat, d: nat, x: nat)
    requires d > 0 && n * d <= x
    ensures n <= x / d
  {
    if n > x / d {
      LeastMultiple(x / d, n, d);
    }
  }

  lemma LeastMultiple(q: nat, n: nat, d: nat)
    requires q < n
    ensures q * d + d <= n * d
  {
    assert (n - q - 1) * d >= 0;
    assert n * d == q * d + d + (n - q - 1) * d;
  }

  lemma TimesAdd(a: nat, b: nat, d: nat)
    ensures (a + b) * d == a * d + b * d
  {
  }

  /** Marks no more than a window's length apart lie in two windows at most. */
  lemma TwoWindows(cfg: Config, marks: seq<Mark>, from: nat, c: nat)
    requires Orderly(cfg, marks) && from < c < |marks|
    requires marks[c - 1].window != marks[c].window && marks[c].at <= marks[from].at + cfg.windowMs
    ensures forall i | from <= i < c :: marks[i].window == marks[from].window
  {
    assert marks[c - 1].window + cfg.windowMs < marks[c].window;
  }

  /** The marks of two windows take the time of their locks, and some between the windows. */
  lemma TwoStretches(cfg: Config, marks: seq<Mark>, from: nat, c: nat)
    requires Proper(cfg) && cfg.lockMs > 0 && Orderly(cfg, marks) && from < c < |marks|
    requires marks[c - 1].window != marks[c].window && marks[|marks| - 1].at <= marks[from].at + cfg.windowMs
    requires forall i | c <= i < |marks| :: marks[i].window == marks[c].window
    ensures Beyond(cfg, c - from) + Beyond(cfg, |marks| - c) <= LocksThatFit(cfg)
  {
    var n := |marks|;
    assert marks[c].at <= marks[n - 1].at;
    TwoWindows(cfg, marks, from, c);
    StretchTakesTime(cfg, marks, from, c);
    StretchTakesTime(cfg, marks, c, n);
    assert marks[c - 1].at < marks[c].at;
    FitTogether(cfg, Beyond(cfg, c - from), Beyond(cfg, n - c), marks[c - 1].at - marks[from].at,
                marks[n - 1].at - marks[c].at);
  }

  lemma FitTogether(cfg: Config, a: nat, b: nat, x: nat, y: nat)
    requires Proper(cfg) && cfg.lockMs > 0
    requires a * cfg.lockMs <= x && b * cfg.lockMs <= y && x + y < cfg.windowMs
    ensures a + b <= LocksThatFit(cfg)
  {
    TimesAdd(a, b, cfg.lockMs);
    AtMost(a + b, cfg.lockMs, cfg.windowMs - 1);
  }

  lemma NoneBeyond(cfg: Config, n: nat)
    ensures n <= cfg.maxFailures + Beyond(cfg, n)
  {
  }

  lemma OneStretch(cfg: Config, marks: seq<Mark>, from: nat)
    requires Proper(cfg) && cfg.lockMs > 0 && Orderly(cfg, marks) && from < |marks|
    requires forall i | from <= i < |marks| :: marks[i].window == marks[from].window
    requires marks[|marks| - 1].at <= marks[from].at + cfg.windowMs
    ensures Beyond(cfg, |marks| - from) <= LocksThatFit(cfg) + 1
  {
    StretchTakesTime(cfg, marks, from, |marks|);
    OneWindowBound(cfg, Beyond(cfg, |marks| - from), marks[|marks| - 1].at - marks[from].at);
  }

  /** Few marks fit into a window's length. */
  lemma StretchBound(cfg: Config, marks: seq<Mark>, from: nat)
    requires Proper(cfg) && cfg.lockMs > 0 && Orderly(cfg, marks) && from < |marks|
    requires marks[|marks| - 1].at <= marks[from].at + cfg.windowMs
    ensures |marks| - from <= MostFailures(cfg)
  {
    var c := WindowBegin(marks, from, |marks|);
    if c == from {
      OneStretch(cfg, marks, from);
      NoneBeyond(cfg, |marks| - from);
    } else {
      TwoStretches(cfg, marks, from, c);
      NoneBeyond(cfg, c - from);
      NoneBeyond(cfg, |marks| - c);
    }
  }

  lemma OneWindowBound(cfg: Config, beyond: nat, d: nat)
    requires Proper(cfg) && cfg.lockMs > 0 && beyond * cfg.lockMs <= d <= cfg.windowMs
    ensures beyond <= LocksThatFit(cfg) + 1
  {
    if beyond > 0 {
      OneMoreTimes(beyond, cfg.lockMs);
      AtMost(beyond - 1, cfg.lockMs, cfg.windowMs - 1);
    }
  }

  lemma OrderlyPrefix(cfg: Config, marks: seq<Mark>, n: nat)
    requires Proper(cfg) && n <= |marks| && Orderly(cfg, marks)
    ensures Orderly(cfg, marks[..n])
  {
    forall j | 0 < j < n && FindsFull(cfg, marks[..n], j) ensures marks[j - 1].at + cfg.lockMs <= marks[j].at {
      assert marks[..n] + marks[n..] == marks;
      SameFull(cfg, marks[..n], marks[n..], j);
    }
  }

  /** If the last mark is in an interval, exactly the marks from the first one in it on can be. */
  lemma CountFromFirst(marks: seq<Mark>, x: int, y: int)
    requires InTime(marks)
    ensures CountWithin(marks, x, y) <= |marks| - FirstFrom(marks, x)
  {
    var first := FirstFrom(marks, x);
    forall i: nat | i < first ensures marks[i].at < x {
      if i < first - 1 { assert marks[i].at <= marks[first - 1].at; }
    }
    CountWithinStretch(marks, x, y, first);
  }

  lemma CountEndingWithin(cfg: Config, marks: seq<Mark>, x: int)
    requires Proper(cfg) && cfg.lockMs > 0 && Orderly(cfg, marks) && marks != []
    requires x <= marks[|marks| - 1].at <= x + cfg.windowMs
    ensures CountWithin(marks, x, x + cfg.windowMs) <= MostFailures(cfg)
  {
    CountFromFirst(marks, x, x + cfg.windowMs);
    StretchBound(cfg, marks, FirstFrom(marks, x));
  }

  lemma {:induction false} CountBound(cfg: Config, marks: seq<Mark>, x: int)
    requires Proper(cfg) && cfg.lockMs > 0 && Orderly(cfg, marks)
    ensures CountWithin(marks, x, x + cfg.windowMs) <= MostFailures(cfg)
  {
    if marks == [] {
    } else if x <= marks[|marks| - 1].at <= x + cfg.windowMs {
      CountEndingWithin(cfg, marks, x);
    } else {
      OrderlyPrefix(cfg, marks, |marks| - 1);
      CountBound(cfg, marks[..|marks| - 1], x);
    }
  }

  // ---------------------------------------------------------------------------------------------
  // Main results
  // ---------------------------------------------------------------------------------------------

  /** In a run without a success for a key, any interval of one window's length contains at most twice
      the maximum of recorded failures for it, and one more for each lock that fits into it. */
  lemma FailuresAreBounded(cfg: Config, events: seq<Event>, k: Key, start: int, x: int)
    requires Proper(cfg) && cfg.lockMs > 0 && InOrder(events, start) && NoSuccess(cfg, map[], events, k)
    ensures CountWithin(Marks(cfg, map[], events, k), x, x + cfg.windowMs) <= MostFailures(cfg)
  {
    RunOrderly(cfg, map[], events, k, [], start);
    assert [] + Marks(cfg, map[], events, k) == Marks(cfg, map[], events, k);
    CountBound(cfg, Marks(cfg, map[], events, k), x);
  }

  lemma ProductionBound(events: seq<Event>, k: Key, start: int, x: int)
    requires InOrder(events, start) && NoSuccess(PRODUCTION, map[], events, k)
    ensures CountWithin(Marks(PRODUCTION, map[], events, k), x, x + 900_000) <= 10
  {
    FailuresAreBounded(PRODUCTION, events, k, start, x);
  }

  lemma DevelopmentBound(events: seq<Event>, k: Key, start: int, x: int)
    requires InOrder(events, start) && NoSuccess(DEVELOPMENT, map[], events, k)
    ensures CountWithin(Marks(DEVELOPMENT, map[], events, k), x, x + 900_000) <= 27
  {
    FailuresAreBounded(DEVELOPMENT, events, k, start, x);
  }

  /** A lock does not last its own length: the window's restart drops it.  An entry locks exactly while
      its window lasts and its lock has not run out; a full window in production, to its very end. */
  lemma LockEndsWithWindow(cfg: Config, t: Table, k: Key, marks: seq<Mark>, now: int, later: int)
    requires Consistent(cfg, t, k, marks, now) && now <= later && k in t
    ensures Locks(Current(cfg, t, k, later), later)
       <==> later <= t[k].windowStartedAt + cfg.windowMs && t[k].lockUntil.Some? && later < t[k].lockUntil.value
    ensures cfg.lockMs > cfg.windowMs && 0 < t[k].count && cfg.maxFailures <= t[k].count ==>
              (Locks(Current(cfg, t, k, later), later) <==> later <= t[k].windowStartedAt + cfg.windowMs)
  {
  }

  /** A success forgets its keys: the next access to any of them starts a new window. */
  lemma SuccessForgets(cfg: Config, t: Table, e: Event, k: Key, later: int)
    requires e.Attempt? && AnswerTo(cfg, t, e) == Welcome
    ensures k in Keys(cfg, e.email, e.ip) ==> Current(cfg, After(cfg, t, e), k, later) == Entry(0, later, None)
    ensures k !in Keys(cfg, e.email, e.ip) && e.at <= later
            ==> Current(cfg, After(cfg, t, e), k, later) == Current(cfg, t, k, later)
  {
    CheckedElsewhere(cfg, t, Keys(cfg, e.email, e.ip), e.at, k);
  }

  lemma {:induction false} CheckedElsewhere(cfg: Config, t: Table, keys: seq<Key>, now: int, k: Key)
    ensures k !in keys ==> var t' := Checked(cfg, t, keys, now); (k in t' <==> k in t) && (k in t ==> t'[k] == t[k])
    decreases |keys|
  {
    if keys != [] {
      var e := Current(cfg, t, keys[0], now);
      if !Locks(e, now) { CheckedElsewhere(cfg, t[keys[0] := e], keys[1..], now, k); }
    }
  }

  // The sweep.

  function Live(cfg: Config, t: Table, k: Key, now: int): Option<Entry> {
    if k in t && !Expired(cfg, t[k], now) then Some(t[k]) else None
  }

  /** Tables that differ only in entries whose windows are over. */
  ghost predicate Similar(cfg: Config, t: Table, t': Table, now: int) {
    forall k :: Live(cfg, t, k, now) == Live(cfg, t', k, now)
  }

  lemma StoreSimilar(cfg: Config, t: Table, t': Table, now: int, k: Key, e: Entry)
    requires Similar(cfg, t, t', now)
    ensures Similar(cfg, t[k := e], t'[k := e], now)
  {
    var u, u' := t[k := e], t'[k := e];
    forall q ensures Live(cfg, u, q, now) == Live(cfg, u', q, now) {
      assert Live(cfg, t, q, now) == Live(cfg, t', q, now);
    }
  }

  lemma {:induction false} CheckSimilar(cfg: Config, t: Table, t': Table, keys: seq<Key>, now: int)
    requires Similar(cfg, t, t', now)
    ensures Similar(cfg, Checked(cfg, t, keys, now), Checked(cfg, t', keys, now), now)
    ensures ActiveLock(cfg, t, keys, now) == ActiveLock(cfg, t', keys, now)
    decreases |keys|
  {
    if keys != [] {
      assert Live(cfg, t, keys[0], now) == Live(cfg, t', keys[0], now);
      var e := Current(cfg, t, keys[0], now);
      StoreSimilar(cfg, t, t', now, keys[0], e);
      CheckSimilar(cfg, t[keys[0] := e], t'[keys[0] := e], keys[1..], now);
    }
  }

  lemma {:induction false} RecordSimilar(cfg: Config, t: Table, t': Table, keys: seq<Key>, now: int)
    requires Similar(cfg, t, t', now)
    ensures Similar(cfg, Recorded(cfg, t, keys, now), Recorded(cfg, t', keys, now), now)
    decreases |keys|
  {
    if keys != [] {
      assert Live(cfg, t, keys[0], now) == Live(cfg, t', keys[0], now);
      var e := Bumped(cfg, Current(cfg, t, keys[0], now), now);
      StoreSimilar(cfg, t, t', now, keys[0], e);
      RecordSimilar(cfg, t[keys[0] := e], t'[keys[0] := e], keys[1..], now);
    }
  }

  lemma ClearSimilar(cfg: Config, t: Table, t': Table, keys: seq<Key>, now: int)
    requires Similar(cfg, t, t', now)
    ensures Similar(cfg, Cleared(t, keys), Cleared(t', keys), now)
  {
    forall q ensures Live(cfg, Cleared(t, keys), q, now) == Live(cfg, Cleared(t', keys), q, now) {
      assert Live(cfg, t, q, now) == Live(cfg, t', q, now);
    }
  }

  lemma SweepSimilar(cfg: Config, t: Table, t': Table, now: int)
    requires Similar(cfg, t, t', now)
    ensures Similar(cfg, Swept(cfg, t, now), t', now)
  {
    forall q ensures Live(cfg, Swept(cfg, t, now), q, now) == Live(cfg, t', q, now) {
      assert Live(cfg, t, q, now) == Live(cfg, t', q, now);
    }
  }

  lemma SimilarLater(cfg: Config, t: Table, t': Table, now: int, later: int)
    requires Similar(cfg, t, t', now) && now <= later
    ensures Similar(cfg, t, t', later)
  {
    forall q ensures Live(cfg, t, q, later) == Live(cfg, t', q, later) {
      assert Live(cfg, t, q, now) == Live(cfg, t', q, now);
    }
  }

  lemma AttemptSimilar(cfg: Config, t: Table, t': Table, e: Event)
    requires e.Attempt? && Similar(cfg, t, t', e.at)
    ensures AnswerTo(cfg, t, e) == AnswerTo(cfg, t', e) && Similar(cfg, After(cfg, t, e), After(cfg, t', e), e.at)
  {
    var keys := Keys(cfg, e.email, e.ip);
    CheckSimilar(cfg, t, t', keys, e.at);
    match AnswerTo(cfg, t, e)
    case Throttled(_) =>
    case Welcome => ClearSimilar(cfg, Checked(cfg, t, keys, e.at), Checked(cfg, t', keys, e.at), keys, e.at);
    case Rejected => RecordSimilar(cfg, Checked(cfg, t, keys, e.at), Checked(cfg, t', keys, e.at), keys, e.at);
  }

  function TableAfter(cfg: Config, t: Table, events: seq<Event>): Table
    decreases |events|
  {
    if events == [] then t else TableAfter(cfg, After(cfg, t, events[0]), events[1..])
  }

  /** A run answers each attempt, and no sweep, by the table its past has left. */
  lemma {:induction false} AnswersGoOn(cfg: Config, t: Table, events: seq<Event>, e: Event)
    ensures Answers(cfg, t, events + [e])
         == Answers(cfg, t, events) + if e.Attempt? then [AnswerTo(cfg, TableAfter(cfg, t, events), e)] else []
    decreases |events|
  {
    if events == [] {
      assert [e][1..] == [] && events + [e] == [e];
      assert Answers(cfg, After(cfg, t, e), []) == [];
    } else {
      assert (events + [e])[1..] == events[1..] + [e];
      AnswersGoOn(cfg, After(cfg, t, events[0]), events[1..], e);
    }
  }

  /** The attempts of a run. */
  function WithoutSweeps(events: seq<Event>): seq<Event> {
    if events == [] then [] else (if events[0].Sweep? then [] else [events[0]]) + WithoutSweeps(events[1..])
  }

  /** Sweeps change no answer: any run answers as the same run without them. */
  lemma SweepIsInvisible(cfg: Config, events: seq<Event>, start: int)
    requires InOrder(events, start)
    ensures Answers(cfg, map[], events) == Answers(cfg, map[], WithoutSweeps(events))
  {
    SimilarRunsAgree(cfg, map[], map[], events, start);
  }

  lemma {:induction false} SimilarRunsAgree(cfg: Config, t: Table, t': Table, events: seq<Event>, now: int)
    requires InOrder(events, now) && Similar(cfg, t, t', now)
    ensures Answers(cfg, t, events) == Answers(cfg, t', WithoutSweeps(events))
    decreases |events|
  {
    if events != [] {
      var e := events[0];
      SimilarLater(cfg, t, t', now, e.at);
      forall i | 0 <= i < |events| - 1 ensures e.at <= events[1..][i].at { assert events[1..][i] == events[i + 1]; }
      if e.Sweep? {
        SweepSimilar(cfg, t, t', e.at);
        SimilarRunsAgree(cfg, After(cfg, t, e), t', events[1..], e.at);
        assert WithoutSweeps(events) == WithoutSweeps(events[1..]);
      } else {
        AttemptSimilar(cfg, t, t', e);
        SimilarRunsAgree(cfg, After(cfg, t, e), After(cfg, t', e), events[1..], e.at);
        assert WithoutSweeps(events)[1..] == WithoutSweeps(events[1..]);
      }
    }
  }
}
