/**
 The most failures that the login throttle lets through in a window's length: attacks that reach its
 bound.  They fail from one new address after another, after a prelude that starts a window of the e-mail
 without recording a failure in it.
 */
module ThrottleWorstCase {
  import opened Wrappers
  import opened LoginThrottle

  /** The e-mail under attack. */
  const TARGET: Key := ByEmail(0)

  function Shot(ip: Ip, at: int): Event {
    Attempt(0, ip, false, at)
  }

  /** Failures from one address after another. */
  function Volley(n: nat, ip: Ip, at: int, step: nat): seq<Event> {
    if n == 0 then [] else [Shot(ip, at)] + Volley(n - 1, ip + 1, at + step, step)
  }

  /** The same failure again and again, at one instant. */
  function Repeated(n: nat, e: Event): seq<Event> {
    if n == 0 then [] else [e] + Repeated(n - 1, e)
  }

  /** No key of an address from `ip` on has an entry. */
  ghost predicate FreshFrom(t: Table, ip: Ip) {
    forall i: Ip | ip <= i :: ByEmailIp(0, i) !in t && ByIp(i) !in t
  }

  // ---------------------------------------------------------------------------------------------
  // Runs in parts
  // ---------------------------------------------------------------------------------------------

  function Through(cfg: Config, t: Table, events: seq<Event>): Table
    decreases |events|
  {
    if events == [] then t else Through(cfg, After(cfg, t, events[0]), events[1..])
  }

  lemma {:induction false} ThroughAppend(cfg: Config, t: Table, a: seq<Event>, b: seq<Event>)
    ensures Through(cfg, t, a + b) == Through(cfg, Through(cfg, t, a), b)
    decreases |a|
  {
    if a == [] {
      assert a + b == b;
    } else {
      assert (a + b)[1..] == a[1..] + b;
      ThroughAppend(cfg, After(cfg, t, a[0]), a[1..], b);
    }
  }

  lemma MarksCons(cfg: Config, t: Table, events: seq<Event>, k: Key)
    requires events != []
    ensures Marks(cfg, t, events, k)
         == MarkOf(cfg, t, events[0], k) + Marks(cfg, After(cfg, t, events[0]), events[1..], k)
  {
  }

  lemma ThreeParts(x: seq<Mark>, y: seq<Mark>, z: seq<Mark>)
    ensures x + (y + z) == x + y + z
  {
  }

  lemma {:induction false} MarksAppend(cfg: Config, t: Table, a: seq<Event>, b: seq<Event>, k: Key)
    ensures Marks(cfg, t, a + b, k) == Marks(cfg, t, a, k) + Marks(cfg, Through(cfg, t, a), b, k)
    decreases |a|
  {
    if a == [] {
      assert a + b == b;
    } else {
      var t1 := After(cfg, t, a[0]);
      assert (a + b)[1..] == a[1..] + b;
      MarksCons(cfg, t, a + b, k);
      MarksCons(cfg, t, a, k);
      MarksAppend(cfg, t1, a[1..], b, k);
      ThreeParts(MarkOf(cfg, t, a[0], k), Marks(cfg, t1, a[1..], k), Marks(cfg, Through(cfg, t, a), b, k));
    }
  }

  lemma {:induction false} CountAppend(a: seq<Mark>, b: seq<Mark>, lo: int, hi: int)
    ensures CountWithin(a + b, lo, hi) == CountWithin(a, lo, hi) + CountWithin(b, lo, hi)
  {
    if b == [] {
      assert a + b == a;
    } else {
      assert (a + b)[..|a + b| - 1] == a + b[..|b| - 1];
      CountAppend(a, b[..|b| - 1], lo, hi);
    }
  }

  /** The failures of a run within an interval. */
  function Failures(cfg: Config, t: Table, events: seq<Event>, lo: int, hi: int): nat {
    CountWithin(Marks(cfg, t, events, TARGET), lo, hi)
  }

  lemma FailuresAppend(cfg: Config, t: Table, a: seq<Event>, b: seq<Event>, lo: int, hi: int)
    ensures Failures(cfg, t, a + b, lo, hi)
         == Failures(cfg, t, a, lo, hi) + Failures(cfg, Through(cfg, t, a), b, lo, hi)
    ensures Through(cfg, t, a + b) == Through(cfg, Through(cfg, t, a), b)
  {
    ThroughAppend(cfg, t, a, b);
    MarksAppend(cfg, t, a, b, TARGET);
    CountAppend(Marks(cfg, t, a, TARGET), Marks(cfg, Through(cfg, t, a), b, TARGET), lo, hi);
  }

  /** A failure that is recorded for the target counts once. */
  lemma FailuresOne(cfg: Config, t: Table, e: Event, rest: seq<Event>, lo: int, hi: int)
    requires Records(cfg, t, e, TARGET) && lo <= e.at <= hi
    ensures Failures(cfg, t, [e] + rest, lo, hi) == 1 + Failures(cfg, After(cfg, t, e), rest, lo, hi)
  {
    var m := Mark(e.at, Current(cfg, t, TARGET, e.at).windowStartedAt);
    assert ([e] + rest)[1..] == rest;
    assert CountWithin([m], lo, hi) == 1 by { assert [m][..0] == []; }
    CountAppend([m], Marks(cfg, After(cfg, t, e), rest, TARGET), lo, hi);
  }

  lemma ThroughOne(cfg: Config, t: Table, e: Event, rest: seq<Event>)
    ensures Through(cfg, t, [e] + rest) == Through(cfg, After(cfg, t, e), rest)
  {
    assert ([e] + rest)[1..] == rest;
  }

  // ---------------------------------------------------------------------------------------------
  // One attempt
  // ---------------------------------------------------------------------------------------------

  /** An attempt none of whose keys is locked is let through to the password. */
  lemma {:induction false} NoneLocked(cfg: Config, t: Table, keys: seq<Key>, now: int)
    requires Distinct(keys) && forall k | k in keys :: !Locks(Current(cfg, t, k, now), now)
    ensures ActiveLock(cfg, t, keys, now).None?
    decreases |keys|
  {
    if keys != [] {
      var t' := t[keys[0] := Current(cfg, t, keys[0], now)];
      assert keys[0] in keys;
      forall k | k in keys[1..] ensures !Locks(Current(cfg, t', k, now), now) {
        assert k in keys && Current(cfg, t', k, now) == Current(cfg, t, k, now);
      }
      NoneLocked(cfg, t', keys[1..], now);
    }
  }

  /** A failure with no key locked is recorded for each of them, and touches no other. */
  lemma FailureLands(cfg: Config, t: Table, e: Event, k: Key)
    requires e.Attempt? && !e.valid
    requires forall q | q in Keys(cfg, e.email, e.ip) :: !Locks(Current(cfg, t, q, e.at), e.at)
    ensures AnswerTo(cfg, t, e) == Rejected
    ensures var t' := After(cfg, t, e);
            if k in Keys(cfg, e.email, e.ip) then k in t' && t'[k] == Bumped(cfg, Current(cfg, t, k, e.at), e.at)
            else (k in t' <==> k in t) && (k in t ==> t'[k] == t[k])
  {
    var keys := Keys(cfg, e.email, e.ip);
    NoneLocked(cfg, t, keys, e.at);
    CheckedAt(cfg, t, keys, e.at, k);
    CheckedElsewhere(cfg, t, keys, e.at, k);
    RecordedAt(cfg, Checked(cfg, t, keys, e.at), keys, e.at, k);
  }

  /** A failure of the target from a new address: only the e-mail's own entry could lock it out. */
  lemma ShotLands(cfg: Config, t: Table, ip: Ip, at: int)
    requires FreshFrom(t, ip) && !Locks(Current(cfg, t, TARGET, at), at)
    ensures Records(cfg, t, Shot(ip, at), TARGET)
    ensures var t' := After(cfg, t, Shot(ip, at));
            && TARGET in t' && t'[TARGET] == Bumped(cfg, Current(cfg, t, TARGET, at), at)
            && FreshFrom(t', ip + 1)
  {
    var e := Shot(ip, at);
    FailureLands(cfg, t, e, TARGET);
    forall i: Ip | ip + 1 <= i
      ensures ByEmailIp(0, i) !in After(cfg, t, e) && ByIp(i) !in After(cfg, t, e)
    {
      FailureLands(cfg, t, e, ByEmailIp(0, i));
      FailureLands(cfg, t, e, ByIp(i));
    }
  }

  // ---------------------------------------------------------------------------------------------
  // Volleys
  // ---------------------------------------------------------------------------------------------

  /** An entry after `n` more failures at one instant, which it has room for. */
  function Filled(cfg: Config, e: Entry, n: nat, at: int): Entry {
    if n == 0 then e
    else Entry(e.count + n, e.windowStartedAt, if e.count + n >= cfg.maxFailures then Some(at + cfg.lockMs) else None)
  }

  predicate HasRoom(cfg: Config, e: Entry, n: nat) {
    e.count + n <= cfg.maxFailures && (n > 0 ==> e.lockUntil.None?)
  }

  lemma FilledOne(cfg: Config, e: Entry, n: nat, at: int)
    requires n > 0 && HasRoom(cfg, e, n)
    ensures HasRoom(cfg, Bumped(cfg, e, at), n - 1)
    ensures Filled(cfg, Bumped(cfg, e, at), n - 1, at) == Filled(cfg, e, n, at)
  {
  }

  /** An entry that was just written is the one an access finds. */
  lemma StaysCurrent(cfg: Config, t: Table, k: Key, at: int, e: Entry)
    requires k in t && t[k] == e && at - e.windowStartedAt <= cfg.windowMs
    ensures Current(cfg, t, k, at) == e
  {
  }

  lemma {:induction false} FillVolley(cfg: Config, t: Table, n: nat, ip: Ip, at: int, lo: int, hi: int)
    requires Proper(cfg) && FreshFrom(t, ip) && HasRoom(cfg, Current(cfg, t, TARGET, at), n) && lo <= at <= hi
    ensures Failures(cfg, t, Volley(n, ip, at, 0), lo, hi) == n
    ensures var t' := Through(cfg, t, Volley(n, ip, at, 0));
            FreshFrom(t', ip + n) && Current(cfg, t', TARGET, at) == Filled(cfg, Current(cfg, t, TARGET, at), n, at)
    decreases n
  {
    if n > 0 {
      var e := Current(cfg, t, TARGET, at);
      var t1 := After(cfg, t, Shot(ip, at));
      ShotLands(cfg, t, ip, at);
      StaysCurrent(cfg, t1, TARGET, at, Bumped(cfg, e, at));
      FilledOne(cfg, e, n, at);
      FillVolley(cfg, t1, n - 1, ip + 1, at, lo, hi);
      FailuresOne(cfg, t, Shot(ip, at), Volley(n - 1, ip + 1, at, 0), lo, hi);
      ThroughOne(cfg, t, Shot(ip, at), Volley(n - 1, ip + 1, at, 0));
    }
  }

  /** The last instant of a volley, one lock after another. */
  function LastShot(cfg: Config, n: nat, at: int): (last: int)
    ensures last >= at
  {
    if n <= 1 then at else LastShot(cfg, n - 1, at + cfg.lockMs)
  }

  lemma {:induction false} LastShotAt(cfg: Config, n: nat, at: int)
    requires n > 0
    ensures LastShot(cfg, n, at) == at + (n - 1) * cfg.lockMs
    decreases n
  {
    if n > 1 {
      LastShotAt(cfg, n - 1, at + cfg.lockMs);
      OneMoreTimes(n - 1, cfg.lockMs);
    }
  }

  /** In a full window, failures get through one lock apart. */
  lemma {:induction false} LockVolley(cfg: Config, t: Table, n: nat, ip: Ip, at: int, lo: int, hi: int)
    requires Proper(cfg) && FreshFrom(t, ip) && TARGET in t && t[TARGET].count >= cfg.maxFailures
    requires t[TARGET].windowStartedAt <= at && lo <= at && !Locks(t[TARGET], at)
    requires n > 0 ==> LastShot(cfg, n, at) <= hi
    requires n > 0 ==> LastShot(cfg, n, at) <= t[TARGET].windowStartedAt + cfg.windowMs
    ensures Failures(cfg, t, Volley(n, ip, at, cfg.lockMs), lo, hi) == n
    decreases n
  {
    if n > 0 {
      StaysCurrent(cfg, t, TARGET, at, t[TARGET]);
      ShotLands(cfg, t, ip, at);
      LockVolley(cfg, After(cfg, t, Shot(ip, at)), n - 1, ip + 1, at + cfg.lockMs, lo, hi);
      FailuresOne(cfg, t, Shot(ip, at), Volley(n - 1, ip + 1, at + cfg.lockMs, cfg.lockMs), lo, hi);
    }
  }

  // ---------------------------------------------------------------------------------------------
  // The attack
  // ---------------------------------------------------------------------------------------------

  /** Fill a window at its last instant and the next one at its first, then go on lock by lock. */
  function Attack(cfg: Config, s: int, ip: Ip): seq<Event>
    requires Proper(cfg) && cfg.lockMs > 0
  {
    var m := cfg.maxFailures;
    Volley(m, ip, s + cfg.windowMs, 0)
    + (Volley(m, ip + m, s + cfg.windowMs + 1, 0)
       + Volley(LocksThatFit(cfg), ip + m + m, s + cfg.windowMs + 1 + cfg.lockMs, cfg.lockMs))
  }

  lemma FitsWithin(cfg: Config)
    requires Proper(cfg) && cfg.lockMs > 0
    ensures LocksThatFit(cfg) * cfg.lockMs < cfg.windowMs
  {
    var q, r := (cfg.windowMs - 1) / cfg.lockMs, (cfg.windowMs - 1) % cfg.lockMs;
    assert q * cfg.lockMs + r == cfg.windowMs - 1;
  }

  /** The second window of the attack. */
  lemma SecondWindow(cfg: Config, t: Table, s: int, ip: Ip)
    requires Proper(cfg) && cfg.lockMs > 0 && FreshFrom(t, ip)
    requires Current(cfg, t, TARGET, s) == Entry(0, s, None)
    ensures var volleys := Volley(cfg.maxFailures, ip, s, 0)
                           + Volley(LocksThatFit(cfg), ip + cfg.maxFailures, s + cfg.lockMs, cfg.lockMs);
            Failures(cfg, t, volleys, s - 1, s - 1 + cfg.windowMs) == cfg.maxFailures + LocksThatFit(cfg)
  {
    var m, n := cfg.maxFailures, LocksThatFit(cfg);
    var lo, hi := s - 1, s - 1 + cfg.windowMs;
    FillVolley(cfg, t, m, ip, s, lo, hi);
    var t1 := Through(cfg, t, Volley(m, ip, s, 0));
    assert Current(cfg, t1, TARGET, s) == Entry(m, s, Some(s + cfg.lockMs));
    assert TARGET in t1 && t1[TARGET] == Entry(m, s, Some(s + cfg.lockMs));
    FitsWithin(cfg);
    if n > 0 {
      OneMoreTimes(n, cfg.lockMs);
      LastShotAt(cfg, n, s + cfg.lockMs);
    }
    LockVolley(cfg, t1, n, ip + m, s + cfg.lockMs, lo, hi);
    FailuresAppend(cfg, t, Volley(m, ip, s, 0), Volley(n, ip + m, s + cfg.lockMs, cfg.lockMs), lo, hi);
  }

  /** From a window that has begun without a failure, the attack reaches the bound. */
  lemma AttackReaches(cfg: Config, t: Table, s: int, ip: Ip)
    requires Proper(cfg) && cfg.lockMs > 0 && FreshFrom(t, ip) && TARGET in t && t[TARGET] == Entry(0, s, None)
    ensures Failures(cfg, t, Attack(cfg, s, ip), s + cfg.windowMs, s + cfg.windowMs + cfg.windowMs) == MostFailures(cfg)
  {
    var m, last := cfg.maxFailures, s + cfg.windowMs;
    var first := Volley(m, ip, last, 0);
    StaysCurrent(cfg, t, TARGET, last, Entry(0, s, None));
    FillVolley(cfg, t, m, ip, last, last, last + cfg.windowMs);
    var t1 := Through(cfg, t, first);
    assert Current(cfg, t1, TARGET, last + 1) == Entry(0, last + 1, None) by {
      assert Current(cfg, t1, TARGET, last).windowStartedAt == s;
    }
    SecondWindow(cfg, t1, last + 1, ip + m);
    FailuresAppend(cfg, t, first, Attack(cfg, s, ip)[|first|..], last, last + cfg.windowMs);
    assert Attack(cfg, s, ip) == first + Attack(cfg, s, ip)[|first|..];
  }

  // ---------------------------------------------------------------------------------------------
  // Preludes: a window of the target that begins without a failure
  // ---------------------------------------------------------------------------------------------

  lemma {:induction false} RepeatLands(cfg: Config, t: Table, n: nat, e: Event, k: Key)
    requires Proper(cfg) && e.Attempt? && !e.valid
    requires forall q | q in Keys(cfg, e.email, e.ip) :: HasRoom(cfg, Current(cfg, t, q, e.at), n)
    ensures var t' := Through(cfg, t, Repeated(n, e));
            if n > 0 && k in Keys(cfg, e.email, e.ip)
            then k in t' && t'[k] == Filled(cfg, Current(cfg, t, k, e.at), n, e.at)
            else (k in t' <==> k in t) && (k in t ==> t'[k] == t[k])
    decreases n
  {
    if n > 0 {
      var t1 := After(cfg, t, e);
      forall q | q in Keys(cfg, e.email, e.ip)
        ensures q in t1 && Current(cfg, t1, q, e.at) == t1[q] == Bumped(cfg, Current(cfg, t, q, e.at), e.at)
        ensures HasRoom(cfg, Current(cfg, t1, q, e.at), n - 1)
      {
        FailureLands(cfg, t, e, q);
        FilledOne(cfg, Current(cfg, t, q, e.at), n, e.at);
      }
      FailureLands(cfg, t, e, k);
      RepeatLands(cfg, t1, n - 1, e, k);
      ThroughOne(cfg, t, e, Repeated(n - 1, e));
      if k in Keys(cfg, e.email, e.ip) { FilledOne(cfg, Current(cfg, t, k, e.at), n, e.at); }
    }
  }

  /** An attempt that another key locks out begins the target's window if that is over. */
  lemma LockedOutBegins(cfg: Config, t: Table, ip: Ip, at: int, lock: Key)
    requires lock in Keys(cfg, 0, ip) && lock != TARGET && Locks(Current(cfg, t, lock, at), at)
    requires Current(cfg, t, TARGET, at) == Entry(0, at, None)
    ensures var t' := After(cfg, t, Shot(ip, at));
            && TARGET in t' && t'[TARGET] == Entry(0, at, None)
            && forall k | k !in Keys(cfg, 0, ip) :: (k in t' <==> k in t)
  {
    var keys := Keys(cfg, 0, ip);
    var t1 := t[TARGET := Entry(0, at, None)];
    assert keys[0] == TARGET && lock in keys[1..];
    assert Current(cfg, t1, lock, at) == Current(cfg, t, lock, at);
    SomeLocked(cfg, t1, keys[1..], at, lock);
    assert AnswerTo(cfg, t, Shot(ip, at)).Throttled?;
    assert After(cfg, t, Shot(ip, at)) == Checked(cfg, t1, keys[1..], at);
    CheckedElsewhere(cfg, t1, keys[1..], at, TARGET);
    forall k | k !in keys ensures k in After(cfg, t, Shot(ip, at)) <==> k in t {
      CheckedElsewhere(cfg, t1, keys[1..], at, k);
    }
  }

  lemma {:induction false} SomeLocked(cfg: Config, t: Table, keys: seq<Key>, now: int, lock: Key)
    requires lock in keys && Locks(Current(cfg, t, lock, now), now)
    ensures ActiveLock(cfg, t, keys, now).Some?
    decreases |keys|
  {
    if lock != keys[0] {
      var t' := t[keys[0] := Current(cfg, t, keys[0], now)];
      assert Current(cfg, t', lock, now) == Current(cfg, t, lock, now);
      SomeLocked(cfg, t', keys[1..], now, lock);
    }
  }

  /** With locks by address: fill the address's window on another e-mail, then try the target from it. */
  function AddressPrelude(cfg: Config): seq<Event> {
    Repeated(cfg.maxFailures, Attempt(1, 0, false, 0)) + [Shot(0, 0)]
  }

  lemma AddressFills(cfg: Config)
    requires Proper(cfg) && cfg.production
    ensures var t := Through(cfg, map[], Repeated(cfg.maxFailures, Attempt(1, 0, false, 0)));
            && ByIp(0) in t && t[ByIp(0)] == Entry(cfg.maxFailures, 0, Some(cfg.lockMs))
            && forall k | k in t :: k in Keys(cfg, 1, 0)
  {
    var e := Attempt(1, 0, false, 0);
    RepeatLands(cfg, map[], cfg.maxFailures, e, ByIp(0));
    forall k | k in Through(cfg, map[], Repeated(cfg.maxFailures, e)) ensures k in Keys(cfg, 1, 0) {
      RepeatLands(cfg, map[], cfg.maxFailures, e, k);
    }
  }

  lemma AddressPreludeBegins(cfg: Config)
    requires Proper(cfg) && cfg.production && cfg.lockMs > 0
    ensures var t := Through(cfg, map[], AddressPrelude(cfg));
            TARGET in t && t[TARGET] == Entry(0, 0, None) && FreshFrom(t, 1)
  {
    var fill := Repeated(cfg.maxFailures, Attempt(1, 0, false, 0));
    var t1 := Through(cfg, map[], fill);
    AddressFills(cfg);
    ThroughAppend(cfg, map[], fill, [Shot(0, 0)]);
    ThroughOne(cfg, t1, Shot(0, 0), []);
    assert [Shot(0, 0)] + [] == [Shot(0, 0)];
    LockedOutBegins(cfg, t1, 0, 0, ByIp(0));
  }

  /** Without: let the target's window run out while one address is still locked from a later window. */
  function PairPrelude(cfg: Config): seq<Event>
    requires Proper(cfg)
  {
    [Shot(0, 0)] + (Repeated(cfg.maxFailures - 1, Shot(1, 1)) + ([Shot(1, cfg.windowMs)] + [Shot(1, cfg.windowMs + 1)]))
  }

  /** Up to the failure before the last. */
  lemma PairFills(cfg: Config)
    requires Proper(cfg) && !cfg.production && cfg.maxFailures > 1
    ensures var t := Through(cfg, After(cfg, map[], Shot(0, 0)), Repeated(cfg.maxFailures - 1, Shot(1, 1)));
            && TARGET in t && t[TARGET] == Entry(cfg.maxFailures, 0, Some(1 + cfg.lockMs))
            && ByEmailIp(0, 1) in t && t[ByEmailIp(0, 1)] == Entry(cfg.maxFailures - 1, 1, None)
            && FreshFrom(t, 2)
  {
    var n, e, pair := cfg.maxFailures - 1, Shot(1, 1), ByEmailIp(0, 1);
    ShotLands(cfg, map[], 0, 0);
    var t1 := After(cfg, map[], Shot(0, 0));
    assert Current(cfg, t1, TARGET, 1) == Entry(1, 0, None) && Current(cfg, t1, pair, 1) == Entry(0, 1, None);
    RepeatLands(cfg, t1, n, e, TARGET);
    RepeatLands(cfg, t1, n, e, pair);
    var t := Through(cfg, t1, Repeated(n, e));
    forall i: Ip | 2 <= i ensures ByEmailIp(0, i) !in t && ByIp(i) !in t {
      RepeatLands(cfg, t1, n, e, ByEmailIp(0, i));
      RepeatLands(cfg, t1, n, e, ByIp(i));
    }
  }

  /** The last failure, and the attempt that it locks out. */
  lemma PairBegins(cfg: Config, t: Table)
    requires Proper(cfg) && !cfg.production && 1 < cfg.lockMs < cfg.windowMs
    requires TARGET in t && t[TARGET] == Entry(cfg.maxFailures, 0, Some(1 + cfg.lockMs)) && FreshFrom(t, 2)
    requires ByEmailIp(0, 1) in t && t[ByEmailIp(0, 1)] == Entry(cfg.maxFailures - 1, 1, None)
    ensures var t' := Through(cfg, t, [Shot(1, cfg.windowMs)] + [Shot(1, cfg.windowMs + 1)]);
            TARGET in t' && t'[TARGET] == Entry(0, cfg.windowMs + 1, None) && FreshFrom(t', 2)
  {
    var last, pair := Shot(1, cfg.windowMs), ByEmailIp(0, 1);
    FailureLands(cfg, t, last, TARGET);
    FailureLands(cfg, t, last, pair);
    var t1 := After(cfg, t, last);
    assert t1[pair] == Entry(cfg.maxFailures, 1, Some(cfg.windowMs + cfg.lockMs));
    assert t1[TARGET].windowStartedAt == 0;
    LockedOutBegins(cfg, t1, 1, cfg.windowMs + 1, pair);
    ThroughOne(cfg, t, last, [Shot(1, cfg.windowMs + 1)]);
    ThroughOne(cfg, t1, Shot(1, cfg.windowMs + 1), []);
    assert [Shot(1, cfg.windowMs + 1)] + [] == [Shot(1, cfg.windowMs + 1)];
    var t2 := After(cfg, t1, Shot(1, cfg.windowMs + 1));
    forall i: Ip | 2 <= i ensures ByEmailIp(0, i) !in t2 && ByIp(i) !in t2 {
      FailureLands(cfg, t, last, ByEmailIp(0, i));
      FailureLands(cfg, t, last, ByIp(i));
    }
  }

  lemma PairPreludeBegins(cfg: Config)
    requires Proper(cfg) && !cfg.production && cfg.maxFailures > 1 && 1 < cfg.lockMs < cfg.windowMs
    ensures var t := Through(cfg, map[], PairPrelude(cfg));
            TARGET in t && t[TARGET] == Entry(0, cfg.windowMs + 1, None) && FreshFrom(t, 2)
  {
    var fill := Repeated(cfg.maxFailures - 1, Shot(1, 1));
    var end := [Shot(1, cfg.windowMs)] + [Shot(1, cfg.windowMs + 1)];
    var t1 := After(cfg, map[], Shot(0, 0));
    ThroughOne(cfg, map[], Shot(0, 0), fill + end);
    ThroughAppend(cfg, t1, fill, end);
    PairFills(cfg);
    PairBegins(cfg, Through(cfg, t1, fill));
  }

  // ---------------------------------------------------------------------------------------------
  // The runs are runs
  // ---------------------------------------------------------------------------------------------

  predicate NoneValid(events: seq<Event>) {
    forall e | e in events :: e.Attempt? && !e.valid
  }

  lemma {:induction false} InvalidNeverSucceeds(cfg: Config, t: Table, events: seq<Event>, k: Key)
    requires NoneValid(events)
    ensures NoSuccess(cfg, t, events, k)
    decreases |events|
  {
    if events != [] {
      assert events[0] in events;
      InvalidNeverSucceeds(cfg, After(cfg, t, events[0]), events[1..], k);
    }
  }

  /** Failures in order of time, within bounds. */
  ghost predicate Ordered(events: seq<Event>, lo: int, hi: int) {
    && NoneValid(events)
    && (forall i | 0 <= i < |events| :: lo <= events[i].at <= hi)
    && (forall i, j | 0 <= i < j < |events| :: events[i].at <= events[j].at)
  }

  lemma OrderedAppend(a: seq<Event>, b: seq<Event>, lo: int, mid: int, mid': int, hi: int)
    requires Ordered(a, lo, mid) && Ordered(b, mid', hi) && lo <= mid <= mid' <= hi
    ensures Ordered(a + b, lo, hi)
  {
  }

  lemma {:induction false} RepeatedOrdered(n: nat, e: Event)
    requires e.Attempt? && !e.valid
    ensures Ordered(Repeated(n, e), e.at, e.at)
  {
    if n > 0 {
      RepeatedOrdered(n - 1, e);
      OrderedAppend([e], Repeated(n - 1, e), e.at, e.at, e.at, e.at);
    }
  }

  lemma {:induction false} VolleyOrdered(n: nat, ip: Ip, at: int, step: nat)
    ensures n * step >= 0 && Ordered(Volley(n, ip, at, step), at, at + n * step)
    decreases n
  {
    if n > 0 {
      OneMoreTimes(n, step);
      VolleyOrdered(n - 1, ip + 1, at + step, step);
      OrderedAppend([Shot(ip, at)], Volley(n - 1, ip + 1, at + step, step), at, at, at + step, at + n * step);
    }
  }

  lemma AttackOrdered(cfg: Config, s: int, ip: Ip) returns (hi: int)
    requires Proper(cfg) && cfg.lockMs > 0
    ensures s + cfg.windowMs <= hi && Ordered(Attack(cfg, s, ip), s + cfg.windowMs, hi)
  {
    var m, n, last, d := cfg.maxFailures, LocksThatFit(cfg), s + cfg.windowMs, cfg.lockMs;
    VolleyOrdered(m, ip, last, 0);
    VolleyOrdered(m, ip + m, last + 1, 0);
    VolleyOrdered(n, ip + m + m, last + 1 + d, d);
    hi := last + 1 + d + n * d;
    OrderedAppend(Volley(m, ip + m, last + 1, 0), Volley(n, ip + m + m, last + 1 + d, d), last + 1, last + 1,
                  last + 1 + d, hi);
    OrderedAppend(Volley(m, ip, last, 0),
                  Volley(m, ip + m, last + 1, 0) + Volley(n, ip + m + m, last + 1 + d, d), last, last, last + 1, hi);
  }

  // ---------------------------------------------------------------------------------------------
  // Main results
  // ---------------------------------------------------------------------------------------------

  /** Locks by address, or at least two failures and a lock between two milliseconds and a window. */
  predicate Attackable(cfg: Config) {
    cfg.production || (cfg.maxFailures > 1 && 1 < cfg.lockMs < cfg.windowMs)
  }

  /** A run of failures for the target from the empty table. */
  ghost predicate IsRun(cfg: Config, events: seq<Event>, start: int) {
    InOrder(events, start) && NoSuccess(cfg, map[], events, TARGET)
  }

  /** The failures of a run within a window's length from an instant on. */
  ghost function FailuresFrom(cfg: Config, events: seq<Event>, x: int): nat {
    Failures(cfg, map[], events, x, x + cfg.windowMs)
  }

  lemma PreludeThenAttack(cfg: Config, prelude: seq<Event>, s: int, ip: Ip) returns (events: seq<Event>)
    requires Proper(cfg) && cfg.lockMs > 0 && s >= 0 && Ordered(prelude, 0, s)
    requires var t := Through(cfg, map[], prelude);
             TARGET in t && t[TARGET] == Entry(0, s, None) && FreshFrom(t, ip)
    ensures IsRun(cfg, events, 0)
    ensures FailuresFrom(cfg, events, s + cfg.windowMs) == MostFailures(cfg)
  {
    var attack := Attack(cfg, s, ip);
    var lo := s + cfg.windowMs;
    events := prelude + attack;
    var hi := AttackOrdered(cfg, s, ip);
    OrderedAppend(prelude, attack, 0, s, lo, hi);
    InvalidNeverSucceeds(cfg, map[], events, TARGET);
    AttackReaches(cfg, Through(cfg, map[], prelude), s, ip);
    FailuresAppend(cfg, map[], prelude, attack, lo, lo + cfg.windowMs);
    FailuresAreBounded(cfg, events, TARGET, 0, lo);
  }

  /** The bound is exact: a run reaches it. */
  lemma BoundIsReached(cfg: Config) returns (events: seq<Event>, x: int)
    requires Proper(cfg) && cfg.lockMs > 0 && Attackable(cfg)
    ensures IsRun(cfg, events, 0) && FailuresFrom(cfg, events, x) == MostFailures(cfg)
  {
    if cfg.production {
      AddressPreludeBegins(cfg);
      RepeatedOrdered(cfg.maxFailures, Attempt(1, 0, false, 0));
      OrderedAppend(Repeated(cfg.maxFailures, Attempt(1, 0, false, 0)), [Shot(0, 0)], 0, 0, 0, 0);
      events := PreludeThenAttack(cfg, AddressPrelude(cfg), 0, 1);
      x := cfg.windowMs;
    } else {
      PairPreludeBegins(cfg);
      PairPreludeOrdered(cfg);
      events := PreludeThenAttack(cfg, PairPrelude(cfg), cfg.windowMs + 1, 2);
      x := cfg.windowMs + 1 + cfg.windowMs;
    }
  }

  lemma PairPreludeOrdered(cfg: Config)
    requires Proper(cfg)
    ensures Ordered(PairPrelude(cfg), 0, cfg.windowMs + 1)
  {
    var w := cfg.windowMs;
    var fill := Repeated(cfg.maxFailures - 1, Shot(1, 1));
    RepeatedOrdered(cfg.maxFailures - 1, Shot(1, 1));
    OrderedAppend([Shot(1, w)], [Shot(1, w + 1)], w, w, w + 1, w + 1);
    OrderedAppend(fill, [Shot(1, w)] + [Shot(1, w + 1)], 1, 1, w, w + 1);
    OrderedAppend([Shot(0, 0)], fill + ([Shot(1, w)] + [Shot(1, w + 1)]), 0, 0, 1, w + 1);
  }

  ghost predicate TwiceIsEnough(cfg: Config) {
    forall events, start, x | IsRun(cfg, events, start) :: FailuresFrom(cfg, events, x) <= 2 * cfg.maxFailures
  }

  /** Twice the maximum bounds every run exactly when the lock lasts as long as the window. */
  lemma TwiceIsEnoughIff(cfg: Config)
    requires Proper(cfg) && cfg.lockMs > 0 && (cfg.production || (cfg.maxFailures > 1 && cfg.lockMs > 1))
    ensures TwiceIsEnough(cfg) <==> cfg.lockMs >= cfg.windowMs
  {
    if cfg.lockMs >= cfg.windowMs {
      forall events, start, x | IsRun(cfg, events, start)
        ensures FailuresFrom(cfg, events, x) <= 2 * cfg.maxFailures
      {
        FailuresAreBounded(cfg, events, TARGET, start, x);
        NoLockFits(cfg);
      }
    } else {
      var events, x := BoundIsReached(cfg);
      AtMost(1, cfg.lockMs, cfg.windowMs - 1);
      assert FailuresFrom(cfg, events, x) > 2 * cfg.maxFailures;
    }
  }

  lemma NoLockFits(cfg: Config)
    requires Proper(cfg) && cfg.lockMs >= cfg.windowMs
    ensures LocksThatFit(cfg) == 0
  {
  }

  /** In production ten failures can fall within fifteen minutes, in development twenty-seven: as many as
      the bounds allow. */
  lemma RealWorstCases() returns (p: seq<Event>, x: int, d: seq<Event>, y: int)
    ensures IsRun(PRODUCTION, p, 0) && FailuresFrom(PRODUCTION, p, x) == 10
    ensures IsRun(DEVELOPMENT, d, 0) && FailuresFrom(DEVELOPMENT, d, y) == 27
  {
    p, x := BoundIsReached(PRODUCTION);
    d, y := BoundIsReached(DEVELOPMENT);
  }

  // Attempts that overlap: the check and the record of one with those of others between them.

  function CheckedTimes(cfg: Config, t: Table, keys: seq<Key>, now: int, n: nat): Table {
    if n == 0 then t else Checked(cfg, CheckedTimes(cfg, t, keys, now, n - 1), keys, now)
  }

  function RecordedTimes(cfg: Config, t: Table, keys: seq<Key>, now: int, n: nat): Table {
    if n == 0 then t else Recorded(cfg, RecordedTimes(cfg, t, keys, now, n - 1), keys, now)
  }

  /** However often it is checked, a key is found as it was. */
  lemma {:induction false} ChecksChangeNothing(cfg: Config, t: Table, keys: seq<Key>, now: int, n: nat, k: Key)
    ensures Current(cfg, CheckedTimes(cfg, t, keys, now, n), k, now) == Current(cfg, t, k, now)
  {
    if n > 0 {
      ChecksChangeNothing(cfg, t, keys, now, n - 1, k);
      CheckedAt(cfg, CheckedTimes(cfg, t, keys, now, n - 1), keys, now, k);
    }
  }

  /** Locks do not keep recorded failures from counting. */
  lemma {:induction false} RecordsAdd(cfg: Config, t: Table, keys: seq<Key>, now: int, n: nat, k: Key)
    requires Distinct(keys) && k in keys
    ensures Current(cfg, RecordedTimes(cfg, t, keys, now, n), k, now).count == Current(cfg, t, k, now).count + n
  {
    if n > 0 {
      RecordsAdd(cfg, t, keys, now, n - 1, k);
      RecordedAt(cfg, RecordedTimes(cfg, t, keys, now, n - 1), keys, now, k);
    }
  }

  /** Any number of attempts gets through while none of them has recorded its failure: the lock is looked
      for before the password is, and the failure counted after it.  No lock length bounds them. */
  lemma OverlapHasNoBound(cfg: Config, email: Email, ip: Ip, now: int, n: nat)
    ensures var keys := Keys(cfg, email, ip);
            var checked := CheckedTimes(cfg, map[], keys, now, n);
            && (forall i: nat | i <= n :: ActiveLock(cfg, CheckedTimes(cfg, map[], keys, now, i), keys, now).None?)
            && forall k | k in keys :: Current(cfg, RecordedTimes(cfg, checked, keys, now, n), k, now).count == n
  {
    var keys := Keys(cfg, email, ip);
    forall i: nat | i <= n ensures ActiveLock(cfg, CheckedTimes(cfg, map[], keys, now, i), keys, now).None? {
      forall k | k in keys ensures !Locks(Current(cfg, CheckedTimes(cfg, map[], keys, now, i), k, now), now) {
        ChecksChangeNothing(cfg, map[], keys, now, i, k);
      }
      NoneLocked(cfg, CheckedTimes(cfg, map[], keys, now, i), keys, now);
    }
    forall k | k in keys
      ensures Current(cfg, RecordedTimes(cfg, CheckedTimes(cfg, map[], keys, now, n), keys, now, n), k, now).count == n
    {
      ChecksChangeNothing(cfg, map[], keys, now, n, k);
      RecordsAdd(cfg, CheckedTimes(cfg, map[], keys, now, n), keys, now, n, k);
    }
  }
}
