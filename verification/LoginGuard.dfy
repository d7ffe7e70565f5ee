/** The throttle's map as the login route and the timer change it. */
module LoginGuard {
  import opened Wrappers
  import opened LoginThrottle

  /** What an attempt is counted by: its e-mail, that with its address, and in production the address. */
  predicate IsKeyOf(cfg: Config, email: Email, ip: Ip, k: Key) {
    k == ByEmail(email) || k == ByEmailIp(email, ip) || (cfg.production && k == ByIp(ip))
  }

  /** The key's window has not run out, and its lock has not either. */
  predicate LockedOut(cfg: Config, t: Table, k: Key, now: int) {
    k in t && now <= t[k].windowStartedAt + cfg.windowMs && t[k].lockUntil.Some? && now < t[k].lockUntil.value
  }

  /** The entry of a failure: one more in a window that runs, or the first of a new one, with a lock from
      now on if the maximum is reached. */
  ghost predicate OneMoreFailure(cfg: Config, t: Table, k: Key, now: int, e: Entry) {
    if k in t && now <= t[k].windowStartedAt + cfg.windowMs then
      e == Entry(t[k].count + 1, t[k].windowStartedAt,
                 if cfg.maxFailures <= t[k].count + 1 then Some(now + cfg.lockMs) else t[k].lockUntil)
    else e == Entry(1, now, if cfg.maxFailures <= 1 then Some(now + cfg.lockMs) else None)
  }

  ghost predicate SameAt(t: Table, t': Table, k: Key) {
    (k in t' <==> k in t) && (k in t ==> t'[k] == t[k])
  }

  /** An entry that a check has read stays as it is, or starts anew if its window has run out. */
  ghost predicate OnlyRead(cfg: Config, t: Table, t': Table, k: Key, now: int) {
    || SameAt(t, t', k)
    || (k in t' && t'[k] == Entry(0, now, None) && (k in t ==> t[k].windowStartedAt + cfg.windowMs < now))
  }

  lemma {:induction false} ActiveLockIff(cfg: Config, t: Table, keys: seq<Key>, now: int)
    ensures var lock := ActiveLock(cfg, t, keys, now);
            if lock.Some? then exists k :: k in keys && LockedOut(cfg, t, k, now) && t[k].lockUntil == lock
            else forall k | k in keys :: !LockedOut(cfg, t, k, now)
    decreases |keys|
  {
    if keys != [] {
      var e := Current(cfg, t, keys[0], now);
      var t1 := t[keys[0] := e];
      ActiveLockIff(cfg, t1, keys[1..], now);
      assert keys == [keys[0]] + keys[1..];
      assert Locks(e, now) <==> LockedOut(cfg, t, keys[0], now);
      forall k ensures LockedOut(cfg, t1, k, now) ==> LockedOut(cfg, t, k, now) && t1[k] == t[k] {}
      forall k ensures LockedOut(cfg, t, k, now) ==> LockedOut(cfg, t1, k, now) && t1[k] == t[k] {}
    }
  }

  lemma KeysAre(cfg: Config, email: Email, ip: Ip, k: Key)
    ensures k in Keys(cfg, email, ip) <==> IsKeyOf(cfg, email, ip, k)
    ensures Distinct(Keys(cfg, email, ip))
  {
  }

  /** An attempt is throttled exactly if one of its keys is locked out, until a time that such a lock ends;
      otherwise its password alone decides. */
  ghost predicate AnsweredBy(cfg: Config, t: Table, e: Event, answer: Answer)
    requires e.Attempt?
  {
    if exists k :: IsKeyOf(cfg, e.email, e.ip, k) && LockedOut(cfg, t, k, e.at) then
      && answer.Throttled?
      && exists k :: IsKeyOf(cfg, e.email, e.ip, k) && LockedOut(cfg, t, k, e.at)
                     && t[k].lockUntil == Some(answer.until)
    else answer == if e.valid then Welcome else Rejected
  }

  lemma AttemptIsAnswered(cfg: Config, t: Table, e: Event)
    requires e.Attempt?
    ensures AnsweredBy(cfg, t, e, AnswerTo(cfg, t, e))
  {
    ActiveLockIff(cfg, t, Keys(cfg, e.email, e.ip), e.at);
    forall k ensures k in Keys(cfg, e.email, e.ip) <==> IsKeyOf(cfg, e.email, e.ip, k) {
      KeysAre(cfg, e.email, e.ip, k);
    }
  }

  /** What becomes of every entry: a rejection counts one more failure for each of the attempt's keys, a
      success drops them, a throttled attempt only reads them; all other entries stay as they are. */
  ghost predicate EntryAfter(cfg: Config, t: Table, e: Event, answer: Answer, t': Table, k: Key)
    requires e.Attempt?
  {
    if !IsKeyOf(cfg, e.email, e.ip, k) then SameAt(t, t', k)
    else match answer
      case Throttled(_) => OnlyRead(cfg, t, t', k, e.at)
      case Rejected => k in t' && OneMoreFailure(cfg, t, k, e.at, t'[k])
      case Welcome => k !in t'
  }

  lemma AttemptLeaves(cfg: Config, t: Table, e: Event, k: Key)
    requires e.Attempt?
    ensures EntryAfter(cfg, t, e, AnswerTo(cfg, t, e), After(cfg, t, e), k)
  {
    var keys := Keys(cfg, e.email, e.ip);
    KeysAre(cfg, e.email, e.ip, k);
    CheckedAt(cfg, t, keys, e.at, k);
    CheckedElsewhere(cfg, t, keys, e.at, k);
    RecordedAt(cfg, Checked(cfg, t, keys, e.at), keys, e.at, k);
  }

  class Guard {
    const cfg: Config
    var byKey: Table

    constructor (config: Config)
      ensures cfg == config && byKey == map[]
    {
      cfg, byKey := config, map[];
    }

    /** Stores a fresh entry when there is none or its window is over. */
    method GetLoginThrottleState(k: Key, now: int) returns (e: Entry)
      modifies this
      ensures e == Current(cfg, old(byKey), k, now) && byKey == old(byKey)[k := e]
      ensures e == if k in old(byKey) && now <= old(byKey)[k].windowStartedAt + cfg.windowMs then old(byKey)[k]
                   else Entry(0, now, None)
    {
      if k !in byKey || now - byKey[k].windowStartedAt > cfg.windowMs {
        e := Entry(0, now, None);
        byKey := byKey[k := e];
      } else {
        e := byKey[k];
        assert byKey == byKey[k := e];
      }
    }

    method GetActiveThrottleLock(keys: seq<Key>, now: int) returns (until: Option<int>)
      modifies this
      ensures byKey == Checked(cfg, old(byKey), keys, now) && until == ActiveLock(cfg, old(byKey), keys, now)
      ensures until.Some? ==> until.value > now
    {
      for i := 0 to |keys|
        invariant Checked(cfg, byKey, keys[i..], now) == Checked(cfg, old(byKey), keys, now)
        invariant ActiveLock(cfg, byKey, keys[i..], now) == ActiveLock(cfg, old(byKey), keys, now)
      {
        assert keys[i..][1..] == keys[i + 1..];
        var e := GetLoginThrottleState(keys[i], now);
        if e.lockUntil.Some? && e.lockUntil.value > now {
          return e.lockUntil;
        }
      }
      until := None;
    }

    method RecordLoginFailure(keys: seq<Key>, now: int)
      modifies this
      ensures byKey == Recorded(cfg, old(byKey), keys, now)
    {
      for i := 0 to |keys|
        invariant Recorded(cfg, byKey, keys[i..], now) == Recorded(cfg, old(byKey), keys, now)
      {
        assert keys[i..][1..] == keys[i + 1..];
        ghost var before := byKey;
        var e := GetLoginThrottleState(keys[i], now);
        e := e.(count := e.count + 1);
        if e.count >= cfg.maxFailures {
          e := e.(lockUntil := Some(now + cfg.lockMs));
        }
        byKey := byKey[keys[i] := e];
        assert byKey == before[keys[i] := Bumped(cfg, Current(cfg, before, keys[i], now), now)];
      }
    }

    method ClearLoginFailures(keys: seq<Key>)
      modifies this
      ensures byKey == Cleared(old(byKey), keys)
    {
      for i := 0 to |keys|
        invariant byKey == old(byKey) - (set k | k in keys[..i])
      {
        byKey := byKey - {keys[i]};
        ghost var done := keys[..i + 1];
        assert done == keys[..i] + [keys[i]];
        assert (set k | k in done) == (set k | k in keys[..i]) + {keys[i]};
      }
      assert keys[..|keys|] == keys;
    }

    /** The timer: drops every entry that is expired and not locked, and nothing an access would find. */
    method CleanUp(now: int)
      modifies this
      ensures byKey == Swept(cfg, old(byKey), now)
      ensures forall k :: k in byKey <==>
                && k in old(byKey)
                && (now <= old(byKey)[k].windowStartedAt + cfg.windowMs
                    || (old(byKey)[k].lockUntil.Some? && now <= old(byKey)[k].lockUntil.value))
      ensures forall k | k in byKey :: byKey[k] == old(byKey)[k]
      ensures Similar(cfg, old(byKey), byKey, now)
    {
      var todo := byKey.Keys;
      while todo != {}
        invariant todo <= old(byKey).Keys
        invariant byKey == old(byKey) - (set k | k in old(byKey) && k !in todo && Sweepable(cfg, old(byKey)[k], now))
        decreases todo
      {
        var k :| k in todo;
        assert k in byKey && byKey[k] == old(byKey)[k];
        todo := todo - {k};
        var e := byKey[k];
        if now - e.windowStartedAt > cfg.windowMs && (e.lockUntil.None? || e.lockUntil.value < now) {
          byKey := byKey - {k};
        }
      }
      assert Similar(cfg, old(byKey), old(byKey), now);
      SweepSimilar(cfg, old(byKey), old(byKey), now);
    }

    /** One attempt, taken as a whole. */
    method Login(email: Email, ip: Ip, valid: bool, now: int) returns (answer: Answer)
      modifies this
      ensures var e := Attempt(email, ip, valid, now);
              && answer == AnswerTo(cfg, old(byKey), e) && byKey == After(cfg, old(byKey), e)
              && AnsweredBy(cfg, old(byKey), e, answer)
              && forall k :: EntryAfter(cfg, old(byKey), e, answer, byKey, k)
    {
      AttemptIsAnswered(cfg, byKey, Attempt(email, ip, valid, now));
      forall k ensures EntryAfter(cfg, byKey, Attempt(email, ip, valid, now),
                                  AnswerTo(cfg, byKey, Attempt(email, ip, valid, now)),
                                  After(cfg, byKey, Attempt(email, ip, valid, now)), k) {
        AttemptLeaves(cfg, byKey, Attempt(email, ip, valid, now), k);
      }
      var keys := Keys(cfg, email, ip);
      var lock := GetActiveThrottleLock(keys, now);
      if lock.Some? {
        return Throttled(lock.value);
      }
      if !valid {
        RecordLoginFailure(keys, now);
        return Rejected;
      }
      ClearLoginFailures(keys);
      answer := Welcome;
    }
  }
}
