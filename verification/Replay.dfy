/**
 Replay protection of the agent callbacks: a callback must be stamped within a minute of now, and its
 nonce must be new to the ephemeral store, which keeps it for a minute.  One clock reading per call.
 */
module Replay {
  import opened Wrappers
  import opened TtlStore

  const NONCE_TTL_MS: int := 60_000
  const MAX_TIMESTAMP_DRIFT_MS: int := 60_000

  datatype Event =
    | Callback(nonce: string, timestamp: int, at: int)
    | RevokeToken(jti: string, ttlSeconds: real, at: int)
    | CheckToken(jti: string, at: int)
    | Timer(at: int)

  /** The nonce and the stamp must be there: an empty string or a zero counts as missing. */
  predicate InTime(e: Event) {
    e.Callback? && e.nonce != "" && e.timestamp != 0
    && -MAX_TIMESTAMP_DRIFT_MS <= e.at - e.timestamp <= MAX_TIMESTAMP_DRIFT_MS
  }

  /** What an event does to the store. */
  function OpsOf(e: Event): seq<Op> {
    match e
    case Callback(nonce, _, at) =>
      if InTime(e) then [SetIfAbsent(Nonce(nonce), "1", NONCE_TTL_MS as real / 1000.0, at)] else []
    case RevokeToken(jti, ttl, at) => [Set(RevokedJti(jti), "1", ttl, at)]
    case CheckToken(jti, at) => [Get(RevokedJti(jti), at)]
    case Timer(at) => [Collect(at)]
  }

  function History(events: seq<Event>): seq<Op> {
    if events == [] then [] else History(events[..|events| - 1]) + OpsOf(events[|events| - 1])
  }

  predicate Chronological(events: seq<Event>) {
    forall i, j | 0 <= i < j < |events| :: events[i].at <= events[j].at
  }

  predicate AcceptedAfter(past: seq<Event>, e: Event) {
    InTime(e) && ValueAt(History(past), Nonce(e.nonce), e.at).None?
  }

  predicate Accepted(events: seq<Event>, i: nat)
    requires i < |events|
  {
    AcceptedAfter(events[..i], events[i])
  }

  lemma NonceTtl()
    ensures TtlMs(NONCE_TTL_MS as real / 1000.0) == NONCE_TTL_MS
  {
    assert NONCE_TTL_MS as real / 1000.0 == 60.0;
  }

  lemma OneMore(past: seq<Event>, e: Event)
    ensures History(past + [e]) == History(past) + OpsOf(e)
  {
    assert (past + [e])[..|past|] == past;
  }

  /** What an event's one operation makes of a nonce's last write so far. */
  lemma NonceWrittenBy(e: Event, w: Option<Entry>, nonce: string)
    requires OpsOf(e) != []
    ensures WrittenBy(OpsOf(e)[0], w, Nonce(nonce))
         == if e.Callback? && e.nonce == nonce && !LiveAt(w, e.at) then Some(Entry("1", e.at + NONCE_TTL_MS)) else w
  {
    NonceTtl();
  }

  /** After one more event, a nonce's last write is its own if the event wrote it, and as before if not. */
  lemma WrittenNext(past: seq<Event>, e: Event, nonce: string)
    ensures Written(History(past + [e]), Nonce(nonce))
         == if e.Callback? && e.nonce == nonce && AcceptedAfter(past, e) then Some(Entry("1", e.at + NONCE_TTL_MS))
            else Written(History(past), Nonce(nonce))
  {
    OneMore(past, e);
    if OpsOf(e) == [] {
      assert History(past) + [] == History(past);
    } else {
      assert OpsOf(e) == [OpsOf(e)[0]];
      NonceWrittenBy(e, Written(History(past), Nonce(nonce)), nonce);
      WrittenAfterOp(History(past), OpsOf(e)[0], Nonce(nonce));
    }
  }

  lemma WrittenAfterOp(history: seq<Op>, op: Op, key: TtlStore.Key)
    ensures Written(history + [op], key) == WrittenBy(op, Written(history, key), key)
  {
    assert (history + [op])[..|history|] == history;
  }

  /** The store holds the nonce until `bound` at least. */
  ghost predicate HeldUntil(past: seq<Event>, nonce: string, bound: int) {
    var w := Written(History(past), Nonce(nonce));
    w.Some? && w.value.expiresAt >= bound
  }

  lemma HeldOn(past: seq<Event>, e: Event, nonce: string, bound: int)
    requires HeldUntil(past, nonce, bound) && bound <= e.at + NONCE_TTL_MS
    ensures HeldUntil(past + [e], nonce, bound)
  {
    WrittenNext(past, e, nonce);
  }

  lemma {:induction false} HeldThrough(past: seq<Event>, more: seq<Event>, nonce: string, bound: int)
    requires HeldUntil(past, nonce, bound) && forall i | 0 <= i < |more| :: bound <= more[i].at + NONCE_TTL_MS
    ensures HeldUntil(past + more, nonce, bound)
    decreases |more|
  {
    if more == [] {
      assert past + more == past;
    } else {
      HeldOn(past, more[0], nonce, bound);
      assert past + more == (past + [more[0]]) + more[1..];
      HeldThrough(past + [more[0]], more[1..], nonce, bound);
    }
  }

  /** Once a nonce has been taken, the store holds it for a minute at least. */
  lemma NonceStays(past: seq<Event>, e: Event, more: seq<Event>)
    requires AcceptedAfter(past, e) && forall i | 0 <= i < |more| :: e.at <= more[i].at
    ensures HeldUntil(past + [e] + more, e.nonce, e.at + NONCE_TTL_MS)
  {
    WrittenNext(past, e, e.nonce);
    HeldThrough(past + [e], more, e.nonce, e.at + NONCE_TTL_MS);
  }

  lemma SplitAt(events: seq<Event>, i: nat, j: nat)
    requires i < j <= |events|
    ensures events[..j] == events[..i] + [events[i]] + events[i + 1..j]
  {
  }

  /** A later use of a nonce that is still held is refused. */
  lemma HeldIsRefused(past: seq<Event>, e: Event, bound: int)
    requires e.Callback? && HeldUntil(past, e.nonce, bound) && e.at < bound
    ensures !AcceptedAfter(past, e)
  {
  }

  /** A callback is accepted a second time only if it was not stamped before its first acceptance: one
      stamped strictly before it is accepted at most once. */
  lemma AcceptedAtMostOnce(events: seq<Event>, i: nat, j: nat)
    requires Chronological(events) && i < j < |events|
    requires Accepted(events, i) && events[j].Callback?
    requires events[j].nonce == events[i].nonce && events[j].timestamp == events[i].timestamp < events[i].at
    ensures !Accepted(events, j)
  {
    NonceStays(events[..i], events[i], events[i + 1..j]);
    SplitAt(events, i, j);
    if InTime(events[j]) {
      HeldIsRefused(events[..j], events[j], events[i].at + NONCE_TTL_MS);
    }
  }

  /** The same callback at another time. */
  function Again(e: Event, at: int): Event
    requires e.Callback?
  {
    Callback(e.nonce, e.timestamp, at)
  }

  /** Repeated at `again` with no other use of the nonce between, a callback accepted before is accepted
      exactly when the store has let go of the nonce and the stamp is still in time. */
  lemma AcceptedAgainIff(past: seq<Event>, e: Event, again: int)
    requires AcceptedAfter(past, e) && e.at <= again
    ensures AcceptedAfter(past + [e], Again(e, again))
            <==> e.at + NONCE_TTL_MS <= again <= e.timestamp + MAX_TIMESTAMP_DRIFT_MS
  {
    WrittenNext(past, e, e.nonce);
  }

  /** So a callback can be repeated successfully exactly when it is not stamped before its acceptance:
      the two minutes meet, but do not overlap. */
  lemma RepeatableIff(past: seq<Event>, e: Event)
    requires AcceptedAfter(past, e)
    ensures (exists again :: e.at <= again && AcceptedAfter(past + [e], Again(e, again))) <==> e.timestamp >= e.at
  {
    AcceptedAgainIff(past, e, e.at + NONCE_TTL_MS);
    forall again | e.at <= again && AcceptedAfter(past + [e], Again(e, again)) ensures e.timestamp >= e.at {
      AcceptedAgainIff(past, e, again);
    }
  }

  /** The callback of a request whose nonce or stamp may be missing. */
  function Received(nonce: Option<string>, timestamp: Option<int>, now: int): (e: Event)
    ensures e.Callback? && e.at == now
  {
    Callback(if nonce.Some? then nonce.value else "", if timestamp.Some? then timestamp.value else 0, now)
  }

  /** The check as it runs against the store: it accepts exactly a new nonce in time, or, in development,
      a request without a nonce; and it writes exactly what the callback's event writes. */
  method CheckReplayProtection(store: Store, development: bool, nonce: Option<string>, timestamp: Option<int>, now: int)
    returns (valid: bool)
    requires store.Valid() && store.clock <= now
    modifies store
    ensures store.Valid()
    ensures var e := Received(nonce, timestamp, now);
            && (valid <==>
                  || (development && e.nonce == "")
                  || (InTime(e) && ValueAt(old(store.history), Nonce(e.nonce), now).None?))
            && store.history == old(store.history) + OpsOf(e)
    ensures var timely := nonce.Some? && nonce.value != "" && timestamp.Some? && timestamp.value != 0
                          && -60_000 <= now - timestamp.value <= 60_000;
            && (valid <==> || (development && (nonce.None? || nonce.value == ""))
                           || (timely && ValueAt(old(store.history), Nonce(nonce.value), now) == None))
            && store.history == old(store.history)
                              + (if timely then [SetIfAbsent(Nonce(nonce.value), "1", 60.0, now)] else [])
  {
    if development && (nonce.None? || nonce.value == "") {
      return true;
    }
    if nonce.None? || nonce.value == "" || timestamp.None? || timestamp.value == 0 {
      return false;
    }
    var drift := now - timestamp.value;
    if drift > MAX_TIMESTAMP_DRIFT_MS || drift < -MAX_TIMESTAMP_DRIFT_MS {
      return false;
    }
    valid := store.SetIfAbsentWithTtl(Nonce(nonce.value), "1", NONCE_TTL_MS as real / 1000.0, now);
  }
}
