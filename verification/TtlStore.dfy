/**
 The in-memory branch of the ephemeral store: a map whose entries expire, are dropped when a read
 finds them expired, and are collected by a timer.  It is measured against the history of its
 operations alone.
 */
module TtlStore {
  import opened Wrappers

  datatype Key = Nonce(nonce: string) | RevokedJti(jti: string)

  datatype Entry = Entry(value: string, expiresAt: int)

  /** Whole seconds, at least one. */
  function TtlMs(ttlSeconds: real): (ms: int)
    ensures ms >= 1000 && ms as real >= ttlSeconds * 1000.0 && ms % 1000 == 0
    ensures if ttlSeconds <= 1.0 then ms == 1000 else ms as real < (ttlSeconds + 1.0) * 1000.0
  {
    var up := -((-ttlSeconds).Floor);
    1000 * (if up < 1 then 1 else up)
  }

  datatype Op =
    | Set(key: Key, value: string, ttlSeconds: real, at: int)
    | SetIfAbsent(key: Key, value: string, ttlSeconds: real, at: int)
    | Get(key: Key, at: int)
    | Collect(at: int)

  predicate InOrder(ops: seq<Op>) {
    forall i, j | 0 <= i < j < |ops| :: ops[i].at <= ops[j].at
  }

  // ---------------------------------------------------------------------------------------------
  // What the history says
  // ---------------------------------------------------------------------------------------------

  predicate LiveAt(w: Option<Entry>, now: int) {
    w.Some? && w.value.expiresAt > now
  }

  /** The last write of a key that took effect. */
  function Written(ops: seq<Op>, k: Key): Option<Entry> {
    if ops == [] then None else WrittenBy(ops[|ops| - 1], Written(ops[..|ops| - 1], k), k)
  }

  /** What an operation makes of the last write so far. */
  function WrittenBy(op: Op, w: Option<Entry>, k: Key): Option<Entry> {
    match op
    case Set(key, value, ttl, at) => if key == k then Some(Entry(value, at + TtlMs(ttl))) else w
    case SetIfAbsent(key, value, ttl, at) =>
      if key == k && !LiveAt(w, at) then Some(Entry(value, at + TtlMs(ttl))) else w
    case _ => w
  }

  /** The value of a key at an instant: its last write's, until that expires. */
  function ValueAt(ops: seq<Op>, k: Key, now: int): Option<string> {
    var w := Written(ops, k);
    if LiveAt(w, now) then Some(w.value.value) else None
  }

  /** What a write means for the reads after it: its value until its time to live is over, for its own key
      and no other; a conditional one only if there is no live value, and no other operation changes any
      answer. */
  lemma ValueAfter(ops: seq<Op>, op: Op, k: Key, now: int)
    ensures ValueAt(ops + [op], k, now) ==
            if (op.Set? && op.key == k) || (op.SetIfAbsent? && op.key == k && ValueAt(ops, k, op.at) == None) then
              if now < op.at + TtlMs(op.ttlSeconds) then Some(op.value) else None
            else ValueAt(ops, k, now)
    ensures ValueAt([], k, now) == None
  {
    assert (ops + [op])[..|ops|] == ops;
  }

  // ---------------------------------------------------------------------------------------------
  // What the map holds
  // ---------------------------------------------------------------------------------------------

  type Mem = map<Key, Entry>

  predicate Fresh(mem: Mem, k: Key, now: int) {
    k in mem && mem[k].expiresAt > now
  }

  function After(mem: Mem, op: Op): Mem {
    match op
    case Set(k, v, ttl, at) => mem[k := Entry(v, at + TtlMs(ttl))]
    case SetIfAbsent(k, v, ttl, at) => if Fresh(mem, k, at) then mem else mem[k := Entry(v, at + TtlMs(ttl))]
    case Get(k, at) => if k in mem && mem[k].expiresAt <= at then mem - {k} else mem
    case Collect(at) => mem - (set k | k in mem && mem[k].expiresAt <= at)
  }

  /** The map holds every write that has not expired at the last instant seen, and no other live entry. */
  ghost predicate Agrees(mem: Mem, ops: seq<Op>, now: int) {
    forall k ::
      && (Fresh(mem, k, now) ==> Written(ops, k) == Some(mem[k]))
      && (LiveAt(Written(ops, k), now) ==> k in mem && mem[k] == Written(ops, k).value)
  }

  /** Whatever was collected and whenever, a read answers what the history says. */
  lemma ReadsAgree(mem: Mem, ops: seq<Op>, now: int, k: Key, later: int)
    requires Agrees(mem, ops, now) && now <= later
    ensures (if Fresh(mem, k, later) then Some(mem[k].value) else None) == ValueAt(ops, k, later)
  {
  }

  lemma StepAgrees(mem: Mem, ops: seq<Op>, now: int, op: Op)
    requires Agrees(mem, ops, now) && now <= op.at
    ensures Agrees(After(mem, op), ops + [op], op.at)
  {
    var ops' := ops + [op];
    assert ops'[..|ops|] == ops;
    var mem' := After(mem, op);
    forall k
      ensures Fresh(mem', k, op.at) ==> Written(ops', k) == Some(mem'[k])
      ensures LiveAt(Written(ops', k), op.at) ==> k in mem' && mem'[k] == Written(ops', k).value
    {
      ReadsAgree(mem, ops, now, k, op.at);
    }
  }

  function MemOf(ops: seq<Op>): Mem {
    if ops == [] then map[] else After(MemOf(ops[..|ops| - 1]), ops[|ops| - 1])
  }

  function LastAt(ops: seq<Op>, start: int): int {
    if ops == [] then start else ops[|ops| - 1].at
  }

  lemma {:induction false} HistoryAgrees(ops: seq<Op>, start: int)
    requires InOrder(ops) && forall i | 0 <= i < |ops| :: start <= ops[i].at
    ensures Agrees(MemOf(ops), ops, LastAt(ops, start))
  {
    if ops != [] {
      var before, op := ops[..|ops| - 1], ops[|ops| - 1];
      HistoryAgrees(before, start);
      StepAgrees(MemOf(before), before, LastAt(before, start), op);
      assert before + [op] == ops;
    }
  }

  /** The writes of a history, in order. */
  function WithoutCollecting(ops: seq<Op>): (writes: seq<Op>)
    ensures forall op :: op in writes <==> op in ops && (op.Set? || op.SetIfAbsent?)
  {
    if ops == [] then []
    else WithoutCollecting(ops[..|ops| - 1])
         + if ops[|ops| - 1].Collect? || ops[|ops| - 1].Get? then [] else [ops[|ops| - 1]]
  }

  lemma {:induction false} WrittenIgnoresCollecting(ops: seq<Op>, k: Key)
    ensures Written(ops, k) == Written(WithoutCollecting(ops), k)
  {
    if ops != [] {
      var before, op := ops[..|ops| - 1], ops[|ops| - 1];
      WrittenIgnoresCollecting(before, k);
      var kept := WithoutCollecting(before);
      assert (kept + [op])[..|kept|] == kept && kept + [] == kept;
    }
  }

  /** The store is a time-indexed map for every history and every schedule of the timer: reads and
      conditional writes answer by the writes alone, and collecting changes no answer. */
  lemma CollectingIsInvisible(ops: seq<Op>, start: int, k: Key, now: int)
    requires InOrder(ops) && (forall i | 0 <= i < |ops| :: start <= ops[i].at) && LastAt(ops, start) <= now
    ensures Fresh(MemOf(ops), k, now) <==> ValueAt(ops, k, now).Some?
    ensures Fresh(MemOf(ops), k, now) ==> ValueAt(ops, k, now) == Some(MemOf(ops)[k].value)
    ensures ValueAt(ops, k, now) == ValueAt(WithoutCollecting(ops), k, now)
  {
    HistoryAgrees(ops, start);
    ReadsAgree(MemOf(ops), ops, LastAt(ops, start), k, now);
    WrittenIgnoresCollecting(ops, k);
  }

  // ---------------------------------------------------------------------------------------------
  // The store
  // ---------------------------------------------------------------------------------------------

  class Store {
    var mem: Mem
    ghost var history: seq<Op>
    ghost var clock: int

    ghost predicate Valid()
      reads this
    {
      Agrees(mem, history, clock)
    }

    constructor (ghost now: int)
      ensures Valid() && history == [] && clock == now
    {
      mem, history, clock := map[], [], now;
    }

    method SetWithTtl(key: Key, value: string, ttlSeconds: real, now: int)
      requires Valid() && clock <= now
      modifies this
      ensures Valid() && clock == now && history == old(history) + [Set(key, value, ttlSeconds, now)]
      ensures mem == old(mem)[key := Entry(value, now + TtlMs(ttlSeconds))]
    {
      StepAgrees(mem, history, clock, Set(key, value, ttlSeconds, now));
      mem := mem[key := Entry(value, now + TtlMs(ttlSeconds))];
      history, clock := history + [Set(key, value, ttlSeconds, now)], now;
    }

    /** Reads by the history; an expired entry is dropped on the way. */
    method Lookup(key: Key, now: int) returns (value: Option<string>)
      requires Valid() && clock <= now
      modifies this
      ensures Valid() && clock == now && history == old(history) + [Get(key, now)]
      ensures value == ValueAt(old(history), key, now)
    {
      ReadsAgree(mem, history, clock, key, now);
      StepAgrees(mem, history, clock, Get(key, now));
      history, clock := history + [Get(key, now)], now;
      if key !in mem {
        return None;
      }
      if mem[key].expiresAt <= now {
        mem := mem - {key};
        return None;
      }
      value := Some(mem[key].value);
    }

    /** True exactly when the history has no live value for the key. */
    method SetIfAbsentWithTtl(key: Key, value: string, ttlSeconds: real, now: int) returns (isNew: bool)
      requires Valid() && clock <= now
      modifies this
      ensures Valid() && clock == now && history == old(history) + [SetIfAbsent(key, value, ttlSeconds, now)]
      ensures isNew <==> ValueAt(old(history), key, now).None?
      ensures mem == if isNew then old(mem)[key := Entry(value, now + TtlMs(ttlSeconds))] else old(mem)
    {
      ReadsAgree(mem, history, clock, key, now);
      StepAgrees(mem, history, clock, SetIfAbsent(key, value, ttlSeconds, now));
      history, clock := history + [SetIfAbsent(key, value, ttlSeconds, now)], now;
      if key in mem && mem[key].expiresAt > now {
        return false;
      }
      mem := mem[key := Entry(value, now + TtlMs(ttlSeconds))];
      isNew := true;
    }

    /** The timer. */
    method CollectExpired(now: int)
      requires Valid() && clock <= now
      modifies this
      ensures Valid() && clock == now && history == old(history) + [Collect(now)]
      ensures forall k | k in mem :: k in old(mem) && mem[k] == old(mem)[k] && mem[k].expiresAt > now
    {
      StepAgrees(mem, history, clock, Collect(now));
      history, clock := history + [Collect(now)], now;
      var todo := mem.Keys;
      while todo != {}
        invariant todo <= old(mem).Keys
        invariant mem == old(mem) - (set k | k in old(mem) && k !in todo && old(mem)[k].expiresAt <= now)
        invariant history == old(history) + [Collect(now)] && clock == now
        decreases todo
      {
        var k :| k in todo;
        assert k in mem && mem[k] == old(mem)[k];
        todo := todo - {k};
        if mem[k].expiresAt <= now {
          mem := mem - {k};
        }
      }
      assert mem == After(old(mem), Collect(now));
    }
  }
}
