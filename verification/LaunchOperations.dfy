/**
 Idempotent launch.  Any number of clients call `launch` with (user, key) pairs and request hashes;
 they insert an operation row if there is none, replay or poll an existing one, and may fail or
 crash at any `await`.  A write that reports an error may still have been committed.
 */
module LaunchOperations {
  import opened Wrappers

  /** The unique pair (userId, operationKey). */
  type Key = nat
  type Hash = nat
  type WorkspaceId = nat
  type ClientId = nat
  type Code = string

  const OPERATION_POLL_MS: nat := 100
  const OPERATION_POLL_TIMEOUT_MS: nat := 5000

  datatype Status = PROCESSING | COMPLETED | FAILED

  datatype Operation = Operation(hash: Hash, status: Status, workspace: Option<WorkspaceId>,
                                 lastErrorCode: Option<Code>)

  datatype Reply =
    | Success(workspace: WorkspaceId, replay: bool)
    | KeyReused
    | InProgress
    | Error(code: Code)

  // ---------------------------------------------------------------------------------------------
  // What a client does with the row it reads
  // ---------------------------------------------------------------------------------------------

  function ErrorOf(op: Operation): Reply {
    Error(if op.lastErrorCode.Some? && op.lastErrorCode.value != "" then op.lastErrorCode.value
          else "LAUNCH_OPERATION_FAILED")
  }

  /** The reply the first read settles, if any; otherwise the client polls. */
  function OnExisting(op: Operation, hash: Hash): Option<Reply> {
    if op.hash != hash then Some(KeyReused)
    else if op.workspace.Some? then Some(Success(op.workspace.value, true))
    else if op.status == FAILED then Some(ErrorOf(op))
    else None
  }

  /** After losing the insert: the status is not looked at before polling. */
  function OnConflict(op: Operation, hash: Hash): Option<Reply> {
    if op.hash != hash then Some(KeyReused)
    else if op.workspace.Some? then Some(Success(op.workspace.value, true))
    else None
  }

  /** One poll; the hash is not looked at again. */
  function OnPoll(op: Operation): Option<Reply> {
    if op.workspace.Some? then Some(Success(op.workspace.value, true))
    else if op.status == FAILED then Some(ErrorOf(op))
    else None
  }

  function NewOperation(hash: Hash): Operation {
    Operation(hash, PROCESSING, None, None)
  }

  function Completed(op: Operation, ws: WorkspaceId): Operation {
    op.(workspace := Some(ws), status := COMPLETED, lastErrorCode := None)
  }

  function MarkedFailed(op: Operation, code: Code): Operation {
    op.(status := FAILED, lastErrorCode := Some(code))
  }

  // ---------------------------------------------------------------------------------------------
  // The system
  // ---------------------------------------------------------------------------------------------

  datatype Place =
    | Reading
    | Inserting
    | Rereading
    | Polling(since: int)
    | Launching
    | Saving(ws: WorkspaceId)
    | Failing(code: Code)

  datatype Client = Client(key: Key, hash: Hash, place: Place)

  datatype Answer = Answer(key: Key, hash: Hash, reply: Reply)

  /** `launches` counts the calls of `launchWorkspaceInternal`, `made` holds the workspace such a call
      returned, and `answers` every reply ever given; the three are history. */
  datatype World = World(
    ops: map<Key, Operation>,
    now: int,
    clients: map<ClientId, Client>,
    launches: map<Key, nat>,
    made: map<Key, WorkspaceId>,
    answers: set<Answer>)

  datatype Step =
    | Tick(ms: nat)
    | Arrive(c: ClientId, key: Key, hash: Hash)
    | Read(c: ClientId)
    | Insert(c: ClientId)
    | InsertFails(c: ClientId, committed: bool, code: Code)
    | Reread(c: ClientId)
    | Poll(c: ClientId)
    | LaunchReturns(c: ClientId, ws: WorkspaceId)
    | LaunchThrows(c: ClientId, code: Code)
    | Save(c: ClientId)
    | SaveFails(c: ClientId, committed: bool, code: Code)
    | RecordFailure(c: ClientId, committed: bool)
    | Crash(c: ClientId)

  const Empty: World := World(map[], 0, map[], map[], map[], {})

  predicate At(w: World, c: ClientId, place: Place) {
    c in w.clients && w.clients[c].place == place
  }

  function Go(w: World, c: ClientId, place: Place): World
    requires c in w.clients
  {
    w.(clients := w.clients[c := w.clients[c].(place := place)])
  }

  function Give(w: World, c: ClientId, reply: Reply): World
    requires c in w.clients
  {
    w.(clients := w.clients - {c}, answers := w.answers + {Answer(w.clients[c].key, w.clients[c].hash, reply)})
  }

  function GiveOrPoll(w: World, c: ClientId, reply: Option<Reply>): World
    requires c in w.clients
  {
    if reply.Some? then Give(w, c, reply.value) else Go(w, c, Polling(w.now))
  }

  function Launches(w: World, key: Key): nat {
    if key in w.launches then w.launches[key] else 0
  }

  function ReadStep(w: World, c: ClientId): World {
    if !At(w, c, Reading) then w
    else if w.clients[c].key in w.ops then GiveOrPoll(w, c, OnExisting(w.ops[w.clients[c].key], w.clients[c].hash))
    else Go(w, c, Inserting)
  }

  /** The unique key lets one insert through; its client launches, the others re-read. */
  function InsertStep(w: World, c: ClientId): World {
    if !At(w, c, Inserting) then w
    else
      var k := w.clients[c].key;
      if k in w.ops then Go(w, c, Rereading)
      else Go(w.(ops := w.ops[k := NewOperation(w.clients[c].hash)],
                 launches := w.launches[k := Launches(w, k) + 1]), c, Launching)
  }

  /** Any other insert error is rethrown, whether or not the row went in. */
  function InsertFailsStep(w: World, c: ClientId, committed: bool, code: Code): World {
    if !At(w, c, Inserting) then w
    else
      var k := w.clients[c].key;
      var ops := if committed && k !in w.ops then w.ops[k := NewOperation(w.clients[c].hash)] else w.ops;
      Give(w.(ops := ops), c, Error(code))
  }

  function RereadStep(w: World, c: ClientId): World {
    if !At(w, c, Rereading) then w
    else if w.clients[c].key in w.ops then GiveOrPoll(w, c, OnConflict(w.ops[w.clients[c].key], w.clients[c].hash))
    else Go(w, c, Polling(w.now))
  }

  function PollStep(w: World, c: ClientId): World {
    if !(c in w.clients && w.clients[c].place.Polling?) then w
    else if w.now - w.clients[c].place.since >= OPERATION_POLL_TIMEOUT_MS then Give(w, c, InProgress)
    else if w.clients[c].key !in w.ops then w
    else
      var reply := OnPoll(w.ops[w.clients[c].key]);
      if reply.Some? then Give(w, c, reply.value) else w
  }

  function LaunchReturnsStep(w: World, c: ClientId, ws: WorkspaceId): World {
    if At(w, c, Launching) then Go(w.(made := w.made[w.clients[c].key := ws]), c, Saving(ws)) else w
  }

  function LaunchThrowsStep(w: World, c: ClientId, code: Code): World {
    if At(w, c, Launching) then Go(w, c, Failing(code)) else w
  }

  function SaveStep(w: World, c: ClientId): World {
    if c in w.clients && w.clients[c].place.Saving? && w.clients[c].key in w.ops then
      var k, ws := w.clients[c].key, w.clients[c].place.ws;
      Give(w.(ops := w.ops[k := Completed(w.ops[k], ws)]), c, Success(ws, false))
    else w
  }

  function SaveFailsStep(w: World, c: ClientId, committed: bool, code: Code): World {
    if c in w.clients && w.clients[c].place.Saving? && w.clients[c].key in w.ops then
      var k, ws := w.clients[c].key, w.clients[c].place.ws;
      Go(if committed then w.(ops := w.ops[k := Completed(w.ops[k], ws)]) else w, c, Failing(code))
    else w
  }

  /** The failure is recorded on a best-effort basis and rethrown. */
  function RecordFailureStep(w: World, c: ClientId, committed: bool): World {
    if c in w.clients && w.clients[c].place.Failing? && w.clients[c].key in w.ops then
      var k, code := w.clients[c].key, w.clients[c].place.code;
      Give(if committed then w.(ops := w.ops[k := MarkedFailed(w.ops[k], code)]) else w, c, Error(code))
    else w
  }

  function Apply(w: World, step: Step): World {
    match step
    case Tick(ms) => w.(now := w.now + ms)
    case Arrive(c, key, hash) => if c in w.clients then w else w.(clients := w.clients[c := Client(key, hash, Reading)])
    case Read(c) => ReadStep(w, c)
    case Insert(c) => InsertStep(w, c)
    case InsertFails(c, committed, code) => InsertFailsStep(w, c, committed, code)
    case Reread(c) => RereadStep(w, c)
    case Poll(c) => PollStep(w, c)
    case LaunchReturns(c, ws) => LaunchReturnsStep(w, c, ws)
    case LaunchThrows(c, code) => LaunchThrowsStep(w, c, code)
    case Save(c) => SaveStep(w, c)
    case SaveFails(c, committed, code) => SaveFailsStep(w, c, committed, code)
    case RecordFailure(c, committed) => RecordFailureStep(w, c, committed)
    case Crash(c) => w.(clients := w.clients - {c})
  }

  function Exec(w: World, steps: seq<Step>): World
    decreases |steps|
  {
    if steps == [] then w else Exec(Apply(w, steps[0]), steps[1..])
  }

  // ---------------------------------------------------------------------------------------------
  // The invariant
  // ---------------------------------------------------------------------------------------------

  /** The client that is past the insert for its key, up to its reply. */
  predicate Executing(client: Client) {
    client.place.Launching? || client.place.Saving? || client.place.Failing?
  }

  ghost predicate OpsOk(w: World) {
    && (forall k | k in w.launches :: k in w.ops && w.launches[k] == 1)
    && (forall k | k in w.made :: k in w.launches)
    && (forall k | k in w.ops && w.ops[k].workspace.Some? :: k in w.made && w.ops[k].workspace.value == w.made[k])
  }

  ghost predicate ClientOk(w: World, client: Client) {
    && (Executing(client) ==>
          client.key in w.launches && client.key in w.ops && w.ops[client.key].hash == client.hash)
    && (client.place.Launching? ==> client.key !in w.made)
    && (client.place.Saving? ==> client.key in w.made && w.made[client.key] == client.place.ws)
    && (client.place.Polling? ==> client.key in w.ops && w.ops[client.key].hash == client.hash)
    && (client.place.Rereading? ==> client.key in w.ops)
  }

  ghost predicate OneExecutor(w: World) {
    forall a, b | a in w.clients && b in w.clients && Executing(w.clients[a]) && Executing(w.clients[b])
      && w.clients[a].key == w.clients[b].key :: a == b
  }

  ghost predicate AnswerOk(w: World, a: Answer) {
    match a.reply
    case Success(ws, _) => a.key in w.ops && w.ops[a.key].hash == a.hash && w.ops[a.key].workspace == Some(ws)
    case KeyReused => a.key in w.ops && w.ops[a.key].hash != a.hash
    case InProgress => a.key in w.ops && w.ops[a.key].hash == a.hash
    case Error(_) => true
  }

  ghost predicate ClientsOk(w: World) {
    forall c | c in w.clients :: ClientOk(w, w.clients[c])
  }

  ghost predicate AnswersOk(w: World) {
    forall a | a in w.answers :: AnswerOk(w, a)
  }

  ghost predicate Inv(w: World) {
    OpsOk(w) && ClientsOk(w) && OneExecutor(w) && AnswersOk(w)
  }

  /** What no step undoes: an operation keeps its hash, a recorded workspace stays recorded, and a
      launch that happened stays the only one. */
  ghost predicate Evolves(a: World, b: World) {
    && (forall k | k in a.ops :: k in b.ops && b.ops[k].hash == a.ops[k].hash
                                && (a.ops[k].workspace.Some? ==> b.ops[k].workspace == a.ops[k].workspace))
    && (forall k | k in a.made :: k in b.made && b.made[k] == a.made[k])
    && (forall k | k in a.ops :: Launches(b, k) == Launches(a, k))
    && a.answers <= b.answers
  }

  ghost predicate Keeps(w: World, w': World) {
    Inv(w') && Evolves(w, w')
  }

  lemma EvolvesTransitive(a: World, b: World, c: World)
    requires Evolves(a, b) && Evolves(b, c)
    ensures Evolves(a, c)
  {
  }

  /** A client moves to a place it is entitled to. */
  lemma GoKeeps(w: World, c: ClientId, place: Place)
    requires Inv(w) && c in w.clients
    requires var moved := w.clients[c].(place := place);
             ClientOk(w, moved) && (Executing(moved) ==> Executing(w.clients[c]))
    ensures Keeps(w, Go(w, c, place))
  {
    var w' := Go(w, c, place);
    forall d | d in w'.clients ensures ClientOk(w', w'.clients[d]) {
      if d != c { assert ClientOk(w, w.clients[d]); }
    }
    forall a | a in w'.answers ensures AnswerOk(w', a) { assert AnswerOk(w, a); }
  }

  lemma GiveKeeps(w: World, c: ClientId, reply: Reply)
    requires Inv(w) && c in w.clients
    requires AnswerOk(w, Answer(w.clients[c].key, w.clients[c].hash, reply))
    ensures Keeps(w, Give(w, c, reply))
  {
    var w' := Give(w, c, reply);
    forall d | d in w'.clients ensures ClientOk(w', w'.clients[d]) { assert ClientOk(w, w.clients[d]); }
    forall a | a in w'.answers ensures AnswerOk(w', a) {
      if a in w.answers { assert AnswerOk(w, a); }
    }
  }

  /** A row is inserted, or rewritten without losing its hash or its workspace. */
  lemma WriteKeeps(w: World, k: Key, op: Operation)
    requires Inv(w)
    requires k in w.ops ==> op.hash == w.ops[k].hash
    requires k in w.ops && w.ops[k].workspace.Some? ==> op.workspace == w.ops[k].workspace
    requires op.workspace.Some? ==> k in w.made && w.made[k] == op.workspace.value
    ensures Keeps(w, w.(ops := w.ops[k := op]))
  {
    var w' := w.(ops := w.ops[k := op]);
    forall d | d in w'.clients ensures ClientOk(w', w'.clients[d]) { assert ClientOk(w, w.clients[d]); }
    forall a | a in w'.answers ensures AnswerOk(w', a) { assert AnswerOk(w, a); }
  }

  lemma ReadKeeps(w: World, c: ClientId)
    requires Inv(w)
    ensures Keeps(w, ReadStep(w, c))
  {
    if At(w, c, Reading) {
      var k := w.clients[c].key;
      if k in w.ops {
        var reply := OnExisting(w.ops[k], w.clients[c].hash);
        if reply.Some? { GiveKeeps(w, c, reply.value); } else { GoKeeps(w, c, Polling(w.now)); }
      } else {
        GoKeeps(w, c, Inserting);
      }
    }
  }

  /** The winner of the insert is the only client executing for its key. */
  lemma WinKeeps(w: World, c: ClientId)
    requires Inv(w) && At(w, c, Inserting) && w.clients[c].key !in w.ops
    ensures Keeps(w, InsertStep(w, c))
  {
    var k := w.clients[c].key;
    var w' := InsertStep(w, c);
    forall d | d in w'.clients ensures ClientOk(w', w'.clients[d]) {
      assert ClientOk(w, w.clients[d]);
    }
    forall a | a in w'.answers ensures AnswerOk(w', a) { assert AnswerOk(w, a); }
    forall d | d in w.clients && Executing(w.clients[d]) ensures w.clients[d].key != k {
      assert ClientOk(w, w.clients[d]);
    }
  }

  lemma InsertKeeps(w: World, c: ClientId)
    requires Inv(w)
    ensures Keeps(w, InsertStep(w, c))
  {
    if At(w, c, Inserting) {
      if w.clients[c].key in w.ops { GoKeeps(w, c, Rereading); } else { WinKeeps(w, c); }
    }
  }

  lemma InsertFailsKeeps(w: World, c: ClientId, committed: bool, code: Code)
    requires Inv(w)
    ensures Keeps(w, InsertFailsStep(w, c, committed, code))
  {
    if At(w, c, Inserting) {
      var k := w.clients[c].key;
      var w1 := if committed && k !in w.ops then w.(ops := w.ops[k := NewOperation(w.clients[c].hash)]) else w;
      if w1 != w { WriteKeeps(w, k, NewOperation(w.clients[c].hash)); }
      GiveKeeps(w1, c, Error(code));
      EvolvesTransitive(w, w1, InsertFailsStep(w, c, committed, code));
    }
  }

  lemma RereadKeeps(w: World, c: ClientId)
    requires Inv(w)
    ensures Keeps(w, RereadStep(w, c))
  {
    if At(w, c, Rereading) {
      assert ClientOk(w, w.clients[c]);
      var reply := OnConflict(w.ops[w.clients[c].key], w.clients[c].hash);
      if reply.Some? { GiveKeeps(w, c, reply.value); } else { GoKeeps(w, c, Polling(w.now)); }
    }
  }

  lemma PollKeeps(w: World, c: ClientId)
    requires Inv(w)
    ensures Keeps(w, PollStep(w, c))
  {
    if c in w.clients && w.clients[c].place.Polling? {
      assert ClientOk(w, w.clients[c]);
      var reply := OnPoll(w.ops[w.clients[c].key]);
      GiveKeeps(w, c, InProgress);
      if reply.Some? { GiveKeeps(w, c, reply.value); }
    }
  }

  lemma LaunchReturnsKeeps(w: World, c: ClientId, ws: WorkspaceId)
    requires Inv(w)
    ensures Keeps(w, LaunchReturnsStep(w, c, ws))
  {
    if At(w, c, Launching) {
      assert ClientOk(w, w.clients[c]);
      var w' := LaunchReturnsStep(w, c, ws);
      forall d | d in w'.clients ensures ClientOk(w', w'.clients[d]) { assert ClientOk(w, w.clients[d]); }
      forall a | a in w'.answers ensures AnswerOk(w', a) { assert AnswerOk(w, a); }
    }
  }

  lemma LaunchThrowsKeeps(w: World, c: ClientId, code: Code)
    requires Inv(w)
    ensures Keeps(w, LaunchThrowsStep(w, c, code))
  {
    if At(w, c, Launching) {
      assert ClientOk(w, w.clients[c]);
      GoKeeps(w, c, Failing(code));
    }
  }

  lemma SaveKeeps(w: World, c: ClientId)
    requires Inv(w)
    ensures Keeps(w, SaveStep(w, c))
  {
    if SaveStep(w, c) != w {
      assert ClientOk(w, w.clients[c]);
      var k, ws := w.clients[c].key, w.clients[c].place.ws;
      WriteKeeps(w, k, Completed(w.ops[k], ws));
      var w1 := w.(ops := w.ops[k := Completed(w.ops[k], ws)]);
      GiveKeeps(w1, c, Success(ws, false));
      EvolvesTransitive(w, w1, SaveStep(w, c));
    }
  }

  lemma SaveFailsKeeps(w: World, c: ClientId, committed: bool, code: Code)
    requires Inv(w)
    ensures Keeps(w, SaveFailsStep(w, c, committed, code))
  {
    if SaveFailsStep(w, c, committed, code) != w {
      assert ClientOk(w, w.clients[c]);
      var k, ws := w.clients[c].key, w.clients[c].place.ws;
      var w1 := if committed then w.(ops := w.ops[k := Completed(w.ops[k], ws)]) else w;
      if committed { WriteKeeps(w, k, Completed(w.ops[k], ws)); }
      assert ClientOk(w1, w1.clients[c]);
      GoKeeps(w1, c, Failing(code));
      EvolvesTransitive(w, w1, SaveFailsStep(w, c, committed, code));
    }
  }

  lemma RecordFailureKeeps(w: World, c: ClientId, committed: bool)
    requires Inv(w)
    ensures Keeps(w, RecordFailureStep(w, c, committed))
  {
    if RecordFailureStep(w, c, committed) != w {
      assert ClientOk(w, w.clients[c]);
      var k, code := w.clients[c].key, w.clients[c].place.code;
      var w1 := if committed then w.(ops := w.ops[k := MarkedFailed(w.ops[k], code)]) else w;
      if committed { WriteKeeps(w, k, MarkedFailed(w.ops[k], code)); }
      GiveKeeps(w1, c, Error(code));
      EvolvesTransitive(w, w1, RecordFailureStep(w, c, committed));
    }
  }

  lemma ClientsChangeKeeps(w: World, w': World)
    requires Inv(w) && w'.(now := w.now, clients := w.clients) == w
    requires forall d | d in w'.clients ::
             (d in w.clients && w'.clients[d] == w.clients[d]) || w'.clients[d].place == Reading
    ensures Keeps(w, w')
  {
    forall d | d in w'.clients ensures ClientOk(w', w'.clients[d]) {
      if d in w.clients { assert ClientOk(w, w.clients[d]); }
    }
    forall a | a in w'.answers ensures AnswerOk(w', a) { assert AnswerOk(w, a); }
  }

  lemma StepKeeps(w: World, step: Step)
    requires Inv(w)
    ensures Keeps(w, Apply(w, step))
  {
    match step
    case Tick(_) => ClientsChangeKeeps(w, Apply(w, step));
    case Arrive(_, _, _) => ClientsChangeKeeps(w, Apply(w, step));
    case Crash(_) => ClientsChangeKeeps(w, Apply(w, step));
    case Read(c) => ReadKeeps(w, c);
    case Insert(c) => InsertKeeps(w, c);
    case InsertFails(c, committed, code) => InsertFailsKeeps(w, c, committed, code);
    case Reread(c) => RereadKeeps(w, c);
    case Poll(c) => PollKeeps(w, c);
    case LaunchReturns(c, ws) => LaunchReturnsKeeps(w, c, ws);
    case LaunchThrows(c, code) => LaunchThrowsKeeps(w, c, code);
    case Save(c) => SaveKeeps(w, c);
    case SaveFails(c, committed, code) => SaveFailsKeeps(w, c, committed, code);
    case RecordFailure(c, committed) => RecordFailureKeeps(w, c, committed);
  }

  lemma {:induction false} ExecKeeps(w: World, steps: seq<Step>)
    requires Inv(w)
    ensures Inv(Exec(w, steps)) && Evolves(w, Exec(w, steps))
    decreases |steps|
  {
    if steps != [] {
      StepKeeps(w, steps[0]);
      ExecKeeps(Apply(w, steps[0]), steps[1..]);
    }
  }

  // ---------------------------------------------------------------------------------------------
  // Main results
  // ---------------------------------------------------------------------------------------------

  /** `launchWorkspaceInternal` runs at most once for a (user, key), and once an operation row exists,
      in whatever status, no later run of the system starts another. */
  lemma LaunchedAtMostOnce(steps: seq<Step>, more: seq<Step>, key: Key)
    ensures var w := Exec(Empty, steps);
            && Launches(w, key) <= 1
            && (key in w.ops ==> Launches(Exec(w, more), key) == Launches(w, key))
  {
    ExecKeeps(Empty, steps);
    ExecKeeps(Exec(Empty, steps), more);
  }

  /** All successful replies for a key name the workspace the one launch returned, and all come from
      requests with the hash of the operation; replies of reuse come from other hashes only. */
  lemma AnswersAgree(steps: seq<Step>, a: Answer, b: Answer)
    requires var w := Exec(Empty, steps); a in w.answers && b in w.answers && a.key == b.key && a.reply.Success?
    ensures var w := Exec(Empty, steps);
            && Launches(w, a.key) == 1 && a.key in w.made && a.reply.workspace == w.made[a.key]
            && (b.reply.Success? ==> b.hash == a.hash && b.reply.workspace == a.reply.workspace)
            && (b.reply.InProgress? ==> b.hash == a.hash)
            && (b.reply.KeyReused? ==> b.hash != a.hash)
  {
    var w := Exec(Empty, steps);
    ExecKeeps(Empty, steps);
    assert AnswerOk(w, a) && AnswerOk(w, b);
  }

  // Replies by the row.

  /** The client has its reply and is gone; nothing else has changed. */
  ghost predicate Replied(w: World, w': World, c: ClientId, reply: Reply) {
    c in w.clients && w' == w.(clients := w.clients - {c},
                               answers := w.answers + {Answer(w.clients[c].key, w.clients[c].hash, reply)})
  }

  /** The client begins to poll, now. */
  ghost predicate BeginsPolling(w: World, w': World, c: ClientId) {
    c in w.clients && w' == w.(clients := w.clients[c := Client(w.clients[c].key, w.clients[c].hash, Polling(w.now))])
  }

  lemma ErrorIs(op: Operation)
    ensures ErrorOf(op) == Error(if op.lastErrorCode.Some? && |op.lastErrorCode.value| > 0
                                 then op.lastErrorCode.value else "LAUNCH_OPERATION_FAILED")
  {
    if op.lastErrorCode.Some? && |op.lastErrorCode.value| == 0 { assert op.lastErrorCode.value == ""; }
  }

  /** What a client does with the row of its first read: a recorded workspace is always replayed to its
      hash, and polling begins exactly with the client's own hash, no workspace and no failure. */
  lemma ReadAnswers(w: World, c: ClientId)
    requires At(w, c, Reading) && w.clients[c].key in w.ops
    ensures var op, w' := w.ops[w.clients[c].key], Apply(w, Read(c));
            if op.hash != w.clients[c].hash then Replied(w, w', c, KeyReused)
            else if op.workspace.Some? then Replied(w, w', c, Success(op.workspace.value, true))
            else if op.status == FAILED then
              Replied(w, w', c, Error(if op.lastErrorCode.Some? && |op.lastErrorCode.value| > 0
                                      then op.lastErrorCode.value else "LAUNCH_OPERATION_FAILED"))
            else BeginsPolling(w, w', c)
  {
    ErrorIs(w.ops[w.clients[c].key]);
  }

  /** The same after a lost insert, where a FAILED operation is polled once before it is reported. */
  lemma RereadAnswers(w: World, c: ClientId)
    requires At(w, c, Rereading)
    ensures var k, w' := w.clients[c].key, Apply(w, Reread(c));
            if k in w.ops && w.ops[k].hash != w.clients[c].hash then Replied(w, w', c, KeyReused)
            else if k in w.ops && w.ops[k].workspace.Some?
              then Replied(w, w', c, Success(w.ops[k].workspace.value, true))
            else BeginsPolling(w, w', c)
  {
  }

  /** A poll within the five seconds replies exactly when the operation is settled, and with what it says;
      after them it replies that the operation is in progress. */
  lemma PollAnswers(w: World, c: ClientId)
    requires c in w.clients && w.clients[c].place.Polling? && w.clients[c].key in w.ops
    ensures var op, w' := w.ops[w.clients[c].key], Apply(w, Poll(c));
            if 5000 <= w.now - w.clients[c].place.since then Replied(w, w', c, InProgress)
            else if op.workspace.Some? then Replied(w, w', c, Success(op.workspace.value, true))
            else if op.status == FAILED then
              Replied(w, w', c, Error(if op.lastErrorCode.Some? && |op.lastErrorCode.value| > 0
                                      then op.lastErrorCode.value else "LAUNCH_OPERATION_FAILED"))
            else w' == w
  {
    ErrorIs(w.ops[w.clients[c].key]);
  }

  /** The step is a poll by a client that has polled the operation for five seconds. */
  predicate TimesOut(w: World, step: Step, a: Answer) {
    && step.Poll? && step.c in w.clients && w.clients[step.c].place.Polling?
    && 5000 <= w.now - w.clients[step.c].place.since
    && a == Answer(w.clients[step.c].key, w.clients[step.c].hash, InProgress)
  }

  /** A request is told that its operation is in progress by such a poll, and by no other step. */
  lemma InProgressIff(w: World, step: Step, a: Answer)
    requires a !in w.answers && a.reply == InProgress
    ensures a in Apply(w, step).answers <==> TimesOut(w, step, a)
  {
  }

  /** Of all replies in a run, each InProgress was given after five seconds of polling. */
  lemma {:induction false} InProgressTookPolling(w: World, steps: seq<Step>, a: Answer) returns (i: nat)
    requires a !in w.answers && a in Exec(w, steps).answers && a.reply == InProgress
    ensures i < |steps| && TimesOut(Exec(w, steps[..i]), steps[i], a)
    decreases |steps|
  {
    InProgressIff(w, steps[0], a);
    if a in Apply(w, steps[0]).answers {
      i := 0;
    } else {
      var j := InProgressTookPolling(Apply(w, steps[0]), steps[1..], a);
      i := j + 1;
      assert steps[..i][1..] == steps[1..][..j];
    }
  }

  // What a request brings about, alone.

  lemma ExecFirst(w: World, steps: seq<Step>, step: Step, rest: seq<Step>)
    requires steps == [step] + rest
    ensures Exec(w, steps) == Exec(Apply(w, step), rest)
  {
    assert steps[0] == step && steps[1..] == rest;
  }

  /** The world with the client at a place. */
  ghost function With(w: World, c: ClientId, key: Key, hash: Hash, place: Place): World {
    w.(clients := w.clients[c := Client(key, hash, place)])
  }

  ghost function Told(w: World, key: Key, hash: Hash, reply: Reply): World {
    w.(answers := w.answers + {Answer(key, hash, reply)})
  }

  /** The client has inserted the row of a new key. */
  ghost function Won(w: World, key: Key, hash: Hash): World {
    w.(ops := w.ops[key := Operation(hash, PROCESSING, None, None)], launches := w.launches[key := 1])
  }

  lemma Begins(w: World, c: ClientId, key: Key, hash: Hash)
    requires Inv(w) && c !in w.clients && key !in w.ops
    ensures Apply(w, Arrive(c, key, hash)) == With(w, c, key, hash, Reading)
    ensures Apply(With(w, c, key, hash, Reading), Read(c)) == With(w, c, key, hash, Inserting)
    ensures Apply(With(w, c, key, hash, Inserting), Insert(c)) == With(Won(w, key, hash), c, key, hash, Launching)
  {
  }

  lemma NewKeyIsWon(w: World, c: ClientId, key: Key, hash: Hash, rest: seq<Step>)
    requires Inv(w) && c !in w.clients && key !in w.ops
    ensures Exec(w, [Arrive(c, key, hash), Read(c), Insert(c)] + rest)
         == Exec(With(Won(w, key, hash), c, key, hash, Launching), rest)
  {
    Begins(w, c, key, hash);
    ExecFirst(w, [Arrive(c, key, hash), Read(c), Insert(c)] + rest, Arrive(c, key, hash), [Read(c), Insert(c)] + rest);
    ExecFirst(With(w, c, key, hash, Reading), [Read(c), Insert(c)] + rest, Read(c), [Insert(c)] + rest);
    ExecFirst(With(w, c, key, hash, Inserting), [Insert(c)] + rest, Insert(c), rest);
  }

  lemma Returns(w: World, c: ClientId, key: Key, hash: Hash, ws: WorkspaceId)
    ensures Apply(With(w, c, key, hash, Launching), LaunchReturns(c, ws))
         == With(w.(made := w.made[key := ws]), c, key, hash, Saving(ws))
  {
  }

  lemma Throws(w: World, c: ClientId, key: Key, hash: Hash, code: Code)
    ensures Apply(With(w, c, key, hash, Launching), LaunchThrows(c, code)) == With(w, c, key, hash, Failing(code))
  {
  }

  lemma Saves(w: World, c: ClientId, key: Key, hash: Hash, ws: WorkspaceId)
    requires c !in w.clients && key in w.ops
    ensures Apply(With(w, c, key, hash, Saving(ws)), Save(c))
         == Told(w.(ops := w.ops[key := Operation(w.ops[key].hash, COMPLETED, Some(ws), None)]), key, hash,
                 Success(ws, false))
  {
    assert w.clients[c := Client(key, hash, Saving(ws))] - {c} == w.clients;
  }

  lemma SavesUnheard(w: World, c: ClientId, key: Key, hash: Hash, ws: WorkspaceId, code: Code)
    requires key in w.ops
    ensures Apply(With(w, c, key, hash, Saving(ws)), SaveFails(c, true, code))
         == With(w.(ops := w.ops[key := Operation(w.ops[key].hash, COMPLETED, Some(ws), None)]), c, key, hash,
                 Failing(code))
  {
  }

  lemma Records(w: World, c: ClientId, key: Key, hash: Hash, code: Code)
    requires c !in w.clients && key in w.ops
    ensures Apply(With(w, c, key, hash, Failing(code)), RecordFailure(c, true))
         == Told(w.(ops := w.ops[key := Operation(w.ops[key].hash, FAILED, w.ops[key].workspace, Some(code))]), key,
                 hash,
                 Error(code))
  {
    assert w.clients[c := Client(key, hash, Failing(code))] - {c} == w.clients;
  }

  /** After any run the request of a new key launches: when the launch returns a workspace, the operation is
      COMPLETED with it and the request is told so; when it throws, the operation has FAILED with that
      error, and so is the request told. */
  lemma NewKeyLaunches(steps: seq<Step>, c: ClientId, key: Key, hash: Hash, ws: WorkspaceId, code: Code)
    requires c !in Exec(Empty, steps).clients && key !in Exec(Empty, steps).ops
    ensures var w := Exec(Empty, steps);
            var made := Exec(w, [Arrive(c, key, hash), Read(c), Insert(c)] + [LaunchReturns(c, ws), Save(c)]);
            var threw := Exec(w,
                        [Arrive(c, key, hash), Read(c), Insert(c)] + [LaunchThrows(c, code), RecordFailure(c, true)]);
            && made == w.(ops := w.ops[key := Operation(hash, COMPLETED, Some(ws), None)],
                          launches := w.launches[key := 1], made := w.made[key := ws],
                          answers := w.answers + {Answer(key, hash, Success(ws, false))})
            && threw == w.(ops := w.ops[key := Operation(hash, FAILED, None, Some(code))],
                           launches := w.launches[key := 1], answers := w.answers + {Answer(key, hash, Error(code))})
  {
    var w := Exec(Empty, steps);
    ExecKeeps(Empty, steps);
    NewKeyIsWon(w, c, key, hash, [LaunchReturns(c, ws), Save(c)]);
    NewKeyIsWon(w, c, key, hash, [LaunchThrows(c, code), RecordFailure(c, true)]);
    WinnerSaves(w, c, key, hash, ws);
    WinnerFails(w, c, key, hash, code);
  }

  lemma WinnerSaves(w: World, c: ClientId, key: Key, hash: Hash, ws: WorkspaceId)
    requires c !in w.clients
    ensures Exec(With(Won(w, key, hash), c, key, hash, Launching), [LaunchReturns(c, ws), Save(c)])
         == Told(w.(ops := w.ops[key := Operation(hash, COMPLETED, Some(ws), None)], launches := w.launches[key := 1],
                    made := w.made[key := ws]), key, hash, Success(ws, false))
  {
    var won := Won(w, key, hash);
    var made := won.(made := won.made[key := ws]);
    Returns(won, c, key, hash, ws);
    Saves(made, c, key, hash, ws);
    ExecFirst(With(won, c, key, hash, Launching), [LaunchReturns(c, ws), Save(c)], LaunchReturns(c, ws), [Save(c)]);
    ExecOne(With(made, c, key, hash, Saving(ws)), Save(c));
  }

  lemma WinnerFails(w: World, c: ClientId, key: Key, hash: Hash, code: Code)
    requires c !in w.clients
    ensures Exec(With(Won(w, key, hash), c, key, hash, Launching), [LaunchThrows(c, code), RecordFailure(c, true)])
         == Told(w.(ops := w.ops[key := Operation(hash, FAILED, None, Some(code))],
                    launches := w.launches[key := 1]), key,
                 hash, Error(code))
  {
    var won := Won(w, key, hash);
    Throws(won, c, key, hash, code);
    Records(won, c, key, hash, code);
    ExecFirst(With(won, c, key, hash, Launching), [LaunchThrows(c, code), RecordFailure(c, true)],
              LaunchThrows(c, code),
              [RecordFailure(c, true)]);
    ExecOne(With(won, c, key, hash, Failing(code)), RecordFailure(c, true));
  }

  lemma WinnerSavesUnheard(w: World, c: ClientId, key: Key, hash: Hash, ws: WorkspaceId, code: Code)
    requires c !in w.clients
    ensures Exec(With(Won(w, key, hash), c, key, hash, Launching),
                 [LaunchReturns(c, ws), SaveFails(c, true, code), RecordFailure(c, true)])
         == Told(w.(ops := w.ops[key := Operation(hash, FAILED, Some(ws), Some(code))],
                    launches := w.launches[key := 1],
                    made := w.made[key := ws]), key, hash, Error(code))
  {
    var won := Won(w, key, hash);
    var made := won.(made := won.made[key := ws]);
    var saved := made.(ops := made.ops[key := Operation(hash, COMPLETED, Some(ws), None)]);
    Returns(won, c, key, hash, ws);
    SavesUnheard(made, c, key, hash, ws, code);
    Records(saved, c, key, hash, code);
    ExecFirst(With(won, c, key, hash, Launching),
              [LaunchReturns(c, ws), SaveFails(c, true, code), RecordFailure(c, true)],
              LaunchReturns(c, ws), [SaveFails(c, true, code), RecordFailure(c, true)]);
    ExecFirst(With(made, c, key, hash, Saving(ws)), [SaveFails(c, true, code), RecordFailure(c, true)],
              SaveFails(c, true, code), [RecordFailure(c, true)]);
    ExecOne(With(saved, c, key, hash, Failing(code)), RecordFailure(c, true));
  }

  /** When the save of the workspace is committed but reports an error, the request is told of the error and
      the operation is FAILED with its workspace; a repeated request is given that workspace. */
  lemma UnheardSaveIsReplayed(steps: seq<Step>, c: ClientId, key: Key, hash: Hash, ws: WorkspaceId, code: Code)
    requires c !in Exec(Empty, steps).clients && key !in Exec(Empty, steps).ops
    ensures var w := Exec(Empty, steps);
            var lost := Exec(w, [Arrive(c, key, hash), Read(c), Insert(c)]
                                + [LaunchReturns(c, ws), SaveFails(c, true, code), RecordFailure(c, true)]);
            var again := Exec(lost, [Arrive(c, key, hash), Read(c)]);
            && key in lost.ops && lost.ops[key] == Operation(hash, FAILED, Some(ws), Some(code))
            && lost.answers == w.answers + {Answer(key, hash, Error(code))}
            && again.answers == lost.answers + {Answer(key, hash, Success(ws, true))}
  {
    var w := Exec(Empty, steps);
    ExecKeeps(Empty, steps);
    var rest := [LaunchReturns(c, ws), SaveFails(c, true, code), RecordFailure(c, true)];
    NewKeyIsWon(w, c, key, hash, rest);
    WinnerSavesUnheard(w, c, key, hash, ws, code);
    KnownKeyIsRead(Exec(With(Won(w, key, hash), c, key, hash, Launching), rest), c, key, hash);
  }

  /** A request for a key with a row takes its reply from the row, or begins to poll; one whose insert came
      second reads that row again. */
  lemma KnownKeyIsRead(w: World, c: ClientId, key: Key, hash: Hash)
    requires c !in w.clients && key in w.ops
    ensures var w' := Exec(w, [Arrive(c, key, hash), Read(c)]);
            var op := w.ops[key];
            && w'.ops == w.ops && w'.launches == w.launches
            && (op.hash == hash && op.workspace.Some? ==>
                  w' == w.(answers := w.answers + {Answer(key, hash, Success(op.workspace.value, true))}))
            && (op.hash != hash ==> w' == w.(answers := w.answers + {Answer(key, hash, KeyReused)}))
  {
    var w1 := w.(clients := w.clients[c := Client(key, hash, Reading)]);
    ExecFirst(w, [Arrive(c, key, hash), Read(c)], Arrive(c, key, hash), [Read(c)]);
    ExecOne(w1, Read(c));
    assert w1.clients - {c} == w.clients;
  }

  lemma SecondInsertRereads(w: World, c: ClientId)
    requires At(w, c, Inserting) && w.clients[c].key in w.ops
    ensures Apply(w, Insert(c))
         == w.(clients := w.clients[c := Client(w.clients[c].key, w.clients[c].hash, Rereading)])
  {
  }

  // Failed operations.

  /** Whoever executes an operation finds it not FAILED: its failure is the executor's last write. */
  ghost predicate FailedIsIdle(w: World) {
    forall c | c in w.clients && Executing(w.clients[c]) ::
      w.clients[c].key in w.ops && w.ops[w.clients[c].key].status != FAILED
  }

  /** Only the executor's last write sets an operation FAILED, and it leaves. */
  lemma RecordFailureIdles(w: World, c: ClientId, committed: bool)
    requires Inv(w) && FailedIsIdle(w)
    ensures FailedIsIdle(RecordFailureStep(w, c, committed))
  {
    var w' := RecordFailureStep(w, c, committed);
    if w' != w {
      forall d | d in w'.clients && Executing(w'.clients[d])
        ensures w'.clients[d].key in w'.ops && w'.ops[w'.clients[d].key].status != FAILED
      {
        assert d in w.clients && w.clients[d].key != w.clients[c].key;
      }
    }
  }

  /** The other writes of an execution. */
  lemma SavesIdle(w: World, step: Step)
    requires Inv(w) && FailedIsIdle(w) && (step.Save? || step.SaveFails?)
    ensures FailedIsIdle(Apply(w, step))
  {
    var w' := Apply(w, step);
    forall d | d in w'.clients && Executing(w'.clients[d])
      ensures w'.clients[d].key in w'.ops && w'.ops[w'.clients[d].key].status != FAILED
    {
      assert d in w.clients && Executing(w.clients[d]) && w'.clients[d].key == w.clients[d].key;
    }
  }

  lemma InsertsIdle(w: World, step: Step)
    requires Inv(w) && FailedIsIdle(w) && (step.Insert? || step.InsertFails?)
    ensures FailedIsIdle(Apply(w, step))
  {
  }

  /** The operations are as they were, and nobody began to execute. */
  ghost predicate NobodyBegins(w: World, w': World) {
    && w'.ops == w.ops
    && forall d | d in w'.clients && Executing(w'.clients[d]) ::
         d in w.clients && Executing(w.clients[d]) && w'.clients[d].key == w.clients[d].key
  }

  lemma LooksBeginNothing(w: World, step: Step)
    requires step.Read? || step.Reread? || step.Poll?
    ensures NobodyBegins(w, Apply(w, step))
  {
  }

  lemma ReturnsBeginNothing(w: World, step: Step)
    requires step.LaunchReturns? || step.LaunchThrows?
    ensures NobodyBegins(w, Apply(w, step))
  {
  }

  predicate WritesOperations(step: Step) {
    step.Insert? || step.InsertFails? || step.Save? || step.SaveFails? || step.RecordFailure?
  }

  /** The other steps leave the operations alone and begin no execution. */
  lemma OthersBeginNothing(w: World, step: Step)
    requires !WritesOperations(step)
    ensures NobodyBegins(w, Apply(w, step))
  {
    match step
    case Read(_) => LooksBeginNothing(w, step);
    case Reread(_) => LooksBeginNothing(w, step);
    case Poll(_) => LooksBeginNothing(w, step);
    case LaunchReturns(_, _) => ReturnsBeginNothing(w, step);
    case LaunchThrows(_, _) => ReturnsBeginNothing(w, step);
    case _ =>
  }

  lemma IdleStep(w: World, step: Step)
    requires Inv(w) && FailedIsIdle(w)
    ensures FailedIsIdle(Apply(w, step))
  {
    match step
    case Insert(_) => InsertsIdle(w, step);
    case InsertFails(_, _, _) => InsertsIdle(w, step);
    case Save(_) => SavesIdle(w, step);
    case SaveFails(_, _, _) => SavesIdle(w, step);
    case RecordFailure(c, committed) => RecordFailureIdles(w, c, committed);
    case _ => OthersBeginNothing(w, step);
  }

  lemma {:induction false} ExecIdle(w: World, steps: seq<Step>)
    requires Inv(w) && FailedIsIdle(w)
    ensures FailedIsIdle(Exec(w, steps))
    decreases |steps|
  {
    if steps != [] {
      StepKeeps(w, steps[0]);
      IdleStep(w, steps[0]);
      ExecIdle(Apply(w, steps[0]), steps[1..]);
    }
  }

  /** An operation that FAILED without a workspace. */
  ghost predicate Failed(w: World, key: Key) {
    key in w.ops && w.ops[key].status == FAILED && w.ops[key].workspace.None?
  }

  /** Any step that rewrites an operation is its executor's, so a FAILED one keeps its row. */
  lemma FailedStep(w: World, step: Step, key: Key)
    requires Inv(w) && FailedIsIdle(w) && Failed(w, key)
    ensures key in Apply(w, step).ops && Apply(w, step).ops[key] == w.ops[key]
  {
  }

  lemma {:induction false} FailedStays(w: World, steps: seq<Step>, key: Key)
    requires Inv(w) && FailedIsIdle(w) && Failed(w, key)
    ensures var w' := Exec(w, steps);
            Inv(w') && key in w'.ops && w'.ops[key] == w.ops[key] && Launches(w', key) == Launches(w, key)
    decreases |steps|
  {
    if steps != [] {
      StepKeeps(w, steps[0]);
      IdleStep(w, steps[0]);
      FailedStep(w, steps[0], key);
      FailedStays(Apply(w, steps[0]), steps[1..], key);
    }
  }

  /** In every run an operation that has FAILED without a workspace keeps its row for ever: it is never
      launched again and never answers with success. */
  lemma FailedIsNeverReexecuted(steps: seq<Step>, more: seq<Step>, key: Key)
    requires Failed(Exec(Empty, steps), key)
    ensures var w, w' := Exec(Empty, steps), Exec(Exec(Empty, steps), more);
            && key in w'.ops && w'.ops[key] == w.ops[key] && Launches(w', key) == Launches(w, key)
            && forall a | a in w'.answers && a.key == key :: !a.reply.Success?
  {
    ExecKeeps(Empty, steps);
    ExecIdle(Empty, steps);
    FailedStays(Exec(Empty, steps), more, key);
    var w' := Exec(Exec(Empty, steps), more);
    forall a | a in w'.answers && a.key == key ensures !a.reply.Success? {
      assert AnswerOk(w', a);
    }
  }

  /** A launch that throws ends so, if its failure is recorded; after a save that committed, but reported
      an error, the row is FAILED with its workspace, and later requests get that workspace. */
  lemma RecordedFailureIff(w: World, c: ClientId)
    requires Inv(w) && c in w.clients && w.clients[c].place.Failing?
    ensures var key, hash, w' := w.clients[c].key, w.clients[c].hash, RecordFailureStep(w, c, true);
            && key in w'.ops && w'.ops[key].status == FAILED
            && (Failed(w', key) <==> w.ops[key].workspace.None?)
            && (w.ops[key].workspace.Some? ==>
                  key in w.made && OnExisting(w'.ops[key], hash) == Some(Success(w.made[key], true)))
  {
    assert ClientOk(w, w.clients[c]);
  }

  // Stuck operations.

  /** A request that polls gets no answer from it. */
  ghost predicate Unsettled(w: World, key: Key) {
    key in w.ops && OnPoll(w.ops[key]).None?
  }

  predicate Executes(w: World, c: ClientId, key: Key) {
    c in w.clients && Executing(w.clients[c]) && w.clients[c].key == key
  }

  /** No workspace, no failure, and nobody left to bring either about. */
  ghost predicate Stuck(w: World, key: Key) {
    Unsettled(w, key) && forall c :: !Executes(w, c, key)
  }

  lemma NobodyBeginsKeepsStuck(w: World, w': World, key: Key)
    requires Stuck(w, key) && NobodyBegins(w, w')
    ensures Stuck(w', key) && w'.ops[key] == w.ops[key]
  {
    forall c ensures !Executes(w', c, key) {
      assert !Executes(w, c, key);
    }
  }

  /** An insert finds the row, and executes nothing. */
  lemma InsertsKeepStuck(w: World, step: Step, key: Key)
    requires Inv(w) && Stuck(w, key) && (step.Insert? || step.InsertFails?)
    ensures Stuck(Apply(w, step), key) && Apply(w, step).ops[key] == w.ops[key]
  {
    forall c ensures !Executes(Apply(w, step), c, key) {
      assert !Executes(w, c, key);
    }
  }

  /** The writes of an execution are of another operation. */
  lemma WritesKeepStuck(w: World, step: Step, key: Key)
    requires Inv(w) && Stuck(w, key) && (step.Save? || step.SaveFails? || step.RecordFailure?)
    ensures Stuck(Apply(w, step), key) && Apply(w, step).ops[key] == w.ops[key]
  {
    assert !Executes(w, step.c, key);
    forall c ensures !Executes(Apply(w, step), c, key) {
      assert !Executes(w, c, key);
    }
  }

  lemma StuckStep(w: World, step: Step, key: Key)
    requires Inv(w) && Stuck(w, key)
    ensures Stuck(Apply(w, step), key) && Apply(w, step).ops[key] == w.ops[key]
  {
    match step
    case Insert(_) => InsertsKeepStuck(w, step, key);
    case InsertFails(_, _, _) => InsertsKeepStuck(w, step, key);
    case Save(_) => WritesKeepStuck(w, step, key);
    case SaveFails(_, _, _) => WritesKeepStuck(w, step, key);
    case RecordFailure(_, _) => WritesKeepStuck(w, step, key);
    case _ => OthersBeginNothing(w, step); NobodyBeginsKeepsStuck(w, Apply(w, step), key);
  }

  lemma {:induction false} StuckStays(w: World, steps: seq<Step>, key: Key)
    requires Inv(w) && Stuck(w, key)
    ensures var w' := Exec(w, steps); Inv(w') && Stuck(w', key) && w'.ops[key] == w.ops[key]
    decreases |steps|
  {
    if steps != [] {
      StuckStep(w, steps[0], key);
      StepKeeps(w, steps[0]);
      StuckStays(Apply(w, steps[0]), steps[1..], key);
    }
  }

  /** Its executor can settle an operation. */
  lemma ExecutorSettles(w: World, c: ClientId, key: Key) returns (steps: seq<Step>)
    requires Inv(w) && Executes(w, c, key)
    ensures !Unsettled(Exec(w, steps), key)
  {
    assert ClientOk(w, w.clients[c]);
    match w.clients[c].place
    case Launching =>
      steps := [LaunchReturns(c, 0), Save(c)];
      var w1 := LaunchReturnsStep(w, c, 0);
      assert steps[1..] == [Save(c)];
      ExecOne(w1, Save(c));
    case Saving(_) =>
      steps := [Save(c)];
      ExecOne(w, Save(c));
    case Failing(_) =>
      steps := [RecordFailure(c, true)];
      ExecOne(w, RecordFailure(c, true));
    case _ =>
  }

  lemma ExecOne(w: World, step: Step)
    ensures Exec(w, [step]) == Apply(w, step)
  {
    assert Exec(Apply(w, step), [step][1..]) == Apply(w, step);
  }

  /** An operation that is not stuck can be settled, if it is not settled now. */
  lemma UnstuckSettles(w: World, key: Key) returns (more: seq<Step>)
    requires Inv(w) && !Stuck(w, key)
    ensures !Unsettled(Exec(w, more), key)
  {
    if c :| Executes(w, c, key) {
      more := ExecutorSettles(w, c, key);
    } else {
      more := [];
    }
  }

  /** In every run: an operation gives polling requests no answer for ever exactly when it has no
      workspace, has not FAILED, and its executor is gone. */
  lemma StuckForEverIff(steps: seq<Step>, key: Key)
    ensures (forall more :: Unsettled(Exec(Exec(Empty, steps), more), key)) <==> Stuck(Exec(Empty, steps), key)
  {
    var w := Exec(Empty, steps);
    ExecKeeps(Empty, steps);
    if Stuck(w, key) {
      forall more ensures Unsettled(Exec(w, more), key) {
        StuckStays(w, more, key);
      }
    } else {
      var more := UnstuckSettles(w, key);
    }
  }

  /** The executor of an unsettled operation is lost, or a row is inserted that nobody will execute. */
  ghost predicate LosesExecution(w: World, step: Step, key: Key) {
    match step
    case Crash(c) => Executes(w, c, key) && Unsettled(w, key)
    case RecordFailure(c, committed) =>
      Executes(w, c, key) && w.clients[c].place.Failing? && !committed && Unsettled(w, key)
    case InsertFails(c, committed, _) => At(w, c, Inserting) && w.clients[c].key == key && committed && key !in w.ops
    case _ => false
  }

  /** Nobody but the given client executes the operation. */
  lemma OnlyExecutor(w: World, c: ClientId, d: ClientId, key: Key)
    requires Inv(w) && Executes(w, c, key) && Executes(w, d, key)
    ensures c == d
  {
  }

  lemma NoRowNoExecutor(w: World, c: ClientId, key: Key)
    requires Inv(w) && key !in w.ops
    ensures !Executes(w, c, key)
  {
    if c in w.clients { assert ClientOk(w, w.clients[c]); }
  }

  lemma LossSticks(w: World, step: Step, key: Key)
    requires Inv(w) && LosesExecution(w, step, key)
    ensures Stuck(Apply(w, step), key)
  {
    var w' := Apply(w, step);
    forall d ensures !Executes(w', d, key) {
      if step.InsertFails? {
        NoRowNoExecutor(w, d, key);
      } else if Executes(w, d, key) {
        OnlyExecutor(w, step.c, d, key);
      }
    }
  }

  /** An executor that does not lose its operation goes on with it, or leaves it settled. */
  lemma ExecutorGoesOn(w: World, step: Step, c: ClientId, key: Key)
    requires Inv(w) && Executes(w, c, key) && !LosesExecution(w, step, key)
    ensures Executes(Apply(w, step), c, key) || !Unsettled(Apply(w, step), key)
  {
    assert ClientOk(w, w.clients[c]);
  }

  /** What is settled stays so. */
  lemma SettledStays(w: World, step: Step, key: Key)
    requires Inv(w) && key in w.ops && !Unsettled(w, key)
    ensures !Unsettled(Apply(w, step), key) || exists c :: Executes(w, c, key)
  {
  }

  /** A row that is inserted without being lost has its executor. */
  lemma InsertedIsExecuted(w: World, step: Step, key: Key)
    requires Inv(w) && key !in w.ops && key in Apply(w, step).ops && !LosesExecution(w, step, key)
    ensures step.Insert? && Executes(Apply(w, step), step.c, key)
  {
  }

  /** One step gets an operation stuck exactly when the executor of an unsettled operation crashes or
      fails to record its failure, or when an insert that reports an error has been committed. */
  lemma SticksIff(w: World, step: Step, key: Key)
    requires Inv(w) && FailedIsIdle(w) && !Stuck(w, key)
    ensures Stuck(Apply(w, step), key) <==> LosesExecution(w, step, key)
  {
    if LosesExecution(w, step, key) {
      LossSticks(w, step, key);
    } else if key !in w.ops {
      if key in Apply(w, step).ops { InsertedIsExecuted(w, step, key); }
    } else if c :| Executes(w, c, key) {
      ExecutorGoesOn(w, step, c, key);
    } else {
      SettledStays(w, step, key);
    }
  }
}
