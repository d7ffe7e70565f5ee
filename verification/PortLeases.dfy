/**
 The gateway's port leases.

 The lease table is durable; the gateway keeps a cache of it (`activeAllocations`) and the set of
 ports it will not hand out (`allocatedPorts`), both lost in a crash and rebuilt on boot.  A step is
 one database access, one resumption of a handler after an `await`, a release or status change made
 by another service, a crash, or a step of the boot reconciliation.  At most one request per
 workspace is in flight.  Each port column of the table is unique over all its rows, released ones
 included.
 */
module PortLeases {
  import opened Wrappers

  type WorkspaceId = nat

  const PORT_RANGE_START: nat := 20000
  const PORT_RANGE_END: nat := 40000
  const MAX_PICKS: nat := 1000

  datatype Ports = Ports(ssh: nat, jupyter: nat, vscode: nat) {
    function All(): set<nat> {
      {ssh, jupyter, vscode}
    }

    predicate Valid() {
      && ssh != jupyter && jupyter != vscode && ssh != vscode
      && forall p | p in All() :: PORT_RANGE_START <= p < PORT_RANGE_END
    }
  }

  datatype Lease = Lease(ports: Ports, released: bool)

  // ---------------------------------------------------------------------------------------------
  // Picking ports
  // ---------------------------------------------------------------------------------------------

  /** A result of `Math.random()`. */
  type Draw = r: real | 0.0 <= r < 1.0 witness 0.0

  function Candidate(r: Draw): (port: nat)
    ensures PORT_RANGE_START <= port < PORT_RANGE_END
  {
    (r * (PORT_RANGE_END - PORT_RANGE_START) as real).Floor + PORT_RANGE_START
  }

  /** Every port of the range can be drawn. */
  lemma CandidateReaches(port: nat) returns (r: Draw)
    requires PORT_RANGE_START <= port < PORT_RANGE_END
    ensures Candidate(r) == port
  {
    var x := (port - PORT_RANGE_START) as real / 20000.0;
    r := x;
    assert x * 20000.0 == (port - PORT_RANGE_START) as real;
  }

  /** The first free candidate among the draws from the `from`-th on, of 1000 in all. */
  function UniquePort(taken: set<nat>, draws: nat -> Draw, from: nat): (port: Option<nat>)
    ensures port.Some? ==> port.value !in taken && PORT_RANGE_START <= port.value < PORT_RANGE_END
    decreases MAX_PICKS - from
  {
    if from >= MAX_PICKS then None
    else if Candidate(draws(from)) !in taken then Some(Candidate(draws(from)))
    else UniquePort(taken, draws, from + 1)
  }

  /** The pool counts as exhausted exactly when all thousand candidates are taken. */
  lemma {:induction false} ExhaustedIff(taken: set<nat>, draws: nat -> Draw, from: nat)
    ensures UniquePort(taken, draws, from) == None
            <==> forall i: nat | from <= i < MAX_PICKS :: Candidate(draws(i)) in taken
    decreases MAX_PICKS - from
  {
    if from < MAX_PICKS {
      ExhaustedIff(taken, draws, from + 1);
    }
  }

  datatype Draws = Draws(ssh: nat -> Draw, jupyter: nat -> Draw, vscode: nat -> Draw)

  /** Three picks in a row; a pick that fails leaves the earlier ones in the set. */
  datatype Picked = Picked(taken: set<nat>, ports: Option<Ports>)

  function PickThree(taken: set<nat>, d: Draws): (r: Picked)
    ensures taken <= r.taken
    ensures r.ports.Some?
            ==> r.ports.value.Valid() && r.ports.value.All() !! taken && r.taken == taken + r.ports.value.All()
  {
    var a := UniquePort(taken, d.ssh, 0);
    if a.None? then Picked(taken, None) else
      var taken1 := taken + {a.value};
      var b := UniquePort(taken1, d.jupyter, 0);
      if b.None? then Picked(taken1, None) else
        var taken2 := taken1 + {b.value};
        var c := UniquePort(taken2, d.vscode, 0);
        if c.None? then Picked(taken2, None)
        else Picked(taken2 + {c.value}, Some(Ports(a.value, b.value, c.value)))
  }

  // ---------------------------------------------------------------------------------------------
  // The system
  // ---------------------------------------------------------------------------------------------

  /** Where the one request in flight for a workspace stands. */
  datatype Pending =
    | AllocateReads
    | AllocateRead(lease: Option<Lease>)
    | AllocateWrites(ports: Ports, committed: bool)
    | ReleaseWrites(committed: bool)

  datatype Phase = Down | Loaded | Scanned(stale: set<WorkspaceId>) | Up

  datatype World = World(
    leases: map<WorkspaceId, Lease>,
    terminal: set<WorkspaceId>,
    phase: Phase,
    cache: map<WorkspaceId, Ports>,
    taken: set<nat>,
    pending: map<WorkspaceId, Pending>)

  datatype Step =
    | Allocate(ws: WorkspaceId)
    | ReadLease(ws: WorkspaceId)
    | ResumeAllocate(ws: WorkspaceId, draws: Draws)
    | ReadFails(ws: WorkspaceId)
    | CommitLease(ws: WorkspaceId)
    | AckLease(ws: WorkspaceId)
    | LeaseWriteFails(ws: WorkspaceId)
    | LeaseReplyLost(ws: WorkspaceId)
    | Release(ws: WorkspaceId)
    | CommitRelease(ws: WorkspaceId)
    | AckRelease(ws: WorkspaceId)
    | ReleaseWriteFails(ws: WorkspaceId)
    | ReleasedElsewhere(ws: WorkspaceId)
    | StatusChanges(ws: WorkspaceId, terminal: bool)
    | Crash
    | BootLoad
    | BootScan
    | BootDrop(ws: WorkspaceId)
    | BootDone

  const Empty: World := World(map[], {}, Down, map[], {}, map[])

  predicate Live(leases: map<WorkspaceId, Lease>, ws: WorkspaceId) {
    ws in leases && !leases[ws].released
  }

  function LeaseOf(leases: map<WorkspaceId, Lease>, ws: WorkspaceId): Option<Lease> {
    if ws in leases then Some(leases[ws]) else None
  }

  function Released(leases: map<WorkspaceId, Lease>, ws: WorkspaceId): map<WorkspaceId, Lease> {
    if ws in leases then leases[ws := leases[ws].(released := true)] else leases
  }

  predicate SameColumn(p: Ports, q: Ports) {
    p.ssh == q.ssh || p.jupyter == q.jupyter || p.vscode == q.vscode
  }

  /** The unique columns let a workspace's row take these ports: no other row, released or not, has one
      of them in the same column. */
  predicate Accepts(leases: map<WorkspaceId, Lease>, ws: WorkspaceId, ports: Ports) {
    forall other | other in leases && other != ws :: !SameColumn(leases[other].ports, ports)
  }

  function LivePorts(leases: map<WorkspaceId, Lease>): map<WorkspaceId, Ports> {
    map ws | ws in leases && Live(leases, ws) :: leases[ws].ports
  }

  ghost function AllPorts(m: map<WorkspaceId, Ports>): set<nat> {
    set ws, p | ws in m && p in m[ws].All() :: p
  }

  function Done(w: World, ws: WorkspaceId): World {
    w.(pending := w.pending - {ws})
  }

  function Wait(w: World, ws: WorkspaceId, p: Pending): World {
    w.(pending := w.pending[ws := p])
  }

  function Remember(w: World, ws: WorkspaceId, p: Ports): World {
    w.(cache := w.cache[ws := p], taken := w.taken + p.All())
  }

  function Forget(w: World, ws: WorkspaceId): World {
    if ws in w.cache then w.(cache := w.cache - {ws}, taken := w.taken - w.cache[ws].All()) else w
  }

  predicate At(w: World, ws: WorkspaceId, p: Pending) {
    w.phase == Up && ws in w.pending && w.pending[ws] == p
  }

  /** The handler's synchronous start: a cached lease is the reply, otherwise the database is asked. */
  function AllocateStep(w: World, ws: WorkspaceId): World {
    if w.phase == Up && ws !in w.pending && ws !in w.cache then Wait(w, ws, AllocateReads) else w
  }

  function ReadStep(w: World, ws: WorkspaceId): World {
    if At(w, ws, AllocateReads) then Wait(w, ws, AllocateRead(LeaseOf(w.leases, ws))) else w
  }

  /** A live lease is re-cached; otherwise three ports are picked and the write is sent. */
  function ResumeStep(w: World, ws: WorkspaceId, d: Draws): World {
    if !(w.phase == Up && ws in w.pending && w.pending[ws].AllocateRead?) then w
    else
      var lease := w.pending[ws].lease;
      if lease.Some? && !lease.value.released then Done(Remember(w, ws, lease.value.ports), ws)
      else
        var r := PickThree(w.taken, d);
        if r.ports.None? then Done(w.(taken := r.taken), ws)
        else Wait(w.(taken := r.taken), ws, AllocateWrites(r.ports.value, false))
  }

  function ReadFailsStep(w: World, ws: WorkspaceId): World {
    if At(w, ws, AllocateReads) then Done(w, ws) else w
  }

  predicate Writing(w: World, ws: WorkspaceId, committed: bool) {
    w.phase == Up && ws in w.pending && w.pending[ws].AllocateWrites? && w.pending[ws].committed == committed
  }

  /** The upsert commits unless another row stands in its way. */
  function CommitLeaseStep(w: World, ws: WorkspaceId): World {
    if Writing(w, ws, false) && Accepts(w.leases, ws, w.pending[ws].ports) then
      var ports := w.pending[ws].ports;
      Wait(w.(leases := w.leases[ws := Lease(ports, false)]), ws, AllocateWrites(ports, true))
    else w
  }

  function AckLeaseStep(w: World, ws: WorkspaceId): World {
    if Writing(w, ws, true) then Done(w.(cache := w.cache[ws := w.pending[ws].ports]), ws) else w
  }

  /** The handler's rollback: the three ports are free again. */
  function RollBack(w: World, ws: WorkspaceId): World
    requires ws in w.pending && w.pending[ws].AllocateWrites?
  {
    Done(w.(taken := w.taken - w.pending[ws].ports.All()), ws)
  }

  /** The upsert is refused or fails. */
  function LeaseWriteFailsStep(w: World, ws: WorkspaceId): World {
    if Writing(w, ws, false) then RollBack(w, ws) else w
  }

  /** The upsert commits, but the handler gets an error. */
  function LeaseReplyLostStep(w: World, ws: WorkspaceId): World {
    if Writing(w, ws, true) then RollBack(w, ws) else w
  }

  function ReleaseStep(w: World, ws: WorkspaceId): World {
    if w.phase == Up && ws !in w.pending then Wait(w, ws, ReleaseWrites(false)) else w
  }

  function CommitReleaseStep(w: World, ws: WorkspaceId): World {
    if At(w, ws, ReleaseWrites(false)) then Wait(w.(leases := Released(w.leases, ws)), ws, ReleaseWrites(true)) else w
  }

  function AckReleaseStep(w: World, ws: WorkspaceId): World {
    if At(w, ws, ReleaseWrites(true)) then Done(Forget(w, ws), ws) else w
  }

  function ReleaseWriteFailsStep(w: World, ws: WorkspaceId): World {
    if At(w, ws, ReleaseWrites(false)) then Done(w, ws) else w
  }

  /** A write not committed by then never commits. */
  function CrashStep(w: World): World {
    w.(phase := Down, cache := map[], taken := {}, pending := map[])
  }

  ghost function BootLoadStep(w: World): World {
    if w.phase == Down then w.(phase := Loaded, cache := LivePorts(w.leases), taken := AllPorts(LivePorts(w.leases)))
      else w
  }

  function StaleLeases(leases: map<WorkspaceId, Lease>, terminal: set<WorkspaceId>): set<WorkspaceId> {
    set ws | ws in leases && Live(leases, ws) && ws in terminal
  }

  function BootScanStep(w: World): World {
    if w.phase == Loaded then w.(phase := Scanned(StaleLeases(w.leases, w.terminal))) else w
  }

  /** A stale lease is released in the table, then dropped from the cache. */
  function BootDropStep(w: World, ws: WorkspaceId): World {
    if w.phase.Scanned? && ws in w.phase.stale
    then Forget(w.(leases := Released(w.leases, ws), phase := Scanned(w.phase.stale - {ws})), ws)
    else w
  }

  function BootDoneStep(w: World): World {
    if w.phase == Scanned({}) then w.(phase := Up) else w
  }

  ghost function Apply(w: World, step: Step): World {
    match step
    case Allocate(ws) => AllocateStep(w, ws)
    case ReadLease(ws) => ReadStep(w, ws)
    case ResumeAllocate(ws, draws) => ResumeStep(w, ws, draws)
    case ReadFails(ws) => ReadFailsStep(w, ws)
    case CommitLease(ws) => CommitLeaseStep(w, ws)
    case AckLease(ws) => AckLeaseStep(w, ws)
    case LeaseWriteFails(ws) => LeaseWriteFailsStep(w, ws)
    case LeaseReplyLost(ws) => LeaseReplyLostStep(w, ws)
    case Release(ws) => ReleaseStep(w, ws)
    case CommitRelease(ws) => CommitReleaseStep(w, ws)
    case AckRelease(ws) => AckReleaseStep(w, ws)
    case ReleaseWriteFails(ws) => ReleaseWriteFailsStep(w, ws)
    case ReleasedElsewhere(ws) => w.(leases := Released(w.leases, ws))
    case StatusChanges(ws, terminal) => w.(terminal := if terminal then w.terminal + {ws} else w.terminal - {ws})
    case Crash => CrashStep(w)
    case BootLoad => BootLoadStep(w)
    case BootScan => BootScanStep(w)
    case BootDrop(ws) => BootDropStep(w, ws)
    case BootDone => BootDoneStep(w)
  }

  ghost function Exec(w: World, steps: seq<Step>): World
    decreases |steps|
  {
    if |steps| == 0 then w else Exec(Apply(w, steps[0]), steps[1..])
  }

  // ---------------------------------------------------------------------------------------------
  // The invariant
  // ---------------------------------------------------------------------------------------------

  /** Live leases hold three distinct ports of the range each, and no port twice. */
  ghost predicate LeasesOk(leases: map<WorkspaceId, Lease>) {
    && (forall a | Live(leases, a) :: leases[a].ports.Valid())
    && (forall a, b | Live(leases, a) && Live(leases, b) && a != b :: leases[a].ports.All() !! leases[b].ports.All())
  }

  /** The ports the gateway answers for: a cached lease, or picks on their way to the table. */
  function HeldBy(w: World, ws: WorkspaceId): Option<Ports> {
    if ws in w.cache then Some(w.cache[ws])
    else if ws in w.pending && w.pending[ws].AllocateWrites? then Some(w.pending[ws].ports)
    else None
  }

  ghost predicate HeldOk(w: World) {
    && (forall a | HeldBy(w, a).Some? :: HeldBy(w, a).value.Valid() && HeldBy(w, a).value.All() <= w.taken)
    && (forall a, b | HeldBy(w, a).Some? && HeldBy(w, b).Some? && a != b ::
        HeldBy(w, a).value.All() !! HeldBy(w, b).value.All())
  }

  /** A live lease is held by its workspace, with the same ports. */
  ghost predicate LiveHeld(w: World) {
    forall ws | Live(w.leases, ws) :: HeldBy(w, ws) == Some(w.leases[ws].ports)
  }

  ghost predicate PendingOk(w: World, ws: WorkspaceId)
    requires ws in w.pending
  {
    match w.pending[ws]
    case AllocateReads => ws !in w.cache
    case AllocateRead(lease) => ws !in w.cache && (lease.Some? ==> lease.value.released)
    case AllocateWrites(ports, committed) => ws !in w.cache && (!committed ==> !Live(w.leases, ws))
    case ReleaseWrites(committed) => committed ==> !Live(w.leases, ws)
  }

  ghost predicate PendingsOk(w: World) {
    forall ws | ws in w.pending :: PendingOk(w, ws)
  }

  ghost predicate BootOk(w: World) {
    && (w.phase != Up ==> w.pending == map[])
    && (w.phase.Scanned?
        ==> forall ws | ws in w.phase.stale && ws in w.cache :: ws in w.leases && w.leases[ws].ports == w.cache[ws])
  }

  ghost predicate Inv(w: World) {
    && LeasesOk(w.leases)
    && (w.phase == Down ==> w.cache == map[] && w.taken == {} && w.pending == map[])
    && (w.phase != Down ==> HeldOk(w) && LiveHeld(w) && PendingsOk(w) && BootOk(w))
  }

  // Steps that move one request on without touching ports.

  lemma WaitKeeps(w: World, ws: WorkspaceId, p: Pending)
    requires Inv(w) && w.phase == Up && !p.AllocateWrites? && (ws in w.pending ==> !w.pending[ws].AllocateWrites?)
    requires PendingOk(Wait(w, ws, p), ws)
    ensures Inv(Wait(w, ws, p))
  {
    var w' := Wait(w, ws, p);
    assert forall a :: HeldBy(w', a) == HeldBy(w, a);
    assert forall a | a in w'.pending && a != ws :: PendingOk(w, a);
  }

  lemma DoneKeeps(w: World, ws: WorkspaceId)
    requires Inv(w) && w.phase == Up && ws in w.pending && !w.pending[ws].AllocateWrites?
    ensures Inv(Done(w, ws))
  {
    var w' := Done(w, ws);
    assert forall a :: HeldBy(w', a) == HeldBy(w, a);
    assert forall a | a in w'.pending :: PendingOk(w, a);
  }

  // Steps that touch ports.

  /** Three fresh picks join the set before they are written. */
  lemma PickKeeps(w: World, ws: WorkspaceId, ports: Ports)
    requires Inv(w) && w.phase == Up && ws in w.pending && w.pending[ws].AllocateRead?
    requires ports.Valid() && ports.All() !! w.taken
    ensures Inv(Wait(w.(taken := w.taken + ports.All()), ws, AllocateWrites(ports, false)))
  {
    var w' := Wait(w.(taken := w.taken + ports.All()), ws, AllocateWrites(ports, false));
    assert PendingOk(w, ws);
    assert forall a | a != ws :: HeldBy(w', a) == HeldBy(w, a);
    assert forall a | a in w'.pending && a != ws :: PendingOk(w, a);
  }

  lemma TakenGrowsKeeps(w: World, taken: set<nat>)
    requires Inv(w) && w.phase == Up && w.taken <= taken
    ensures Inv(w.(taken := taken))
  {
    var w' := w.(taken := taken);
    assert forall a :: HeldBy(w', a) == HeldBy(w, a);
    assert forall a | a in w'.pending :: PendingOk(w, a);
  }

  lemma ResumeKeeps(w: World, ws: WorkspaceId, d: Draws)
    requires Inv(w)
    ensures Inv(ResumeStep(w, ws, d))
  {
    if w.phase == Up && ws in w.pending && w.pending[ws].AllocateRead? {
      assert PendingOk(w, ws);
      var r := PickThree(w.taken, d);
      if r.ports.None? {
        TakenGrowsKeeps(w, r.taken);
        DoneKeeps(w.(taken := r.taken), ws);
      } else {
        PickKeeps(w, ws, r.ports.value);
      }
    }
  }

  lemma HeldMeansLeasesOk(w: World)
    requires HeldOk(w) && LiveHeld(w)
    ensures LeasesOk(w.leases)
  {
    forall a, b | Live(w.leases, a) && Live(w.leases, b) && a != b
      ensures w.leases[a].ports.All() !! w.leases[b].ports.All()
    {
      assert HeldBy(w, a).value.All() !! HeldBy(w, b).value.All();
    }
    forall a | Live(w.leases, a) ensures w.leases[a].ports.Valid() {
      assert HeldBy(w, a).value.Valid();
    }
  }

  lemma CommitLeaseKeeps(w: World, ws: WorkspaceId)
    requires Inv(w)
    ensures Inv(CommitLeaseStep(w, ws))
  {
    var w' := CommitLeaseStep(w, ws);
    if w' != w {
      assert PendingOk(w, ws);
      assert forall a :: HeldBy(w', a) == HeldBy(w, a);
      assert forall a | a in w'.pending && a != ws :: PendingOk(w, a);
      HeldMeansLeasesOk(w');
    }
  }

  lemma AckLeaseKeeps(w: World, ws: WorkspaceId)
    requires Inv(w)
    ensures Inv(AckLeaseStep(w, ws))
  {
    var w' := AckLeaseStep(w, ws);
    if w' != w {
      assert PendingOk(w, ws);
      assert forall a :: HeldBy(w', a) == HeldBy(w, a);
      assert forall a | a in w'.pending :: PendingOk(w, a);
    }
  }

  lemma RollBackKeeps(w: World, ws: WorkspaceId)
    requires Inv(w) && w.phase == Up && ws in w.pending && w.pending[ws].AllocateWrites? && !Live(w.leases, ws)
    ensures Inv(RollBack(w, ws))
  {
    var w' := RollBack(w, ws);
    assert PendingOk(w, ws);
    assert HeldBy(w, ws).Some? && HeldBy(w', ws).None?;
    assert forall a | a != ws :: HeldBy(w', a) == HeldBy(w, a);
    assert forall a | a in w'.pending :: PendingOk(w, a);
  }

  lemma LeaseWriteFailsKeeps(w: World, ws: WorkspaceId)
    requires Inv(w)
    ensures Inv(LeaseWriteFailsStep(w, ws))
  {
    if Writing(w, ws, false) {
      assert PendingOk(w, ws);
      RollBackKeeps(w, ws);
    }
  }

  lemma LeaseReplyLostKeeps(w: World, ws: WorkspaceId)
    requires Inv(w) && !(Writing(w, ws, true) && Live(w.leases, ws))
    ensures Inv(LeaseReplyLostStep(w, ws))
  {
    if Writing(w, ws, true) {
      RollBackKeeps(w, ws);
    }
  }

  /** Forgetting a workspace whose lease is not live frees exactly its own ports. */
  lemma ForgetKeepsHeld(w: World, ws: WorkspaceId)
    requires HeldOk(w) && LiveHeld(w) && !Live(w.leases, ws) && !(ws in w.pending && w.pending[ws].AllocateWrites?)
    ensures HeldOk(Forget(w, ws)) && LiveHeld(Forget(w, ws))
  {
    var w' := Forget(w, ws);
    if ws in w.cache {
      assert HeldBy(w, ws).Some? && HeldBy(w', ws).None?;
    }
    assert forall a | a != ws :: HeldBy(w', a) == HeldBy(w, a);
  }

  lemma AckReleaseKeeps(w: World, ws: WorkspaceId)
    requires Inv(w)
    ensures Inv(AckReleaseStep(w, ws))
  {
    if At(w, ws, ReleaseWrites(true)) {
      assert PendingOk(w, ws);
      ForgetKeepsHeld(w, ws);
      var w1 := Forget(w, ws);
      forall a | a in w1.pending ensures PendingOk(w1, a) {
        assert PendingOk(w, a);
      }
      DoneKeeps(w1, ws);
    }
  }

  /** A release in the table, by whichever service. */
  lemma ReleasedKeeps(w: World, ws: WorkspaceId)
    requires Inv(w)
    ensures Inv(w.(leases := Released(w.leases, ws)))
  {
    var w' := w.(leases := Released(w.leases, ws));
    assert forall a :: Live(w'.leases, a) ==> Live(w.leases, a) && w'.leases[a] == w.leases[a];
    assert forall a :: HeldBy(w', a) == HeldBy(w, a);
    forall a | a in w'.pending ensures PendingOk(w', a) {
      assert PendingOk(w, a);
    }
  }

  lemma CommitReleaseKeeps(w: World, ws: WorkspaceId)
    requires Inv(w)
    ensures Inv(CommitReleaseStep(w, ws))
  {
    if At(w, ws, ReleaseWrites(false)) {
      ReleasedKeeps(w, ws);
      WaitKeeps(w.(leases := Released(w.leases, ws)), ws, ReleaseWrites(true));
    }
  }

  /** A cache of exactly the live leases, and their ports taken. */
  ghost predicate FreshlyLoaded(w: World) {
    w.cache == LivePorts(w.leases) && w.taken == AllPorts(w.cache) && w.pending == map[]
  }

  lemma LoadedHeld(w: World, ws: WorkspaceId)
    requires LeasesOk(w.leases) && FreshlyLoaded(w)
    ensures HeldBy(w, ws) == if Live(w.leases, ws) then Some(w.leases[ws].ports) else None
    ensures Live(w.leases, ws) ==> w.leases[ws].ports.All() <= w.taken
  {
    if Live(w.leases, ws) {
      forall p | p in w.leases[ws].ports.All() ensures p in AllPorts(w.cache) {
        assert ws in w.cache && p in w.cache[ws].All();
      }
    }
  }

  lemma LoadedHeldOk(w: World)
    requires LeasesOk(w.leases) && FreshlyLoaded(w)
    ensures HeldOk(w)
  {
    forall a | HeldBy(w, a).Some? ensures HeldBy(w, a).value.Valid() && HeldBy(w, a).value.All() <= w.taken {
      LoadedHeld(w, a);
    }
    forall a, b | HeldBy(w, a).Some? && HeldBy(w, b).Some? && a != b
      ensures HeldBy(w, a).value.All() !! HeldBy(w, b).value.All()
    {
      LoadedHeld(w, a);
      LoadedHeld(w, b);
    }
  }

  lemma LoadedOk(w: World)
    requires LeasesOk(w.leases) && FreshlyLoaded(w) && (w.phase == Loaded || w.phase == Up)
    ensures Inv(w)
  {
    LoadedHeldOk(w);
    forall ws | Live(w.leases, ws) ensures HeldBy(w, ws) == Some(w.leases[ws].ports) {
      LoadedHeld(w, ws);
    }
  }

  lemma BootLoadKeeps(w: World)
    requires Inv(w)
    ensures Inv(BootLoadStep(w))
  {
    if w.phase == Down {
      LoadedOk(BootLoadStep(w));
    }
  }

  lemma BootScanKeeps(w: World)
    requires Inv(w)
    ensures Inv(BootScanStep(w))
  {
    var w' := BootScanStep(w);
    assert forall a :: HeldBy(w', a) == HeldBy(w, a);
  }

  lemma BootDropKeeps(w: World, ws: WorkspaceId)
    requires Inv(w)
    ensures Inv(BootDropStep(w, ws))
  {
    if w.phase.Scanned? && ws in w.phase.stale {
      ReleasedKeeps(w, ws);
      var w1 := w.(leases := Released(w.leases, ws));
      ForgetKeepsHeld(w1, ws);
      var w' := BootDropStep(w, ws);
      assert forall a :: HeldBy(w', a) == HeldBy(Forget(w1, ws), a);
    }
  }

  lemma BootDoneKeeps(w: World)
    requires Inv(w)
    ensures Inv(BootDoneStep(w))
  {
    var w' := BootDoneStep(w);
    assert forall a :: HeldBy(w', a) == HeldBy(w, a);
  }

  lemma StatusKeeps(w: World, terminal: set<WorkspaceId>)
    requires Inv(w)
    ensures Inv(w.(terminal := terminal))
  {
    var w' := w.(terminal := terminal);
    assert forall a :: HeldBy(w', a) == HeldBy(w, a);
    assert forall a | a in w'.pending :: PendingOk(w, a);
  }

  /** The reply to a committed lease write is lost while the lease is live. */
  predicate LiveReplyLost(w: World, step: Step) {
    step.LeaseReplyLost? && Writing(w, step.ws, true) && Live(w.leases, step.ws)
  }

  lemma AllocateKeeps(w: World, ws: WorkspaceId)
    requires Inv(w)
    ensures Inv(AllocateStep(w, ws))
  {
    if w.phase == Up && ws !in w.pending && ws !in w.cache {
      WaitKeeps(w, ws, AllocateReads);
    }
  }

  lemma ReadKeeps(w: World, ws: WorkspaceId)
    requires Inv(w)
    ensures Inv(ReadStep(w, ws))
  {
    if At(w, ws, AllocateReads) {
      assert PendingOk(w, ws);
      assert HeldBy(w, ws).None?;
      WaitKeeps(w, ws, AllocateRead(LeaseOf(w.leases, ws)));
    }
  }

  lemma ReleaseKeeps(w: World, ws: WorkspaceId)
    requires Inv(w)
    ensures Inv(ReleaseStep(w, ws))
  {
    if w.phase == Up && ws !in w.pending {
      WaitKeeps(w, ws, ReleaseWrites(false));
    }
  }

  lemma FailedRequestKeeps(w: World, ws: WorkspaceId)
    requires Inv(w)
    ensures Inv(ReadFailsStep(w, ws)) && Inv(ReleaseWriteFailsStep(w, ws))
  {
    if At(w, ws, AllocateReads) || At(w, ws, ReleaseWrites(false)) {
      DoneKeeps(w, ws);
    }
  }

  predicate OfAllocate(step: Step) {
    || step.Allocate? || step.ReadLease? || step.ResumeAllocate? || step.CommitLease? || step.AckLease?
    || step.LeaseWriteFails? || step.LeaseReplyLost?
  }

  predicate OfRelease(step: Step) {
    || step.ReadFails? || step.Release? || step.CommitRelease? || step.AckRelease? || step.ReleaseWriteFails?
    || step.ReleasedElsewhere? || step.StatusChanges?
  }

  lemma AllocateStepKeeps(w: World, step: Step)
    requires Inv(w) && OfAllocate(step) && !LiveReplyLost(w, step)
    ensures Inv(Apply(w, step))
  {
    match step
    case Allocate(ws) => AllocateKeeps(w, ws);
    case ReadLease(ws) => ReadKeeps(w, ws);
    case ResumeAllocate(ws, draws) => ResumeKeeps(w, ws, draws);
    case CommitLease(ws) => CommitLeaseKeeps(w, ws);
    case AckLease(ws) => AckLeaseKeeps(w, ws);
    case LeaseWriteFails(ws) => LeaseWriteFailsKeeps(w, ws);
    case LeaseReplyLost(ws) => LeaseReplyLostKeeps(w, ws);
  }

  lemma ReleaseStepKeeps(w: World, step: Step)
    requires Inv(w) && OfRelease(step)
    ensures Inv(Apply(w, step))
  {
    match step
    case ReadFails(ws) => FailedRequestKeeps(w, ws);
    case Release(ws) => ReleaseKeeps(w, ws);
    case CommitRelease(ws) => CommitReleaseKeeps(w, ws);
    case AckRelease(ws) => AckReleaseKeeps(w, ws);
    case ReleaseWriteFails(ws) => FailedRequestKeeps(w, ws);
    case ReleasedElsewhere(ws) => ReleasedKeeps(w, ws);
    case StatusChanges(ws, terminal) => StatusKeeps(w, Apply(w, step).terminal);
  }

  lemma BootStepKeeps(w: World, step: Step)
    requires Inv(w) && !OfAllocate(step) && !OfRelease(step)
    ensures Inv(Apply(w, step))
  {
    match step
    case Crash => assert Apply(w, step) == CrashStep(w);
    case BootLoad => BootLoadKeeps(w);
    case BootScan => BootScanKeeps(w);
    case BootDrop(ws) => BootDropKeeps(w, ws);
    case BootDone => BootDoneKeeps(w);
  }

  lemma StepKeeps(w: World, step: Step)
    requires Inv(w) && !LiveReplyLost(w, step)
    ensures Inv(Apply(w, step))
  {
    if OfAllocate(step) {
      AllocateStepKeeps(w, step);
    } else if OfRelease(step) {
      ReleaseStepKeeps(w, step);
    } else {
      BootStepKeeps(w, step);
    }
  }

  ghost predicate LeasesTaken(w: World) {
    w.phase != Down ==> forall ws | Live(w.leases, ws) :: w.leases[ws].ports.All() <= w.taken
  }

  lemma LeasesAreTaken(w: World)
    requires Inv(w)
    ensures LeasesTaken(w)
  {
    if w.phase != Down {
      forall ws | Live(w.leases, ws) ensures w.leases[ws].ports.All() <= w.taken {
        assert HeldBy(w, ws).value.All() <= w.taken;
      }
    }
  }

  /** A step leaves a leased port outside `allocatedPorts` exactly when it loses the reply to a lease
      write that has committed, and no other service has released that lease in between. */
  lemma SafetyIff(w: World, step: Step)
    requires Inv(w)
    ensures LeasesTaken(Apply(w, step)) <==> !LiveReplyLost(w, step)
  {
    if LiveReplyLost(w, step) {
      var w' := Apply(w, step);
      assert HeldBy(w, step.ws).Some?;
      assert w'.leases[step.ws].ports.ssh !in w'.taken;
    } else {
      StepKeeps(w, step);
      LeasesAreTaken(Apply(w, step));
    }
  }

  /** No step of the run loses the reply to a committed lease write while the lease is live. */
  ghost predicate NoLiveReplyLost(w: World, steps: seq<Step>)
    decreases |steps|
  {
    |steps| == 0 || (!LiveReplyLost(w, steps[0]) && NoLiveReplyLost(Apply(w, steps[0]), steps[1..]))
  }

  lemma {:induction false} ExecKeeps(w: World, steps: seq<Step>)
    requires Inv(w) && NoLiveReplyLost(w, steps)
    ensures Inv(Exec(w, steps))
    decreases |steps|
  {
    if |steps| != 0 {
      StepKeeps(w, steps[0]);
      ExecKeeps(Apply(w, steps[0]), steps[1..]);
    }
  }

  // ---------------------------------------------------------------------------------------------
  // Main results
  // ---------------------------------------------------------------------------------------------

  /** At every moment of every run that loses no reply as SafetyIff says: live leases hold three
      distinct ports of the range each, no port is leased twice, and while the gateway is running every
      leased port is in `allocatedPorts`. */
  lemma PortSafety(steps: seq<Step>)
    ensures NoLiveReplyLost(Empty, steps) ==> LeasesOk(Exec(Empty, steps).leases) && LeasesTaken(Exec(Empty, steps))
  {
    if NoLiveReplyLost(Empty, steps) {
      ExecKeeps(Empty, steps);
      LeasesAreTaken(Exec(Empty, steps));
    }
  }

  /** A cached reply is the workspace's live lease, unless another service has released that lease. */
  lemma CachedReplyIsTheLease(steps: seq<Step>, ws: WorkspaceId)
    requires NoLiveReplyLost(Empty, steps)
    requires var w := Exec(Empty, steps); w.phase == Up && Live(w.leases, ws) && ws !in w.pending
    ensures var w := Exec(Empty, steps);
            ws in w.cache && w.cache[ws] == w.leases[ws].ports && AllocateStep(w, ws) == w
  {
    ExecKeeps(Empty, steps);
    assert HeldBy(Exec(Empty, steps), ws).Some?;
  }

  /** The cache names a lease that is not live: an allocate would be answered with it. */
  predicate StaleReply(w: World, ws: WorkspaceId) {
    ws in w.cache && !Live(w.leases, ws)
  }

  /** What makes a cached reply stale: a release in the table that the cache does not follow yet, or an
      allocate that caches a lease which was released between its commit and its reply. */
  predicate MakesStale(w: World, step: Step, ws: WorkspaceId) {
    || (ws in w.cache && step == ReleasedElsewhere(ws))
    || (ws in w.cache && step == CommitRelease(ws) && At(w, ws, ReleaseWrites(false)))
    || (step == AckLease(ws) && Writing(w, ws, true) && !Live(w.leases, ws))
  }

  lemma AllocateStaleIff(w: World, step: Step, ws: WorkspaceId)
    requires Inv(w) && !StaleReply(w, ws) && OfAllocate(step)
    ensures StaleReply(Apply(w, step), ws) <==> MakesStale(w, step, ws)
  {
    if step.ws in w.pending { assert PendingOk(w, step.ws); }
  }

  lemma ReleaseStaleIff(w: World, step: Step, ws: WorkspaceId)
    requires Inv(w) && !StaleReply(w, ws) && OfRelease(step)
    ensures StaleReply(Apply(w, step), ws) <==> MakesStale(w, step, ws)
  {
    if step.ws in w.pending { assert PendingOk(w, step.ws); }
  }

  /** A cached reply becomes stale exactly so. */
  lemma StaleReplyIff(w: World, step: Step, ws: WorkspaceId)
    requires Inv(w) && !StaleReply(w, ws)
    ensures StaleReply(Apply(w, step), ws) <==> MakesStale(w, step, ws)
  {
    if OfAllocate(step) {
      AllocateStaleIff(w, step, ws);
    } else if OfRelease(step) {
      ReleaseStaleIff(w, step, ws);
    }
  }

  // Ports that nobody holds but that are never handed out again before a restart.

  ghost predicate Leaked(w: World, p: nat) {
    p in w.taken && forall ws | HeldBy(w, ws).Some? :: p !in HeldBy(w, ws).value.All()
  }

  /** A resumption that runs out of candidates after at least one successful pick. */
  predicate LateExhaustion(w: World, step: Step) {
    && step.ResumeAllocate?
    && w.phase == Up && step.ws in w.pending && w.pending[step.ws].AllocateRead?
    && !(w.pending[step.ws].lease.Some? && !w.pending[step.ws].lease.value.released)
    && PickThree(w.taken, step.draws).ports.None?
    && PickThree(w.taken, step.draws).taken != w.taken
  }

  ghost predicate NoLeak(w: World) {
    forall p :: !Leaked(w, p)
  }

  lemma BootLeaksNothing(w: World, step: Step)
    requires Inv(w) && NoLeak(w) && (step.BootLoad? || step.BootDrop?)
    ensures NoLeak(Apply(w, step))
  {
    var w' := Apply(w, step);
    if step.BootLoad? && w.phase == Down {
      forall p ensures !Leaked(w', p) {
        if p in w'.taken {
          var ws :| ws in LivePorts(w.leases) && p in LivePorts(w.leases)[ws].All();
          assert HeldBy(w', ws).Some?;
        }
      }
    } else if step.BootDrop? && w' != w {
      forall p ensures !Leaked(w', p) {
        if p in w'.taken {
          assert !Leaked(w, p);
          var a :| HeldBy(w, a).Some? && p in HeldBy(w, a).value.All();
          assert HeldBy(w', a) == HeldBy(w, a);
        }
      }
    }
  }

  /** Leaks begin exactly with a late exhaustion. */
  lemma LeakIff(w: World, step: Step)
    requires Inv(w) && NoLeak(w)
    ensures NoLeak(Apply(w, step)) <==> !LateExhaustion(w, step)
  {
    var w' := Apply(w, step);
    if LateExhaustion(w, step) {
      var p :| p in w'.taken && p !in w.taken;
      assert forall ws | HeldBy(w', ws).Some? :: HeldBy(w', ws) == HeldBy(w, ws);
      assert Leaked(w', p);
    } else if step.BootLoad? || step.BootDrop? {
      BootLeaksNothing(w, step);
    } else if w' != w && !step.Crash? {
      forall p ensures !Leaked(w', p) {
        if p in w'.taken {
          if p in w.taken {
            assert !Leaked(w, p);
            var a :| HeldBy(w, a).Some? && p in HeldBy(w, a).value.All();
            if OfAllocate(step) { StillHeldByAllocates(w, step, a, p); } else { StillHeldByOthers(w, step, a, p); }
          } else {
            NewlyHeld(w, step, p);
          }
        }
      }
    }
  }

  lemma StillHeldByAllocates(w: World, step: Step, a: WorkspaceId, p: nat)
    requires Inv(w) && HeldBy(w, a).Some? && p in HeldBy(w, a).value.All() && OfAllocate(step)
    requires p in Apply(w, step).taken
    ensures var w' := Apply(w, step); HeldBy(w', a).Some? && p in HeldBy(w', a).value.All()
  {
    if a in w.pending { assert PendingOk(w, a); }
    if step.ws in w.pending { assert PendingOk(w, step.ws); }
  }

  lemma StillHeldByOthers(w: World, step: Step, a: WorkspaceId, p: nat)
    requires Inv(w) && HeldBy(w, a).Some? && p in HeldBy(w, a).value.All() && !OfAllocate(step)
    requires p in Apply(w, step).taken && !step.BootLoad? && !step.BootDrop? && !step.Crash?
    ensures var w' := Apply(w, step); HeldBy(w', a).Some? && p in HeldBy(w', a).value.All()
  {
    if a in w.pending { assert PendingOk(w, a); }
  }

  lemma NewlyHeld(w: World, step: Step, p: nat)
    requires Inv(w) && p !in w.taken && p in Apply(w, step).taken
    requires !LateExhaustion(w, step) && !step.BootLoad?
    ensures var w' := Apply(w, step);
            step.ResumeAllocate? && HeldBy(w', step.ws).Some? && p in HeldBy(w', step.ws).value.All()
  {
    assert step.ResumeAllocate?;
    assert PendingOk(w, step.ws);
  }

  // Restart.

  ghost function Drops(order: seq<WorkspaceId>): seq<Step> {
    seq(|order|, i requires 0 <= i < |order| => BootDrop(order[i]))
  }

  function ReleasedAll(leases: map<WorkspaceId, Lease>, stale: set<WorkspaceId>): map<WorkspaceId, Lease> {
    map ws | ws in leases :: if ws in stale then leases[ws].(released := true) else leases[ws]
  }

  ghost predicate Distinct(order: seq<WorkspaceId>) {
    forall i, j | 0 <= i < j < |order| :: order[i] != order[j]
  }

  /** The ports of some entries. */
  ghost function PortsIn(m: map<WorkspaceId, Ports>, keys: set<WorkspaceId>): set<nat> {
    set ws, p | ws in keys && ws in m && p in m[ws].All() :: p
  }

  lemma PortsInOne(m: map<WorkspaceId, Ports>, ws: WorkspaceId)
    requires ws in m
    ensures PortsIn(m, {ws}) == m[ws].All()
  {
    forall p | p in m[ws].All() ensures p in PortsIn(m, {ws}) {
      assert ws in {ws} && ws in m && p in m[ws].All();
    }
  }

  /** An entry that is gone already has no ports to give. */
  lemma PortsInSplit(m: map<WorkspaceId, Ports>, a: set<WorkspaceId>, b: set<WorkspaceId>)
    ensures PortsIn(m, a + b) == PortsIn(m, a) + PortsIn(m - a, b)
  {
    var rest := m - a;
    forall p | p in PortsIn(m, a + b) ensures p in PortsIn(m, a) + PortsIn(rest, b) {
      var ws :| ws in a + b && ws in m && p in m[ws].All();
      if ws !in a { assert ws in b && ws in rest && p in rest[ws].All(); }
    }
    forall p | p in PortsIn(m, a) + PortsIn(rest, b) ensures p in PortsIn(m, a + b) {
      if p in PortsIn(m, a) {
        var ws :| ws in a && ws in m && p in m[ws].All();
        assert ws in a + b;
      } else {
        var ws :| ws in b && ws in rest && p in rest[ws].All();
        assert ws in a + b && ws in m && p in m[ws].All();
      }
    }
  }

  /** The gateway after the leases in `dropped` have been dropped. */
  ghost function AfterDrops(w: World, dropped: set<WorkspaceId>): World
    requires w.phase.Scanned?
  {
    w.(leases := ReleasedAll(w.leases, dropped), phase := Scanned(w.phase.stale - dropped),
       cache := w.cache - dropped, taken := w.taken - PortsIn(w.cache, dropped))
  }

  lemma DropOne(w: World, ws: WorkspaceId)
    requires w.phase.Scanned? && ws in w.phase.stale && ws in w.cache && ws in w.leases
    ensures BootDropStep(w, ws) == AfterDrops(w, {ws})
  {
    PortsInOne(w.cache, ws);
    assert Released(w.leases, ws) == ReleasedAll(w.leases, {ws});
  }

  lemma AfterDropsCompose(w: World, a: set<WorkspaceId>, b: set<WorkspaceId>)
    requires w.phase.Scanned?
    ensures AfterDrops(AfterDrops(w, a), b) == AfterDrops(w, a + b)
  {
    assert w.cache - a - b == w.cache - (a + b);
    assert ReleasedAll(ReleasedAll(w.leases, a), b) == ReleasedAll(w.leases, a + b);
    assert w.phase.stale - a - b == w.phase.stale - (a + b);
    PortsInSplit(w.cache, a, b);
  }

  ghost function AsSet(order: seq<WorkspaceId>): set<WorkspaceId> {
    set ws | ws in order
  }

  lemma AsSetSplit(order: seq<WorkspaceId>)
    requires order != []
    ensures AsSet(order) == {order[0]} + AsSet(order[1..])
  {
    assert order == [order[0]] + order[1..];
  }

  lemma DropNone(w: World)
    requires w.phase.Scanned?
    ensures AfterDrops(w, {}) == w
  {
    assert ReleasedAll(w.leases, {}) == w.leases && w.cache - {} == w.cache && w.phase.stale - {} == w.phase.stale;
    assert PortsIn(w.cache, {}) == {};
  }

  ghost predicate AllStale(w: World, order: seq<WorkspaceId>) {
    w.phase.Scanned? && forall i | 0 <= i < |order| ::
      order[i] in w.phase.stale && order[i] in w.cache && order[i] in w.leases
  }

  lemma FirstDrop(w: World, order: seq<WorkspaceId>)
    requires order != [] && AllStale(w, order)
    ensures Exec(w, Drops(order)) == Exec(AfterDrops(w, {order[0]}), Drops(order[1..]))
  {
    DropOne(w, order[0]);
    assert Drops(order)[0] == BootDrop(order[0]) && Drops(order)[1..] == Drops(order[1..]);
  }

  lemma RestIsStale(w: World, order: seq<WorkspaceId>)
    requires order != [] && Distinct(order) && AllStale(w, order)
    ensures Distinct(order[1..]) && AllStale(AfterDrops(w, {order[0]}), order[1..])
  {
    var rest := order[1..];
    assert forall i | 0 <= i < |rest| :: rest[i] == order[i + 1];
  }

  lemma {:induction false} DropAll(w: World, order: seq<WorkspaceId>)
    requires Distinct(order) && AllStale(w, order)
    ensures Exec(w, Drops(order)) == AfterDrops(w, AsSet(order))
    decreases |order|
  {
    if order == [] {
      DropNone(w);
      assert AsSet(order) == {};
    } else {
      FirstDrop(w, order);
      RestIsStale(w, order);
      DropAll(AfterDrops(w, {order[0]}), order[1..]);
      AfterDropsCompose(w, {order[0]}, AsSet(order[1..]));
      AsSetSplit(order);
    }
  }

  /** Leases of workspaces that are neither TERMINATED nor FAILED. */
  function Current(leases: map<WorkspaceId, Lease>, terminal: set<WorkspaceId>): map<WorkspaceId, Ports> {
    map ws | ws in leases && Live(leases, ws) && ws !in terminal :: leases[ws].ports
  }

  /** Crash, load, scan, drop the stale leases in some order, start serving. */
  ghost function Restarted(w: World, order: seq<WorkspaceId>): World {
    BootDoneStep(Exec(BootScanStep(BootLoadStep(CrashStep(w))), Drops(order)))
  }

  /** The ports of live leases of finished workspaces, which the boot frees again. */
  ghost function StalePorts(leases: map<WorkspaceId, Lease>, terminal: set<WorkspaceId>): set<nat> {
    PortsIn(LivePorts(leases), StaleLeases(leases, terminal))
  }

  /** The gateway after a boot: it serves the live leases of workspaces that are not finished, with the
      ports they had, and the others are released. */
  ghost function Rebuilt(leases: map<WorkspaceId, Lease>, terminal: set<WorkspaceId>): World {
    World(ReleasedAll(leases, StaleLeases(leases, terminal)), terminal, Up, Current(leases, terminal),
          AllPorts(LivePorts(leases)) - StalePorts(leases, terminal), map[])
  }

  /** Crash in any state, boot again, whatever the table holds. */
  lemma RestartRebuilds(w: World, order: seq<WorkspaceId>)
    requires Distinct(order) && AsSet(order) == StaleLeases(w.leases, w.terminal)
    ensures Restarted(w, order) == Rebuilt(w.leases, w.terminal)
    ensures LivePorts(Restarted(w, order).leases) == Restarted(w, order).cache == Current(w.leases, w.terminal)
    ensures Restarted(w, order).taken <= AllPorts(Restarted(w, order).cache)
  {
    var live, stale := LivePorts(w.leases), AsSet(order);
    var scanned := BootScanStep(BootLoadStep(CrashStep(w)));
    assert scanned == World(w.leases, w.terminal, Scanned(stale), live, AllPorts(live), map[]);
    assert forall i | 0 <= i < |order| :: order[i] in stale;
    DropAll(scanned, order);
    StaleLeavesCurrent(w.leases, w.terminal);
    assert stale - stale == {};
    TakenAreHeld(w.leases, w.terminal);
  }

  lemma StaleLeavesCurrent(leases: map<WorkspaceId, Lease>, terminal: set<WorkspaceId>)
    ensures LivePorts(leases) - StaleLeases(leases, terminal) == Current(leases, terminal)
    ensures LivePorts(ReleasedAll(leases, StaleLeases(leases, terminal))) == Current(leases, terminal)
  {
  }

  lemma TakenAreHeld(leases: map<WorkspaceId, Lease>, terminal: set<WorkspaceId>)
    ensures Rebuilt(leases, terminal).taken <= AllPorts(Current(leases, terminal))
  {
    var live, stale, current := LivePorts(leases), StaleLeases(leases, terminal), Current(leases, terminal);
    forall p | p in AllPorts(live) - PortsIn(live, stale) ensures p in AllPorts(current) {
      var ws :| ws in live && p in live[ws].All();
      assert ws in stale ==> p in PortsIn(live, stale);
      assert ws in current && p in current[ws].All();
    }
  }

  predicate Finished(leases: map<WorkspaceId, Lease>, terminal: set<WorkspaceId>, ws: WorkspaceId) {
    Live(leases, ws) && ws in terminal
  }

  /** Every live lease of an unfinished workspace is in order, and apart from every other live lease. */
  ghost predicate CurrentApart(leases: map<WorkspaceId, Lease>, terminal: set<WorkspaceId>) {
    forall a | Live(leases, a) && a !in terminal ::
      leases[a].ports.Valid()
      && forall b | Live(leases, b) && b != a :: leases[a].ports.All() !! leases[b].ports.All()
  }

  /** A port of an unfinished workspace is taken again exactly when no finished one has it too. */
  lemma TakenAgainIff(leases: map<WorkspaceId, Lease>, terminal: set<WorkspaceId>, a: WorkspaceId, p: nat)
    requires Live(leases, a) && a !in terminal && p in leases[a].ports.All()
    ensures p in Rebuilt(leases, terminal).taken
       <==> forall b | Finished(leases, terminal, b) :: p !in leases[b].ports.All()
  {
    var live, stale := LivePorts(leases), StaleLeases(leases, terminal);
    assert a in live && p in live[a].All();
    if p in StalePorts(leases, terminal) {
      var b :| b in stale && b in live && p in live[b].All();
      assert Finished(leases, terminal, b);
    } else {
      forall b | Finished(leases, terminal, b) ensures p !in leases[b].ports.All() {
        assert b in stale && b in live;
      }
    }
  }

  lemma ApartIsTaken(leases: map<WorkspaceId, Lease>, terminal: set<WorkspaceId>)
    requires CurrentApart(leases, terminal)
    ensures Rebuilt(leases, terminal).taken == AllPorts(Current(leases, terminal))
  {
    var current := Current(leases, terminal);
    TakenAreHeld(leases, terminal);
    forall p | p in AllPorts(current) ensures p in Rebuilt(leases, terminal).taken {
      var a :| a in current && p in current[a].All();
      TakenAgainIff(leases, terminal, a, p);
    }
  }

  lemma ApartIsOk(leases: map<WorkspaceId, Lease>, terminal: set<WorkspaceId>)
    requires CurrentApart(leases, terminal)
    ensures LeasesOk(ReleasedAll(leases, StaleLeases(leases, terminal)))
  {
    RebuiltLeases(leases, terminal);
  }

  lemma RebuiltApart(leases: map<WorkspaceId, Lease>, terminal: set<WorkspaceId>)
    requires CurrentApart(leases, terminal)
    ensures Inv(Rebuilt(leases, terminal))
  {
    StaleLeavesCurrent(leases, terminal);
    ApartIsTaken(leases, terminal);
    ApartIsOk(leases, terminal);
    LoadedOk(Rebuilt(leases, terminal));
  }

  /** The leases that are live after a boot. */
  lemma RebuiltLeases(leases: map<WorkspaceId, Lease>, terminal: set<WorkspaceId>)
    ensures var rest := Rebuilt(leases, terminal).leases;
            && (forall a :: Live(rest, a) <==> Live(leases, a) && a !in terminal)
            && (forall a | Live(rest, a) :: rest[a] == leases[a])
  {
  }

  lemma ApartIfSafe(leases: map<WorkspaceId, Lease>, terminal: set<WorkspaceId>)
    requires LeasesOk(Rebuilt(leases, terminal).leases) && LeasesTaken(Rebuilt(leases, terminal))
    ensures CurrentApart(leases, terminal)
  {
    var r := Rebuilt(leases, terminal);
    RebuiltLeases(leases, terminal);
    forall a, b | Live(leases, a) && a !in terminal && Live(leases, b) && b != a
      ensures leases[a].ports.All() !! leases[b].ports.All()
    {
      assert Live(r.leases, a);
      if b in terminal {
        forall p | p in leases[a].ports.All() ensures p !in leases[b].ports.All() {
          TakenAgainIff(leases, terminal, a, p);
          assert Finished(leases, terminal, b);
        }
      } else {
        assert Live(r.leases, b);
      }
    }
  }

  /** A boot brings the invariant back, and with it the safety of ports, exactly when every live lease of
      an unfinished workspace is in order and apart from all other live leases. */
  lemma RebuiltIsSafeIff(leases: map<WorkspaceId, Lease>, terminal: set<WorkspaceId>)
    ensures var r := Rebuilt(leases, terminal);
            && (Inv(r) <==> CurrentApart(leases, terminal))
            && (LeasesOk(r.leases) && LeasesTaken(r) <==> CurrentApart(leases, terminal))
  {
    var r := Rebuilt(leases, terminal);
    if CurrentApart(leases, terminal) {
      RebuiltApart(leases, terminal);
    }
    if Inv(r) {
      LeasesAreTaken(r);
    }
    if LeasesOk(r.leases) && LeasesTaken(r) {
      ApartIfSafe(leases, terminal);
    }
  }

  /** So does a restart, from any state.  While an unfinished workspace shares a port with another live
      lease, as lost replies can bring about, no restart helps. */
  lemma RestartRestoresSafetyIff(w: World, order: seq<WorkspaceId>)
    requires Distinct(order) && AsSet(order) == StaleLeases(w.leases, w.terminal)
    ensures Inv(Restarted(w, order)) <==> CurrentApart(w.leases, w.terminal)
    ensures var r := Restarted(w, order);
            LeasesOk(r.leases) && LeasesTaken(r) <==> CurrentApart(w.leases, w.terminal)
  {
    RestartRebuilds(w, order);
    RebuiltIsSafeIff(w.leases, w.terminal);
  }

  /** What the other holders have is apart from this one's ports, and from those of finished workspaces. */
  ghost predicate OthersApart(leases: map<WorkspaceId, Lease>, terminal: set<WorkspaceId>, ws: WorkspaceId) {
    forall a, b | Live(leases, a) && a !in terminal && a != ws && Live(leases, b) && (b == ws || b in terminal) ::
      leases[a].ports.All() !! leases[b].ports.All()
  }

  /** A lease holder cannot tell a restart: its allocate is answered from the cache with the ports it
      had before the crash, and its release takes those ports and no other out of the set.  What stays
      taken are the other holders' ports, exactly when none of them is shared. */
  lemma RestartIsInvisible(w: World, order: seq<WorkspaceId>, ws: WorkspaceId)
    requires Distinct(order) && AsSet(order) == StaleLeases(w.leases, w.terminal)
    requires Live(w.leases, ws) && ws !in w.terminal
    ensures var r := Restarted(w, order);
            var f := AckReleaseStep(CommitReleaseStep(ReleaseStep(r, ws), ws), ws);
            && ws in r.cache && r.cache[ws] == w.leases[ws].ports && AllocateStep(r, ws) == r
            && f == r.(leases := Released(r.leases, ws), cache := r.cache - {ws},
                       taken := r.taken - w.leases[ws].ports.All())
            && (f.taken == AllPorts(f.cache) <==> OthersApart(w.leases, w.terminal, ws))
  {
    RestartRebuilds(w, order);
    ReleaseToEnd(Restarted(w, order), ws);
    OthersStayTakenIff(w.leases, w.terminal, ws);
  }

  /** The ports that are taken after a boot and one release. */
  ghost function Left(leases: map<WorkspaceId, Lease>, terminal: set<WorkspaceId>, ws: WorkspaceId): set<nat>
    requires ws in leases
  {
    Rebuilt(leases, terminal).taken - leases[ws].ports.All()
  }

  lemma OthersStayTaken(leases: map<WorkspaceId, Lease>, terminal: set<WorkspaceId>, ws: WorkspaceId, p: nat)
    requires Live(leases, ws) && ws !in terminal && OthersApart(leases, terminal, ws)
    requires p in AllPorts(Current(leases, terminal) - {ws})
    ensures p in Left(leases, terminal, ws)
  {
    var others := Current(leases, terminal) - {ws};
    var a :| a in others && p in others[a].All();
    TakenAgainIff(leases, terminal, a, p);
  }

  lemma LeftMeansApart(leases: map<WorkspaceId, Lease>, terminal: set<WorkspaceId>, ws: WorkspaceId,
                       a: WorkspaceId, b: WorkspaceId, p: nat)
    requires Live(leases, a) && a !in terminal && a != ws && Live(leases, b) && (b == ws || b in terminal)
    requires ws in leases && p in leases[a].ports.All() && p in Left(leases, terminal, ws)
    ensures p !in leases[b].ports.All()
  {
    TakenAgainIff(leases, terminal, a, p);
    if b in terminal { assert Finished(leases, terminal, b); }
  }

  lemma OthersStayTakenIff(leases: map<WorkspaceId, Lease>, terminal: set<WorkspaceId>, ws: WorkspaceId)
    requires Live(leases, ws) && ws !in terminal
    ensures Left(leases, terminal, ws) == AllPorts(Current(leases, terminal) - {ws})
       <==> OthersApart(leases, terminal, ws)
  {
    var others := Current(leases, terminal) - {ws};
    LeftAreOthers(leases, terminal, ws);
    if OthersApart(leases, terminal, ws) {
      forall p | p in AllPorts(others) ensures p in Left(leases, terminal, ws) {
        OthersStayTaken(leases, terminal, ws, p);
      }
    }
    if Left(leases, terminal, ws) == AllPorts(others) {
      forall a, b, p | Live(leases, a) && a !in terminal && a != ws && Live(leases, b) && (b == ws || b in terminal)
                       && p in leases[a].ports.All()
        ensures p !in leases[b].ports.All()
      {
        assert a in others && p in others[a].All();
        LeftMeansApart(leases, terminal, ws, a, b, p);
      }
    }
  }

  lemma LeftAreOthers(leases: map<WorkspaceId, Lease>, terminal: set<WorkspaceId>, ws: WorkspaceId)
    requires Live(leases, ws) && ws !in terminal
    ensures var r := Rebuilt(leases, terminal); r.taken - leases[ws].ports.All() <= AllPorts(r.cache - {ws})
  {
    var r := Rebuilt(leases, terminal);
    var others := r.cache - {ws};
    TakenAreHeld(leases, terminal);
    forall p | p in r.taken - leases[ws].ports.All() ensures p in AllPorts(others) {
      var a :| a in r.cache && p in r.cache[a].All();
      assert a in others && p in others[a].All();
    }
  }

  lemma ReleaseToEnd(r: World, ws: WorkspaceId)
    requires r.phase == Up && r.pending == map[] && ws in r.cache
    ensures AckReleaseStep(CommitReleaseStep(ReleaseStep(r, ws), ws), ws)
         == r.(leases := Released(r.leases, ws), cache := r.cache - {ws}, taken := r.taken - r.cache[ws].All())
  {
    var f := AckReleaseStep(CommitReleaseStep(ReleaseStep(r, ws), ws), ws);
    assert f.pending == map[];
  }

  // ---------------------------------------------------------------------------------------------
  // An allocate that nothing comes between
  // ---------------------------------------------------------------------------------------------

  /** The three ports an allocate would write are refused by the table. */
  predicate Refused(w: World, ws: WorkspaceId, draws: Draws) {
    var ports := PickThree(w.taken, draws).ports;
    ports.Some? && !Accepts(w.leases, ws, ports.value)
  }

  /** How the write ends for the handler: it works, it fails without effect, or it commits and the reply
      is lost. */
  datatype WriteEnd = Works | Fails | ReplyLost

  /** Where it leaves the gateway. */
  function AllocateEnd(w: World, ws: WorkspaceId, draws: Draws, end: WriteEnd): World {
    if ws in w.cache then w
    else if Live(w.leases, ws) then Remember(w, ws, w.leases[ws].ports)
    else
      var r := PickThree(w.taken, draws);
      if r.ports.None? then w.(taken := r.taken)
      else
        var leases := w.leases[ws := Lease(r.ports.value, false)];
        match end
        case Works => w.(leases := leases, cache := w.cache[ws := r.ports.value], taken := r.taken)
        case Fails => w
        case ReplyLost => w.(leases := leases)
  }

  /** The handler's steps up to the point where the write, if there is one, is on its way. */
  function SendAllocate(w: World, ws: WorkspaceId, draws: Draws): World {
    ResumeStep(ReadStep(AllocateStep(w, ws), ws), ws, draws)
  }

  function Answered(w: World, ws: WorkspaceId, end: WriteEnd): World {
    match end
    case Works => AckLeaseStep(CommitLeaseStep(w, ws), ws)
    case Fails => LeaseWriteFailsStep(w, ws)
    case ReplyLost => LeaseReplyLostStep(CommitLeaseStep(w, ws), ws)
  }

  lemma WaitThenDone(w: World, ws: WorkspaceId, p: Pending)
    requires ws !in w.pending
    ensures Done(Wait(w, ws, p), ws) == w
  {
    assert Done(Wait(w, ws, p), ws).pending == w.pending;
  }

  lemma WaitAgain(w: World, ws: WorkspaceId, p: Pending, q: Pending)
    ensures Wait(Wait(w, ws, p), ws, q) == Wait(w, ws, q)
  {
    assert Wait(Wait(w, ws, p), ws, q).pending == w.pending[ws := q];
  }

  lemma SentAllocate(w: World, ws: WorkspaceId, draws: Draws)
    requires w.phase == Up && ws !in w.pending && ws !in w.cache
    ensures var r := PickThree(w.taken, draws);
            SendAllocate(w, ws, draws) ==
            if Live(w.leases, ws) then Remember(w, ws, w.leases[ws].ports)
            else if r.ports.None? then w.(taken := r.taken)
            else Wait(w.(taken := r.taken), ws, AllocateWrites(r.ports.value, false))
  {
    var read := AllocateRead(LeaseOf(w.leases, ws));
    var r := PickThree(w.taken, draws);
    WaitAgain(w, ws, AllocateReads, read);
    if Live(w.leases, ws) {
      WaitThenDone(Remember(w, ws, w.leases[ws].ports), ws, read);
    } else if r.ports.None? {
      WaitThenDone(w.(taken := r.taken), ws, read);
    } else {
      WaitAgain(w.(taken := r.taken), ws, read, AllocateWrites(r.ports.value, false));
    }
  }

  function Committed(w: World, ws: WorkspaceId, r: Picked): World
    requires r.ports.Some?
  {
    Wait(w.(leases := w.leases[ws := Lease(r.ports.value, false)], taken := r.taken), ws,
         AllocateWrites(r.ports.value, true))
  }

  /** The moment after the commit, before the handler hears of it. */
  lemma CommittedAllocate(w: World, ws: WorkspaceId, draws: Draws)
    requires w.phase == Up && ws !in w.pending && ws !in w.cache && !Live(w.leases, ws)
    requires var r := PickThree(w.taken, draws); r.ports.Some? && Accepts(w.leases, ws, r.ports.value)
    ensures CommitLeaseStep(SendAllocate(w, ws, draws), ws) == Committed(w, ws, PickThree(w.taken, draws))
  {
    SentAllocate(w, ws, draws);
    var r := PickThree(w.taken, draws);
    WaitAgain(w.(leases := w.leases[ws := Lease(r.ports.value, false)], taken := r.taken), ws,
              AllocateWrites(r.ports.value, false), AllocateWrites(r.ports.value, true));
  }

  lemma WrittenAllocateEnds(w: World, ws: WorkspaceId, draws: Draws, end: WriteEnd)
    requires w.phase == Up && ws !in w.pending && ws !in w.cache && !Live(w.leases, ws)
    requires PickThree(w.taken, draws).ports.Some? && (end == Fails || !Refused(w, ws, draws))
    ensures Answered(SendAllocate(w, ws, draws), ws, end) == AllocateEnd(w, ws, draws, end)
  {
    var ports := PickThree(w.taken, draws).ports.value;
    if end == Fails {
      SentAllocate(w, ws, draws);
      WaitThenDone(w, ws, AllocateWrites(ports, false));
    } else {
      CommittedAllocate(w, ws, draws);
      WaitThenDone(AllocateEnd(w, ws, draws, end), ws, AllocateWrites(ports, true));
    }
  }

  lemma AllocateEnds(w: World, ws: WorkspaceId, draws: Draws, end: WriteEnd)
    requires w.phase == Up && ws !in w.pending
    requires end == Fails || !Refused(w, ws, draws)
    ensures Answered(SendAllocate(w, ws, draws), ws, end) == AllocateEnd(w, ws, draws, end)
  {
    if ws !in w.cache && !Live(w.leases, ws) && PickThree(w.taken, draws).ports.Some? {
      WrittenAllocateEnds(w, ws, draws, end);
    } else if ws !in w.cache {
      SentAllocate(w, ws, draws);
    }
  }

  lemma ExecOne(w: World, s: seq<Step>)
    requires |s| == 1
    ensures Exec(w, s) == Apply(w, s[0])
  {
    assert Exec(Apply(w, s[0]), s[1..]) == Apply(w, s[0]);
  }

  lemma ExecTwo(w: World, s: seq<Step>)
    requires |s| == 2
    ensures Exec(w, s) == Apply(Apply(w, s[0]), s[1])
  {
    ExecOne(Apply(w, s[0]), s[1..]);
  }

  lemma ExecThree(w: World, s: seq<Step>)
    requires |s| >= 3
    ensures Exec(w, s) == Exec(Apply(Apply(Apply(w, s[0]), s[1]), s[2]), s[3..])
  {
    var w1 := Apply(w, s[0]);
    assert s[1..][1..] == s[2..] && s[2..][1..] == s[3..];
    assert Exec(w1, s[1..]) == Exec(Apply(w1, s[1]), s[2..]);
  }

  /** An allocate whose read of the table fails leaves everything as it was. */
  lemma ReadFailureLeaves(w: World, ws: WorkspaceId)
    requires w.phase == Up && ws !in w.pending && ws !in w.cache
    ensures Exec(w, [Allocate(ws), ReadFails(ws)]) == w
  {
    ExecTwo(w, [Allocate(ws), ReadFails(ws)]);
    assert w.pending[ws := AllocateReads] - {ws} == w.pending;
  }

  lemma {:induction false} ExecAppend(w: World, s: seq<Step>, t: seq<Step>)
    ensures Exec(w, s + t) == Exec(Exec(w, s), t)
    decreases |s|
  {
    if |s| == 0 {
      assert s + t == t;
    } else {
      assert (s + t)[1..] == s[1..] + t;
      ExecAppend(Apply(w, s[0]), s[1..], t);
    }
  }

  /** The steps up to the write on its way. */
  ghost function Sends(ws: WorkspaceId, draws: Draws): seq<Step> {
    [Allocate(ws), ReadLease(ws), ResumeAllocate(ws, draws)]
  }

  lemma ExecSends(w: World, ws: WorkspaceId, draws: Draws)
    ensures Exec(w, Sends(ws, draws)) == SendAllocate(w, ws, draws)
  {
    ExecThree(w, Sends(ws, draws));
  }
}
