/**
 Provisioning a workspace: claim a GPU, take a clone slot, clone, configure and start the VM, with
 the rollback each failure takes.  Any number of attempts run at once, for warm and for user
 workspaces; an external call may fail, and an attempt may crash between any two writes.
 */
module Provisioning {
  import opened Wrappers

  type GpuId = nat
  type WorkspaceId = nat
  type Node = nat
  type Pid = nat

  const CLONE_SEMAPHORE_TIMEOUT_MS: nat := 900_000

  datatype GpuStatus = FREE | ALLOCATED
  datatype Gpu = Gpu(node: Node, status: GpuStatus, owner: Option<WorkspaceId>)

  /** `workspaceId` is the key of the table and `gpuId` is unique in it, released rows included. */
  datatype Allocation = Allocation(gpu: GpuId, released: bool)

  /** A row of the clone semaphore; `workspaceId` is unique, released rows included. */
  datatype Slot = Slot(node: Node, acquiredAt: int, released: bool)

  datatype WsStatus = CREATING | WAITING_FOR_AGENT | FAILED
  datatype Workspace = Workspace(status: WsStatus, warm: bool, hasVm: bool)

  datatype Tables = Tables(
    gpus: map<GpuId, Gpu>,
    allocations: map<WorkspaceId, Allocation>,
    slots: map<WorkspaceId, Slot>,
    workspaces: map<WorkspaceId, Workspace>)

  /** Where an attempt stands: the write or call it makes next. */
  datatype Pc =
    | Claim | LostClaim
    | Acquire | DeferFree | DeferDelete | DeferDrop
    | Clone | ReleaseSlot | Configure | MarkWaiting
    | FailReleaseSlot | FailMark | FailFree | FailDelete | DeleteVm

  datatype Attempt = Attempt(pc: Pc, ws: WorkspaceId, warm: bool, gpu: GpuId, node: Node)

  datatype World = World(t: Tables, cap: nat, now: int, attempts: map<Pid, Attempt>)

  datatype Step =
    | Tick(ms: nat)
    | BeginWarm(pid: Pid, ws: WorkspaceId, gpu: GpuId)
    | BeginCold(pid: Pid, ws: WorkspaceId, gpu: GpuId)
    | NoCapacity(ws: WorkspaceId)
    | Go(pid: Pid)
    | Fail(pid: Pid)
    | Crash(pid: Pid)
    | Sweep
    | TearDown(ws: WorkspaceId)

  // ---------------------------------------------------------------------------------------------
  // Transactions
  // ---------------------------------------------------------------------------------------------

  function Freed(g: Gpu): Gpu {
    g.(status := FREE, owner := None)
  }

  predicate HasRow(allocations: map<WorkspaceId, Allocation>, g: GpuId) {
    exists ws :: ws in allocations && allocations[ws].gpu == g
  }

  datatype ClaimResult = Claimed(t: Tables) | AlreadyClaimed | Rejected

  /** The claiming transaction: a guarded update of the GPU and the insert of the allocation row, whose
      unique columns may reject it. */
  function ClaimTx(t: Tables, ws: WorkspaceId, g: GpuId): ClaimResult {
    if g !in t.gpus || t.gpus[g].status != FREE then AlreadyClaimed
    else if ws in t.allocations || HasRow(t.allocations, g) then Rejected
    else Claimed(t.(gpus := t.gpus[g := t.gpus[g].(status := ALLOCATED, owner := Some(ws))],
                    allocations := t.allocations[ws := Allocation(g, false)]))
  }

  function Active(slots: map<WorkspaceId, Slot>, node: Node): set<WorkspaceId> {
    set ws | ws in slots && slots[ws].node == node && !slots[ws].released
  }

  predicate HasSlot(slots: map<WorkspaceId, Slot>, ws: WorkspaceId) {
    ws in slots && !slots[ws].released
  }

  /** `acquireCloneSemaphore`: full, or a row of this workspace is there already, is a refusal. */
  predicate CanAcquire(slots: map<WorkspaceId, Slot>, cap: nat, ws: WorkspaceId, node: Node) {
    |Active(slots, node)| < cap && ws !in slots
  }

  function Released(slots: map<WorkspaceId, Slot>, ws: WorkspaceId): map<WorkspaceId, Slot> {
    if ws in slots then slots[ws := slots[ws].(released := true)] else slots
  }

  /** `cleanupOrphanedSemaphores`. */
  function Swept(slots: map<WorkspaceId, Slot>, now: int): map<WorkspaceId, Slot> {
    map ws | ws in slots ::
      if slots[ws].acquiredAt < now - CLONE_SEMAPHORE_TIMEOUT_MS then slots[ws].(released := true) else slots[ws]
  }

  function FreeTx(t: Tables, g: GpuId): Tables {
    if g in t.gpus then t.(gpus := t.gpus[g := Freed(t.gpus[g])]) else t
  }

  function DeleteRowTx(t: Tables, ws: WorkspaceId): Tables {
    t.(allocations := t.allocations - {ws})
  }

  function StatusTx(t: Tables, ws: WorkspaceId, status: WsStatus): Tables {
    if ws in t.workspaces then t.(workspaces := t.workspaces[ws := t.workspaces[ws].(status := status)]) else t
  }

  /** A deferred warm workspace is deleted; a deferred user workspace waits for the next tick. */
  function DropTx(t: Tables, a: Attempt): Tables {
    if a.ws !in t.workspaces then t
    else if a.warm then t.(workspaces := t.workspaces - {a.ws})
    else t.(workspaces := t.workspaces[a.ws := t.workspaces[a.ws].(hasVm := false)])
  }

  /** What the next write or call does to the tables. */
  function Effect(t: Tables, cap: nat, now: int, a: Attempt): Tables {
    match a.pc
    case Claim => var r := ClaimTx(t, a.ws, a.gpu); if r.Claimed? then r.t else t
    case Acquire =>
      if CanAcquire(t.slots, cap, a.ws, a.node) then t.(slots := t.slots[a.ws := Slot(a.node, now, false)]) else t
    case ReleaseSlot => t.(slots := Released(t.slots, a.ws))
    case FailReleaseSlot => t.(slots := Released(t.slots, a.ws))
    case MarkWaiting => StatusTx(t, a.ws, WAITING_FOR_AGENT)
    case FailMark => StatusTx(t, a.ws, FAILED)
    case DeferFree => FreeTx(t, a.gpu)
    case FailFree => FreeTx(t, a.gpu)
    case DeferDelete => DeleteRowTx(t, a.ws)
    case FailDelete => DeleteRowTx(t, a.ws)
    case LostClaim => DropTx(t, a)
    case DeferDrop => DropTx(t, a)
    case Clone => t
    case Configure => t
    case DeleteVm => t
  }

  /** Where that leads; `None` is the attempt's return or, after a rejected claim, its throw. */
  function Next(t: Tables, cap: nat, a: Attempt): Option<Pc> {
    match a.pc
    case Claim =>
      (match ClaimTx(t, a.ws, a.gpu)
       case Claimed(_) => Some(Acquire)
       case AlreadyClaimed => Some(LostClaim)
       case Rejected => None)
    case LostClaim => None
    case Acquire => Some(if CanAcquire(t.slots, cap, a.ws, a.node) then Clone else DeferFree)
    case DeferFree => Some(DeferDelete)
    case DeferDelete => Some(DeferDrop)
    case DeferDrop => None
    case Clone => Some(ReleaseSlot)
    case ReleaseSlot => Some(Configure)
    case Configure => Some(MarkWaiting)
    case MarkWaiting => None
    case FailReleaseSlot => Some(FailMark)
    case FailMark => Some(FailFree)
    case FailFree => Some(FailDelete)
    case FailDelete => Some(DeleteVm)
    case DeleteVm => None
  }

  /** The calls inside the `try`, whose failure leads to the rollback. */
  predicate Guarded(pc: Pc) {
    pc in {Clone, ReleaseSlot, Configure, MarkWaiting}
  }

  /** A failed claim is thrown, a failed slot transaction counts as a refusal, and a failed call of the
      `try` is caught. */
  predicate CanFail(pc: Pc) {
    pc == Claim || pc == Acquire || Guarded(pc)
  }

  function OnFailure(pc: Pc): Option<Pc>
    requires CanFail(pc)
  {
    if pc == Claim then None else if pc == Acquire then Some(DeferFree) else Some(FailReleaseSlot)
  }

  // ---------------------------------------------------------------------------------------------
  // The system
  // ---------------------------------------------------------------------------------------------

  function Moved(w: World, pid: Pid, t: Tables, pc: Option<Pc>): World
    requires pid in w.attempts
  {
    w.(t := t, attempts := if pc.Some? then w.attempts[pid := w.attempts[pid].(pc := pc.value)] else w.attempts - {pid})
  }

  function GoStep(w: World, pid: Pid): World {
    if pid !in w.attempts then w
    else var a := w.attempts[pid]; Moved(w, pid, Effect(w.t, w.cap, w.now, a), Next(w.t, w.cap, a))
  }

  function FailStep(w: World, pid: Pid): World {
    if pid in w.attempts && CanFail(w.attempts[pid].pc) then Moved(w, pid, w.t, OnFailure(w.attempts[pid].pc)) else w
  }

  predicate FreeNow(w: World, g: GpuId) {
    g in w.t.gpus && w.t.gpus[g].status == FREE
  }

  /** The identifier of a warm workspace is new. */
  ghost predicate CanBeginWarm(w: World, pid: Pid, ws: WorkspaceId, g: GpuId) {
    && pid !in w.attempts && FreeNow(w, g)
    && ws !in w.t.workspaces && ws !in w.t.allocations && ws !in w.t.slots
    && forall q | q in w.attempts :: w.attempts[q].ws != ws
  }

  ghost function BeginWarmStep(w: World, pid: Pid, ws: WorkspaceId, g: GpuId): World {
    if !CanBeginWarm(w, pid, ws, g) then w
    else w.(t := w.t.(workspaces := w.t.workspaces[ws := Workspace(CREATING, true, true)]),
            attempts := w.attempts[pid := Attempt(Claim, ws, true, g, w.t.gpus[g].node)])
  }

  /** The list of user workspaces may be stale by the time one is begun. */
  predicate CanBeginCold(w: World, pid: Pid, ws: WorkspaceId, g: GpuId) {
    pid !in w.attempts && FreeNow(w, g) && ws in w.t.workspaces && !w.t.workspaces[ws].warm
  }

  function BeginColdStep(w: World, pid: Pid, ws: WorkspaceId, g: GpuId): World {
    if !CanBeginCold(w, pid, ws, g) then w
    else w.(t := w.t.(workspaces := w.t.workspaces[ws := w.t.workspaces[ws].(hasVm := true)]),
            attempts := w.attempts[pid := Attempt(Claim, ws, false, g, w.t.gpus[g].node)])
  }

  /** The cleanup of a workspace that no attempt is working on: its row stays, released. */
  ghost function TearDownStep(w: World, ws: WorkspaceId): World {
    if ws !in w.t.allocations || (exists p :: p in w.attempts && w.attempts[p].ws == ws) then w
    else
      var row := w.t.allocations[ws];
      w.(t := FreeTx(w.t, row.gpu).(allocations := w.t.allocations[ws := row.(released := true)]))
  }

  ghost function Apply(w: World, step: Step): World {
    match step
    case Tick(ms) => w.(now := w.now + ms)
    case BeginWarm(pid, ws, g) => BeginWarmStep(w, pid, ws, g)
    case BeginCold(pid, ws, g) => BeginColdStep(w, pid, ws, g)
    case NoCapacity(ws) =>
      if ws in w.t.workspaces && !w.t.workspaces[ws].warm then w.(t := StatusTx(w.t, ws, FAILED)) else w
    case Go(pid) => GoStep(w, pid)
    case Fail(pid) => FailStep(w, pid)
    case Crash(pid) => w.(attempts := w.attempts - {pid})
    case Sweep => w.(t := w.t.(slots := Swept(w.t.slots, w.now)))
    case TearDown(ws) => TearDownStep(w, ws)
  }

  ghost function Exec(w: World, steps: seq<Step>): World
    decreases |steps|
  {
    if steps == [] then w else Exec(Apply(w, steps[0]), steps[1..])
  }

  // ---------------------------------------------------------------------------------------------
  // The invariant
  // ---------------------------------------------------------------------------------------------

  /** The attempt's claim stands: it has its allocation row. */
  predicate Holds(pc: Pc) {
    pc !in {Claim, LostClaim, DeferDrop, DeleteVm}
  }

  /** Its GPU is back already, the row not yet. */
  predicate GaveBack(pc: Pc) {
    pc in {DeferDelete, FailDelete}
  }

  predicate MayHaveSlot(pc: Pc) {
    pc in {Clone, ReleaseSlot, FailReleaseSlot}
  }

  ghost predicate AttemptOk(t: Tables, a: Attempt) {
    a.ws in t.workspaces && t.workspaces[a.ws].warm == a.warm && (Holds(a.pc) ==>
      && a.ws in t.allocations && t.allocations[a.ws] == Allocation(a.gpu, false)
      && a.gpu in t.gpus && t.gpus[a.gpu].status == (if GaveBack(a.pc) then FREE else ALLOCATED)
      && (!MayHaveSlot(a.pc) ==> !HasSlot(t.slots, a.ws)))
  }

  ghost predicate RowsUnique(allocations: map<WorkspaceId, Allocation>) {
    forall a, b | a in allocations && b in allocations && allocations[a].gpu == allocations[b].gpu :: a == b
  }

  /** A GPU is owned exactly when it is ALLOCATED, and its owner has the unreleased row of it. */
  ghost predicate GpusMatch(gpus: map<GpuId, Gpu>, allocations: map<WorkspaceId, Allocation>) {
    forall g | g in gpus ::
      && (gpus[g].status == FREE <==> gpus[g].owner.None?)
      && (gpus[g].owner.Some?
          ==> gpus[g].owner.value in allocations && allocations[gpus[g].owner.value] == Allocation(g, false))
  }

  ghost predicate SlotsOwned(slots: map<WorkspaceId, Slot>, allocations: map<WorkspaceId, Allocation>) {
    forall ws | HasSlot(slots, ws) :: ws in allocations
  }

  ghost predicate WithinCap(slots: map<WorkspaceId, Slot>, cap: nat) {
    forall node :: |Active(slots, node)| <= cap
  }

  ghost predicate TablesOk(t: Tables, cap: nat) {
    RowsUnique(t.allocations) && GpusMatch(t.gpus, t.allocations) && SlotsOwned(t.slots, t.allocations)
      && WithinCap(t.slots, cap)
  }

  /** Two attempts never hold claims of one workspace, and a warm workspace has one attempt only. */
  ghost predicate Apart(attempts: map<Pid, Attempt>) {
    forall p, q | p in attempts && q in attempts && attempts[p].ws == attempts[q].ws && p != q ::
      !attempts[p].warm && !attempts[q].warm && !(Holds(attempts[p].pc) && Holds(attempts[q].pc))
  }

  ghost predicate Inv(w: World) {
    && TablesOk(w.t, w.cap)
    && Apart(w.attempts)
    && forall p | p in w.attempts :: AttemptOk(w.t, w.attempts[p])
  }

  /** The tables change at the attempt's workspace and GPU only, and only a warm workspace can go. */
  ghost predicate TouchesOnly(t: Tables, t': Tables, a: Attempt) {
    && (forall x | x in t.workspaces && (x != a.ws || !a.warm) ::
          x in t'.workspaces && t'.workspaces[x].warm == t.workspaces[x].warm)
    && (forall x | x in t.allocations && x != a.ws :: x in t'.allocations && t'.allocations[x] == t.allocations[x])
    && (forall x | x in t.gpus && x != a.gpu :: x in t'.gpus && t'.gpus[x] == t.gpus[x])
    && (forall x | HasSlot(t'.slots, x) && x != a.ws :: HasSlot(t.slots, x))
  }

  predicate SameClaims(t: Tables, t': Tables) {
    t'.gpus == t.gpus && t'.allocations == t.allocations && t'.slots == t.slots
  }

  /** What one attempt does leaves the claims of all others in order. */
  lemma OthersSurvive(w: World, w': World, pid: Pid)
    requires Inv(w) && pid in w.attempts && TouchesOnly(w.t, w'.t, w.attempts[pid])
    requires forall q | q in w'.attempts && q != pid :: q in w.attempts && w'.attempts[q] == w.attempts[q]
    requires pid in w'.attempts
             ==> w'.attempts[pid] == w.attempts[pid].(pc := w'.attempts[pid].pc) && AttemptOk(w'.t, w'.attempts[pid])
    requires TablesOk(w'.t, w.cap) && w'.cap == w.cap
    requires SameClaims(w.t, w'.t) || ClaimIsOwn(w, pid)
    requires pid in w'.attempts && Holds(w'.attempts[pid].pc) ==> ClaimIsOwn(w, pid)
    ensures Inv(w')
  {
    forall q | q in w'.attempts ensures AttemptOk(w'.t, w'.attempts[q]) {
      if q != pid { assert AttemptOk(w.t, w.attempts[q]); }
    }
  }

  /** No other attempt holds this attempt's workspace or GPU. */
  ghost predicate ClaimIsOwn(w: World, pid: Pid)
    requires pid in w.attempts
  {
    forall q | q in w.attempts && q != pid && Holds(w.attempts[q].pc) ::
      w.attempts[q].ws != w.attempts[pid].ws && w.attempts[q].gpu != w.attempts[pid].gpu
  }

  /** A claim is its attempt's own from the transaction that makes it to the deletion of its row. */
  lemma HolderIsAlone(w: World, pid: Pid)
    requires Inv(w) && pid in w.attempts
    requires Holds(w.attempts[pid].pc)
             || (w.attempts[pid].pc == Claim && ClaimTx(w.t, w.attempts[pid].ws, w.attempts[pid].gpu).Claimed?)
    ensures ClaimIsOwn(w, pid)
  {
    assert AttemptOk(w.t, w.attempts[pid]);
    forall q | q in w.attempts && q != pid && Holds(w.attempts[q].pc)
      ensures w.attempts[q].ws != w.attempts[pid].ws && w.attempts[q].gpu != w.attempts[pid].gpu
    {
      assert AttemptOk(w.t, w.attempts[q]);
    }
  }

  // Tables.

  lemma AcquireKeepsCap(slots: map<WorkspaceId, Slot>, cap: nat, ws: WorkspaceId, slot: Slot)
    requires WithinCap(slots, cap) && CanAcquire(slots, cap, ws, slot.node)
    ensures WithinCap(slots[ws := slot], cap)
  {
    var slots' := slots[ws := slot];
    forall node: Node ensures |Active(slots', node)| <= cap {
      if node == slot.node && !slot.released {
        assert Active(slots', node) == Active(slots, node) + {ws};
      } else {
        assert Active(slots', node) == Active(slots, node);
      }
    }
  }

  lemma {:induction false} SubsetIsSmaller(a: set<WorkspaceId>, b: set<WorkspaceId>)
    requires a <= b
    ensures |a| <= |b|
  {
    assert b == a + (b - a);
  }

  lemma FewerKeepsCap(slots: map<WorkspaceId, Slot>, slots': map<WorkspaceId, Slot>, cap: nat)
    requires WithinCap(slots, cap)
    requires forall ws | ws in slots' && !slots'[ws].released ::
             ws in slots && !slots[ws].released && slots'[ws].node == slots[ws].node
    ensures WithinCap(slots', cap)
  {
    forall node ensures |Active(slots', node)| <= cap {
      SubsetIsSmaller(Active(slots', node), Active(slots, node));
    }
  }

  lemma SlotReleaseKeeps(t: Tables, cap: nat, ws: WorkspaceId)
    requires TablesOk(t, cap)
    ensures TablesOk(t.(slots := Released(t.slots, ws)), cap)
  {
    FewerKeepsCap(t.slots, Released(t.slots, ws), cap);
  }

  lemma SlotEffectKeepsTables(t: Tables, cap: nat, now: int, a: Attempt)
    requires TablesOk(t, cap) && AttemptOk(t, a) && a.pc in {Acquire, ReleaseSlot, FailReleaseSlot}
    ensures var t' := Effect(t, cap, now, a); TablesOk(t', cap) && TouchesOnly(t, t', a)
  {
    if a.pc != Acquire {
      SlotReleaseKeeps(t, cap, a.ws);
    } else if CanAcquire(t.slots, cap, a.ws, a.node) {
      AcquireKeepsCap(t.slots, cap, a.ws, Slot(a.node, now, false));
    }
  }

  lemma ClaimKeepsTables(t: Tables, cap: nat, ws: WorkspaceId, g: GpuId)
    requires TablesOk(t, cap)
    ensures var r := ClaimTx(t, ws, g); r.Claimed? ==> TablesOk(r.t, cap)
  {
  }

  lemma FreeKeepsTables(t: Tables, cap: nat, a: Attempt)
    requires TablesOk(t, cap) && AttemptOk(t, a) && Holds(a.pc)
    ensures TablesOk(FreeTx(t, a.gpu), cap)
    ensures GaveBack(a.pc) ==> TablesOk(DeleteRowTx(t, a.ws), cap)
  {
  }

  lemma EffectKeepsTables(t: Tables, cap: nat, now: int, a: Attempt)
    requires TablesOk(t, cap) && AttemptOk(t, a)
    ensures var t' := Effect(t, cap, now, a); TablesOk(t', cap) && TouchesOnly(t, t', a)
  {
    match a.pc
    case Claim => ClaimKeepsTables(t, cap, a.ws, a.gpu);
    case Acquire => SlotEffectKeepsTables(t, cap, now, a);
    case ReleaseSlot => SlotEffectKeepsTables(t, cap, now, a);
    case FailReleaseSlot => SlotEffectKeepsTables(t, cap, now, a);
    case DeferFree => FreeKeepsTables(t, cap, a);
    case FailFree => FreeKeepsTables(t, cap, a);
    case DeferDelete => FreeKeepsTables(t, cap, a);
    case FailDelete => FreeKeepsTables(t, cap, a);
    case _ =>
  }

  lemma NextIsOk(t: Tables, cap: nat, now: int, a: Attempt)
    requires TablesOk(t, cap) && AttemptOk(t, a)
    ensures Next(t, cap, a).Some? ==> AttemptOk(Effect(t, cap, now, a), a.(pc := Next(t, cap, a).value))
  {
  }

  lemma GoKeeps(w: World, pid: Pid)
    requires Inv(w)
    ensures Inv(GoStep(w, pid))
  {
    if pid in w.attempts {
      var a := w.attempts[pid];
      EffectKeepsTables(w.t, w.cap, w.now, a);
      NextIsOk(w.t, w.cap, w.now, a);
      if Holds(a.pc) || (a.pc == Claim && ClaimTx(w.t, a.ws, a.gpu).Claimed?) {
        HolderIsAlone(w, pid);
      }
      OthersSurvive(w, GoStep(w, pid), pid);
    }
  }

  lemma FailKeeps(w: World, pid: Pid)
    requires Inv(w)
    ensures Inv(FailStep(w, pid))
  {
    if pid in w.attempts && CanFail(w.attempts[pid].pc) {
      assert AttemptOk(w.t, w.attempts[pid]);
      if Holds(w.attempts[pid].pc) {
        HolderIsAlone(w, pid);
      }
      OthersSurvive(w, FailStep(w, pid), pid);
    }
  }

  /** Attempts stay in order when their rows, GPUs and slots do. */
  lemma AllSurvive(w: World, w': World)
    requires Inv(w) && TablesOk(w'.t, w'.cap)
    requires forall q | q in w'.attempts :: q in w.attempts && w'.attempts[q] == w.attempts[q]
    requires w'.t.gpus == w.t.gpus && w'.t.allocations == w.t.allocations
    requires forall ws | HasSlot(w'.t.slots, ws) :: HasSlot(w.t.slots, ws)
    requires forall ws | ws in w.t.workspaces ::
             ws in w'.t.workspaces && w'.t.workspaces[ws].warm == w.t.workspaces[ws].warm
    ensures Inv(w')
  {
    forall q | q in w'.attempts ensures AttemptOk(w'.t, w'.attempts[q]) {
      assert AttemptOk(w.t, w.attempts[q]);
    }
  }

  lemma SweepKeeps(w: World)
    requires Inv(w)
    ensures Inv(Apply(w, Sweep))
  {
    FewerKeepsCap(w.t.slots, Swept(w.t.slots, w.now), w.cap);
    AllSurvive(w, Apply(w, Sweep));
  }

  lemma BeginKeeps(w: World, w': World, pid: Pid)
    requires Inv(w) && pid !in w.attempts && pid in w'.attempts && w'.attempts == w.attempts[pid := w'.attempts[pid]]
    requires w'.cap == w.cap && SameClaims(w.t, w'.t)
    requires forall ws | ws in w.t.workspaces ::
             ws in w'.t.workspaces && w'.t.workspaces[ws].warm == w.t.workspaces[ws].warm
    requires var a := w'.attempts[pid];
             a.pc == Claim && a.ws in w'.t.workspaces && w'.t.workspaces[a.ws].warm == a.warm
             && forall q | q in w.attempts && w.attempts[q].ws == a.ws :: !a.warm && !w.attempts[q].warm
    ensures Inv(w')
  {
    forall q | q in w'.attempts ensures AttemptOk(w'.t, w'.attempts[q]) {
      if q != pid { assert AttemptOk(w.t, w.attempts[q]); }
    }
  }

  lemma BeginColdIsApart(w: World, ws: WorkspaceId)
    requires Inv(w) && ws in w.t.workspaces && !w.t.workspaces[ws].warm
    ensures forall q | q in w.attempts && w.attempts[q].ws == ws :: !w.attempts[q].warm
  {
    forall q | q in w.attempts && w.attempts[q].ws == ws ensures !w.attempts[q].warm {
      assert AttemptOk(w.t, w.attempts[q]);
    }
  }

  lemma TearDownKeeps(w: World, ws: WorkspaceId)
    requires Inv(w)
    ensures Inv(TearDownStep(w, ws))
  {
    var w' := TearDownStep(w, ws);
    if w' != w {
      forall q | q in w'.attempts ensures AttemptOk(w'.t, w'.attempts[q]) {
        assert AttemptOk(w.t, w.attempts[q]) && w.attempts[q].ws != ws;
      }
    }
  }

  lemma StepKeeps(w: World, step: Step)
    requires Inv(w)
    ensures Inv(Apply(w, step))
  {
    match step
    case Tick(_) => AllSurvive(w, Apply(w, step));
    case BeginWarm(pid, ws, g) => if CanBeginWarm(w, pid, ws, g) { BeginKeeps(w, Apply(w, step), pid); }
    case BeginCold(pid, ws, g) =>
      if CanBeginCold(w, pid, ws, g) {
        BeginColdIsApart(w, ws);
        BeginKeeps(w, Apply(w, step), pid);
      }
    case NoCapacity(_) => AllSurvive(w, Apply(w, step));
    case Go(pid) => GoKeeps(w, pid);
    case Fail(pid) => FailKeeps(w, pid);
    case Crash(_) => AllSurvive(w, Apply(w, step));
    case Sweep => SweepKeeps(w);
    case TearDown(ws) => TearDownKeeps(w, ws);
  }

  lemma {:induction false} ExecKeeps(w: World, steps: seq<Step>)
    requires Inv(w)
    ensures Inv(Exec(w, steps))
    decreases |steps|
  {
    if steps == [] {
    } else {
      StepKeeps(w, steps[0]);
      ExecKeeps(Apply(w, steps[0]), steps[1..]);
    }
  }

  // ---------------------------------------------------------------------------------------------
  // Main results, over interleaved attempts
  // ---------------------------------------------------------------------------------------------

  ghost predicate OwnsExactly(t: Tables, ws: WorkspaceId, g: GpuId) {
    && (forall x | x in t.gpus :: t.gpus[x].owner == Some(ws) <==> x == g)
    && g in t.gpus && t.gpus[g].status == ALLOCATED
    && ws in t.allocations && t.allocations[ws] == Allocation(g, false)
  }

  ghost predicate Launched(t: Tables, ws: WorkspaceId, g: GpuId) {
    && OwnsExactly(t, ws, g) && !HasSlot(t.slots, ws)
    && ws in t.workspaces && t.workspaces[ws].status == WAITING_FOR_AGENT
  }

  ghost predicate NothingOf(t: Tables, ws: WorkspaceId) {
    && (forall x | x in t.gpus :: t.gpus[x].owner != Some(ws))
    && ws !in t.allocations && !HasSlot(t.slots, ws)
  }

  predicate HoldsIn(w: World, pid: Pid) {
    pid in w.attempts && Holds(w.attempts[pid].pc)
  }

  /** No GPU is claimed twice: attempts in progress hold different GPUs, an owner owns one GPU and has
      its row, and the unreleased slots of a node never exceed the cap. */
  lemma ClaimsAreExclusive(w0: World, steps: seq<Step>)
    requires Inv(w0)
    ensures var w := Exec(w0, steps);
            && w.cap == w0.cap
            && (forall p, q | HoldsIn(w, p) && HoldsIn(w, q) && p != q ::
                  w.attempts[p].gpu != w.attempts[q].gpu && w.attempts[p].ws != w.attempts[q].ws)
            && (forall g, h | g in w.t.gpus && h in w.t.gpus && w.t.gpus[g].owner.Some?
                && w.t.gpus[g].owner == w.t.gpus[h].owner :: g == h)
            && (forall node :: |Active(w.t.slots, node)| <= w.cap)
  {
    ExecKeeps(w0, steps);
    CapIsConstant(w0, steps);
    var w := Exec(w0, steps);
    forall p, q | HoldsIn(w, p) && HoldsIn(w, q) && p != q
      ensures w.attempts[p].gpu != w.attempts[q].gpu && w.attempts[p].ws != w.attempts[q].ws
    {
      HolderIsAlone(w, p);
    }
  }

  lemma {:induction false} CapIsConstant(w: World, steps: seq<Step>)
    ensures Exec(w, steps).cap == w.cap
    decreases |steps|
  {
    if steps == [] {
    } else {
      CapIsConstant(Apply(w, steps[0]), steps[1..]);
    }
  }

  /** A claim ends in one of two ways, whatever else is going on: the workspace waits for its agent with
      that one GPU and no slot, or it has no GPU, no row and no slot. */
  lemma ClaimEndsAllOrNothing(w0: World, steps: seq<Step>, step: Step)
    requires Inv(w0) && (step.Go? || step.Fail?)
    requires HoldsIn(Exec(w0, steps), step.pid) && !HoldsIn(Exec(w0, steps + [step]), step.pid)
    ensures var a := Exec(w0, steps).attempts[step.pid];
            var t := Exec(w0, steps + [step]).t;
            if a.pc == MarkWaiting then Launched(t, a.ws, a.gpu) else NothingOf(t, a.ws)
  {
    ExecKeeps(w0, steps);
    ExecAppend(w0, steps, step);
    ClaimEnds(Exec(w0, steps), step);
  }

  lemma ClaimEnds(w: World, step: Step)
    requires Inv(w) && (step.Go? || step.Fail?) && HoldsIn(w, step.pid) && !HoldsIn(Apply(w, step), step.pid)
    ensures var a := w.attempts[step.pid]; var t := Apply(w, step).t;
            if a.pc == MarkWaiting then Launched(t, a.ws, a.gpu) else NothingOf(t, a.ws)
  {
    assert AttemptOk(w.t, w.attempts[step.pid]);
  }

  lemma {:induction false} ExecAppend(w: World, steps: seq<Step>, step: Step)
    ensures Exec(w, steps + [step]) == Apply(Exec(w, steps), step)
    decreases |steps|
  {
    if steps == [] {
      assert [step][1..] == [];
      assert Exec(w, [step]) == Exec(Apply(w, step), [step][1..]);
    } else {
      assert (steps + [step])[1..] == steps[1..] + [step];
      ExecAppend(Apply(w, steps[0]), steps[1..], step);
    }
  }

  /** An attempt without a claim changes no GPU, row or slot, except by making its claim, which it can
      exactly when the GPU is FREE and neither it nor the workspace has a row. */
  lemma UnclaimedChangesNothing(w: World, pid: Pid)
    requires Inv(w) && pid in w.attempts && !Holds(w.attempts[pid].pc)
    ensures var w' := GoStep(w, pid); var a := w.attempts[pid];
            if a.pc == Claim && FreeNow(w, a.gpu) && a.ws !in w.t.allocations && !HasRow(w.t.allocations, a.gpu)
            then OwnsExactly(w'.t, a.ws, a.gpu) && !HasSlot(w'.t.slots, a.ws) && HoldsIn(w', pid)
            else SameClaims(w.t, w'.t) && !HoldsIn(w', pid)
  {
    GoKeeps(w, pid);
  }

  /** The released row that a teardown leaves keeps its GPU from ever being claimed again. */
  predicate Stranded(w: World, ws: WorkspaceId, g: GpuId) {
    ws in w.t.allocations && w.t.allocations[ws] == Allocation(g, true) && FreeNow(w, g)
  }

  /** The next write of an attempt that does not hold the workspace of a stranded GPU leaves it stranded. */
  lemma StrandedAfterEffect(w: World, a: Attempt, ws: WorkspaceId, g: GpuId)
    requires Inv(w) && Stranded(w, ws, g) && AttemptOk(w.t, a)
    ensures var t' := Effect(w.t, w.cap, w.now, a);
            && ws in t'.allocations && t'.allocations[ws] == Allocation(g, true)
            && g in t'.gpus && t'.gpus[g].status == FREE
  {
  }

  lemma StrandedAfterStep(w: World, step: Step, ws: WorkspaceId, g: GpuId)
    requires Inv(w) && Stranded(w, ws, g)
    ensures Stranded(Apply(w, step), ws, g)
  {
    if step.Go? {
      if step.pid in w.attempts {
        assert AttemptOk(w.t, w.attempts[step.pid]);
        StrandedAfterEffect(w, w.attempts[step.pid], ws, g);
      }
    }
  }

  lemma {:induction false} ReleasedGpuIsStranded(w: World, steps: seq<Step>, ws: WorkspaceId, g: GpuId)
    requires Inv(w) && Stranded(w, ws, g)
    ensures var w' := Exec(w, steps);
            Stranded(w', ws, g) && forall other :: ClaimTx(w'.t, other, g) == Rejected
    decreases |steps|
  {
    if steps == [] {
    } else {
      StepKeeps(w, steps[0]);
      StrandedAfterStep(w, steps[0], ws, g);
      ReleasedGpuIsStranded(Apply(w, steps[0]), steps[1..], ws, g);
    }
  }

  lemma TearDownStrands(w: World, ws: WorkspaceId)
    requires Inv(w) && ws in w.t.allocations && w.t.allocations[ws].gpu in w.t.gpus
    requires forall p | p in w.attempts :: w.attempts[p].ws != ws
    ensures Stranded(Apply(w, TearDown(ws)), ws, w.t.allocations[ws].gpu)
  {
  }

  // A losing attempt.

  predicate HasVm(t: Tables, ws: WorkspaceId) {
    ws in t.workspaces && t.workspaces[ws].hasVm
  }

  /** An attempt that has lost its claim or its slot is about to give the workspace up. */
  predicate GivesUp(pc: Pc) {
    pc == LostClaim || pc == DeferDrop
  }

  /** A user workspace whose GPU an attempt holds loses its VM mark, so that the next tick picks it up
      again, exactly when another attempt at it gives up. */
  lemma HolderLosesVmIff(w: World, step: Step, q: Pid)
    requires Inv(w) && HoldsIn(w, q) && HoldsIn(Apply(w, step), q) && HasVm(w.t, w.attempts[q].ws)
    ensures !HasVm(Apply(w, step).t, w.attempts[q].ws)
       <==> && step.Go? && step.pid in w.attempts && GivesUp(w.attempts[step.pid].pc)
            && w.attempts[step.pid].ws == w.attempts[q].ws
  {
    assert AttemptOk(w.t, w.attempts[q]);
    if step.Go? && step.pid in w.attempts {
      assert AttemptOk(w.t, w.attempts[step.pid]);
      GoKeepsOtherVms(w, step.pid, w.attempts[q].ws);
    }
  }

  /** A step of one attempt takes the VM mark of its own workspace only, and only by giving it up. */
  lemma GoKeepsOtherVms(w: World, pid: Pid, ws: WorkspaceId)
    requires pid in w.attempts && HasVm(w.t, ws)
    ensures var a := w.attempts[pid];
            HasVm(GoStep(w, pid).t, ws) <==> !(GivesUp(a.pc) && a.ws == ws)
  {
  }

  /** It happens: two ticks list the same user workspace and the same GPU, and the second to claim clears
      what the first has won. */
  lemma LoserClearsVm(w: World, p: Pid, q: Pid, ws: WorkspaceId, g: GpuId)
    requires p != q && p !in w.attempts && q !in w.attempts && CanBeginCold(w, p, ws, g)
    requires ws !in w.t.allocations && !HasRow(w.t.allocations, g)
    ensures var w2 := BeginColdStep(BeginColdStep(w, p, ws, g), q, ws, g);
            var w5 := GoStep(GoStep(GoStep(w2, p), q), q);
            HoldsIn(w5, p) && OwnedBy(w5.t, g, ws) && !HasVm(w5.t, ws) && q !in w5.attempts
  {
    var w2 := BeginColdStep(BeginColdStep(w, p, ws, g), q, ws, g);
    var w3 := GoStep(w2, p);
    assert w3.t == ClaimTx(w2.t, ws, g).t && w3.attempts[p].pc == Acquire;
    var w4 := GoStep(w3, q);
    assert w4.t == w3.t && w4.attempts[q].pc == LostClaim && w4.attempts[p].pc == Acquire;
  }

  predicate OwnedBy(t: Tables, g: GpuId, ws: WorkspaceId) {
    g in t.gpus && t.gpus[g].owner == Some(ws)
  }

  // ---------------------------------------------------------------------------------------------
  // Main results, one attempt from claim to return
  // ---------------------------------------------------------------------------------------------

  function StepsLeft(w: World, pid: Pid): nat {
    if pid !in w.attempts then 0
    else match w.attempts[pid].pc
      case Claim => 12
      case Acquire => 11
      case Clone => 10
      case ReleaseSlot => 9
      case Configure => 8
      case MarkWaiting => 7
      case FailReleaseSlot => 6
      case FailMark => 5
      case FailFree => 4
      case FailDelete => 3
      case DeferFree => 3
      case DeferDelete => 2
      case DeferDrop => 1
      case DeleteVm => 1
      case LostClaim => 1
  }

  /** The n-th call of an attempt fails when `ok(n)` is false; those of the rollback do not. */
  function StepOf(w: World, pid: Pid, ok: bool): Step
    requires pid in w.attempts
  {
    if !ok && CanFail(w.attempts[pid].pc) then Fail(pid) else Go(pid)
  }

  ghost function Run(w: World, pid: Pid, ok: nat -> bool, n: nat): World
    decreases StepsLeft(w, pid)
  {
    if pid in w.attempts then Run(Apply(w, StepOf(w, pid, ok(n))), pid, ok, n + 1) else w
  }

  /** The tables after a rollback from the `catch` block. */
  function RolledBack(t: Tables, a: Attempt): Tables {
    DeleteRowTx(FreeTx(StatusTx(t.(slots := Released(t.slots, a.ws)), a.ws, FAILED), a.gpu), a.ws)
  }

  function Deferred(t: Tables, a: Attempt): Tables {
    DropTx(DeleteRowTx(FreeTx(t, a.gpu), a.ws), a)
  }

  lemma RunGo(w: World, pid: Pid, ok: nat -> bool, n: nat)
    requires pid in w.attempts && (ok(n) || !CanFail(w.attempts[pid].pc))
    ensures Run(w, pid, ok, n) == Run(GoStep(w, pid), pid, ok, n + 1)
    ensures GoStep(w, pid).attempts - {pid} == w.attempts - {pid}
  {
  }

  lemma RunLast(w: World, pid: Pid, ok: nat -> bool, n: nat)
    requires pid in w.attempts && (ok(n) || !CanFail(w.attempts[pid].pc))
    requires Next(w.t, w.cap, w.attempts[pid]).None?
    ensures Run(w, pid, ok, n) == GoStep(w, pid)
  {
    RunGo(w, pid, ok, n);
  }

  /** The attempt is over, and these are the tables. */
  function Over(w: World, pid: Pid, t: Tables): World {
    w.(t := t, attempts := w.attempts - {pid})
  }

  /** What is over after a step is over before it. */
  lemma OverAfterGo(w: World, pid: Pid, t: Tables)
    requires pid in w.attempts
    ensures Over(GoStep(w, pid), pid, t) == Over(w, pid, t)
  {
    assert GoStep(w, pid).attempts - {pid} == w.attempts - {pid};
  }

  /** The first two writes of the `catch` block. */
  lemma RollbackRun(w: World, pid: Pid, ok: nat -> bool, n: nat)
    requires pid in w.attempts && w.attempts[pid].pc == FailReleaseSlot
    ensures Run(w, pid, ok, n) == Over(w, pid, RolledBack(w.t, w.attempts[pid]))
  {
    RunGo(w, pid, ok, n);
    OverAfterGo(w, pid, RolledBack(w.t, w.attempts[pid]));
    MarkRun(GoStep(w, pid), pid, ok, n + 1);
  }

  lemma MarkRun(w: World, pid: Pid, ok: nat -> bool, n: nat)
    requires pid in w.attempts && w.attempts[pid].pc == FailMark
    ensures var a := w.attempts[pid];
            Run(w, pid, ok, n) == Over(w, pid, DeleteRowTx(FreeTx(StatusTx(w.t, a.ws, FAILED), a.gpu), a.ws))
  {
    var a := w.attempts[pid];
    RunGo(w, pid, ok, n);
    OverAfterGo(w, pid, DeleteRowTx(FreeTx(StatusTx(w.t, a.ws, FAILED), a.gpu), a.ws));
    ReturnRun(GoStep(w, pid), pid, ok, n + 1);
  }

  /** The last three. */
  lemma ReturnRun(w: World, pid: Pid, ok: nat -> bool, n: nat)
    requires pid in w.attempts && w.attempts[pid].pc == FailFree
    ensures var a := w.attempts[pid]; Run(w, pid, ok, n) == Over(w, pid, DeleteRowTx(FreeTx(w.t, a.gpu), a.ws))
  {
    var a := w.attempts[pid];
    RunGo(w, pid, ok, n);
    OverAfterGo(w, pid, DeleteRowTx(FreeTx(w.t, a.gpu), a.ws));
    RowDeletionRun(GoStep(w, pid), pid, ok, n + 1);
  }

  lemma RowDeletionRun(w: World, pid: Pid, ok: nat -> bool, n: nat)
    requires pid in w.attempts && w.attempts[pid].pc == FailDelete
    ensures Run(w, pid, ok, n) == Over(w, pid, DeleteRowTx(w.t, w.attempts[pid].ws))
  {
    RunGo(w, pid, ok, n);
    OverAfterGo(w, pid, DeleteRowTx(w.t, w.attempts[pid].ws));
    RunLast(GoStep(w, pid), pid, ok, n + 1);
  }

  lemma DeferralRun(w: World, pid: Pid, ok: nat -> bool, n: nat)
    requires pid in w.attempts && w.attempts[pid].pc == DeferFree
    ensures Run(w, pid, ok, n) == Over(w, pid, Deferred(w.t, w.attempts[pid]))
  {
    RunGo(w, pid, ok, n);
    OverAfterGo(w, pid, Deferred(w.t, w.attempts[pid]));
    DeferralRunEnds(GoStep(w, pid), pid, ok, n + 1);
  }

  lemma DeferralRunEnds(w: World, pid: Pid, ok: nat -> bool, n: nat)
    requires pid in w.attempts && w.attempts[pid].pc == DeferDelete
    ensures var a := w.attempts[pid]; Run(w, pid, ok, n) == Over(w, pid, DropTx(DeleteRowTx(w.t, a.ws), a))
  {
    var a := w.attempts[pid];
    RunGo(w, pid, ok, n);
    OverAfterGo(w, pid, DropTx(DeleteRowTx(w.t, a.ws), a));
    RunLast(GoStep(w, pid), pid, ok, n + 1);
    DropIgnoresPlace(DeleteRowTx(w.t, a.ws), a, DeferDrop);
  }

  lemma DropIgnoresPlace(t: Tables, a: Attempt, pc: Pc)
    ensures DropTx(t, a.(pc := pc)) == DropTx(t, a)
  {
  }

  /** The four calls of the `try` block. */
  predicate AllWork(ok: nat -> bool, n: nat) {
    ok(n) && ok(n + 1) && ok(n + 2) && ok(n + 3)
  }

  lemma TryRun(w: World, pid: Pid, ok: nat -> bool, n: nat)
    requires pid in w.attempts && w.attempts[pid].pc == Clone
    ensures var a := w.attempts[pid];
            var launched := StatusTx(w.t.(slots := Released(w.t.slots, a.ws)), a.ws, WAITING_FOR_AGENT);
            Run(w, pid, ok, n) == Over(w, pid, if AllWork(ok, n) then launched else RolledBack(w.t, a))
  {
    if ok(n) {
      RunGo(w, pid, ok, n);
      ReleaseRun(GoStep(w, pid), pid, ok, n + 1);
      assert GoStep(w, pid).attempts - {pid} == w.attempts - {pid};
    } else {
      FailedRun(w, pid, ok, n);
    }
  }

  lemma ReleaseRun(w: World, pid: Pid, ok: nat -> bool, n: nat)
    requires pid in w.attempts && w.attempts[pid].pc == ReleaseSlot
    ensures var a := w.attempts[pid];
            var launched := StatusTx(w.t.(slots := Released(w.t.slots, a.ws)), a.ws, WAITING_FOR_AGENT);
            var works := ok(n) && ok(n + 1) && ok(n + 2);
            Run(w, pid, ok, n) == Over(w, pid, if works then launched else RolledBack(w.t, a))
  {
    if ok(n) {
      RunGo(w, pid, ok, n);
      ReleaseTwice(w.t.slots, w.attempts[pid].ws);
      StartRun(GoStep(w, pid), pid, ok, n + 1);
    } else {
      FailedRun(w, pid, ok, n);
    }
  }

  lemma StartRun(w: World, pid: Pid, ok: nat -> bool, n: nat)
    requires pid in w.attempts && w.attempts[pid].pc == Configure
    ensures var a := w.attempts[pid];
            var launched := StatusTx(w.t, a.ws, WAITING_FOR_AGENT);
            Run(w, pid, ok, n) == Over(w, pid, if ok(n) && ok(n + 1) then launched else RolledBack(w.t, a))
  {
    if ok(n) {
      RunGo(w, pid, ok, n);
      WaitRun(GoStep(w, pid), pid, ok, n + 1);
    } else {
      FailedRun(w, pid, ok, n);
    }
  }

  lemma WaitRun(w: World, pid: Pid, ok: nat -> bool, n: nat)
    requires pid in w.attempts && w.attempts[pid].pc == MarkWaiting
    ensures var a := w.attempts[pid];
            var launched := StatusTx(w.t, a.ws, WAITING_FOR_AGENT);
            Run(w, pid, ok, n) == Over(w, pid, if ok(n) then launched else RolledBack(w.t, a))
  {
    if ok(n) { RunLast(w, pid, ok, n); } else { FailedRun(w, pid, ok, n); }
  }

  lemma ReleaseTwice(slots: map<WorkspaceId, Slot>, ws: WorkspaceId)
    ensures Released(Released(slots, ws), ws) == Released(slots, ws)
  {
  }

  lemma FailedRun(w: World, pid: Pid, ok: nat -> bool, n: nat)
    requires pid in w.attempts && Guarded(w.attempts[pid].pc) && !ok(n)
    ensures Run(w, pid, ok, n) == Over(w, pid, RolledBack(w.t, w.attempts[pid]))
  {
    RunFail(w, pid, ok, n);
    RollbackRun(FailStep(w, pid), pid, ok, n + 1);
  }

  lemma RunFail(w: World, pid: Pid, ok: nat -> bool, n: nat)
    requires pid in w.attempts && !ok(n) && CanFail(w.attempts[pid].pc)
    ensures Run(w, pid, ok, n) == Run(FailStep(w, pid), pid, ok, n + 1)
    ensures FailStep(w, pid).attempts - {pid} == w.attempts - {pid}
    ensures w.attempts[pid].pc == Claim ==> Run(w, pid, ok, n) == w.(attempts := w.attempts - {pid})
  {
  }

  /** No GPU, row or unreleased slot is left behind. */
  ghost predicate ClaimUndone(t: Tables, t': Tables) {
    && t'.gpus == t.gpus && t'.allocations == t.allocations
    && forall ws :: HasSlot(t'.slots, ws) <==> HasSlot(t.slots, ws)
  }

  function WithSlot(t: Tables, now: int, a: Attempt): Tables {
    t.(slots := t.slots[a.ws := Slot(a.node, now, false)])
  }

  /** The tables at the end of a whole attempt. */
  function Ended(t: Tables, cap: nat, now: int, a: Attempt, ok: nat -> bool): Tables {
    if !ok(0) then t
    else match ClaimTx(t, a.ws, a.gpu)
      case Claimed(t1) =>
        if ok(1) && CanAcquire(t.slots, cap, a.ws, a.node) then Tried(t1, now, a, ok) else Deferred(t1, a)
      case AlreadyClaimed => DropTx(t, a)
      case Rejected => t
  }

  /** The tables after the `try`, from those the claim left. */
  function Tried(t: Tables, now: int, a: Attempt, ok: nat -> bool): Tables {
    var t2 := WithSlot(t, now, a);
    if AllWork(ok, 2) then StatusTx(t2.(slots := Released(t2.slots, a.ws)), a.ws, WAITING_FOR_AGENT)
    else RolledBack(t2, a)
  }

  /** From the slot transaction on. */
  lemma ClaimedRun(w: World, pid: Pid, ok: nat -> bool)
    requires pid in w.attempts && w.attempts[pid].pc == Acquire
    ensures var a := w.attempts[pid];
            var granted := ok(1) && CanAcquire(w.t.slots, w.cap, a.ws, a.node);
            Run(w, pid, ok, 1) == Over(w, pid, if granted then Tried(w.t, w.now, a, ok) else Deferred(w.t, a))
  {
    var a := w.attempts[pid];
    if !ok(1) {
      RunFail(w, pid, ok, 1);
      DeferralRun(FailStep(w, pid), pid, ok, 2);
    } else {
      RunGo(w, pid, ok, 1);
      if CanAcquire(w.t.slots, w.cap, a.ws, a.node) {
        TryRun(GoStep(w, pid), pid, ok, 2);
      } else {
        DeferralRun(GoStep(w, pid), pid, ok, 2);
      }
    }
  }

  lemma RunEnds(w: World, pid: Pid, ok: nat -> bool)
    requires pid in w.attempts && w.attempts[pid].pc == Claim
    ensures Run(w, pid, ok, 0) == Over(w, pid, Ended(w.t, w.cap, w.now, w.attempts[pid], ok))
  {
    var a := w.attempts[pid];
    if !ok(0) {
      RunFail(w, pid, ok, 0);
    } else {
      RunGo(w, pid, ok, 0);
      var w1 := GoStep(w, pid);
      match ClaimTx(w.t, a.ws, a.gpu)
      case Claimed(_) => ClaimedRun(w1, pid, ok);
      case AlreadyClaimed => RunLast(w1, pid, ok, 1);
      case Rejected =>
    }
  }

  predicate IsFree(t: Tables, g: GpuId) {
    g in t.gpus && t.gpus[g].status == FREE
  }

  /** No allocation row names the workspace or the GPU, released rows included. */
  predicate NoRowOf(t: Tables, ws: WorkspaceId, g: GpuId) {
    ws !in t.allocations && forall x | x in t.allocations :: t.allocations[x].gpu != g
  }

  /** The node has fewer unreleased slots than it may, and the workspace never had one. */
  predicate SlotFree(t: Tables, cap: nat, ws: WorkspaceId, node: Node) {
    ws !in t.slots && |set x | x in t.slots && t.slots[x].node == node && !t.slots[x].released| < cap
  }

  /** The attempt has left no trace but this: a warm workspace is gone, and a user workspace has no VM, so
      that it is picked up again. */
  ghost predicate GivenUp(t: Tables, a: Attempt, t': Tables) {
    && ClaimUndone(t, t') && a.ws in t.workspaces
    && t'.workspaces == if a.warm then t.workspaces - {a.ws}
                        else t.workspaces[a.ws := t.workspaces[a.ws].(hasVm := false)]
  }

  /** The workspace's status is the only change to the workspaces. */
  ghost predicate OnlyStatus(t: Tables, ws: WorkspaceId, status: WsStatus, t': Tables) {
    ws in t.workspaces && t'.workspaces == t.workspaces[ws := t.workspaces[ws].(status := status)]
  }

  /** The workspace waits for its agent and owns the GPU; no other GPU, row or unreleased slot changes. */
  ghost predicate Won(t: Tables, a: Attempt, t': Tables) {
    && a.gpu in t.gpus
    && t'.gpus == t.gpus[a.gpu := Gpu(t.gpus[a.gpu].node, ALLOCATED, Some(a.ws))]
    && t'.allocations == t.allocations[a.ws := Allocation(a.gpu, false)]
    && (forall x :: HasSlot(t'.slots, x) <==> HasSlot(t.slots, x))
    && OnlyStatus(t, a.ws, WAITING_FOR_AGENT, t')
  }

  /** What an attempt needs to launch. */
  predicate Launches(t: Tables, cap: nat, a: Attempt, ok: nat -> bool) {
    && IsFree(t, a.gpu) && NoRowOf(t, a.ws, a.gpu) && SlotFree(t, cap, a.ws, a.node)
    && ok(0) && ok(1) && ok(2) && ok(3) && ok(4) && ok(5)
  }

  /** An attempt launches exactly when its GPU is FREE without a row, a slot is free and no call fails.  In
      every other case GPUs, rows and unreleased slots are as it found them: the workspace is given up
      when the GPU or the slot was not to be had, FAILED when a later call failed, and untouched when the
      claim was thrown. */
  ghost predicate AllOrNothing(t: Tables, cap: nat, a: Attempt, ok: nat -> bool, t': Tables) {
    if Launches(t, cap, a, ok) then Launched(t', a.ws, a.gpu) && Won(t, a, t')
    else if !ok(0) then t' == t
    else if !IsFree(t, a.gpu) then GivenUp(t, a, t')
    else if !NoRowOf(t, a.ws, a.gpu) then t' == t
    else if !ok(1) || !SlotFree(t, cap, a.ws, a.node) then GivenUp(t, a, t')
    else ClaimUndone(t, t') && OnlyStatus(t, a.ws, FAILED, t')
  }

  lemma SlotFreeIff(t: Tables, cap: nat, ws: WorkspaceId, node: Node)
    ensures SlotFree(t, cap, ws, node) <==> CanAcquire(t.slots, cap, ws, node)
  {
    assert (set x | x in t.slots && t.slots[x].node == node && !t.slots[x].released) == Active(t.slots, node);
  }

  lemma LaunchesIff(t: Tables, cap: nat, a: Attempt, ok: nat -> bool)
    ensures Launches(t, cap, a, ok)
       <==> && ok(0) && ClaimTx(t, a.ws, a.gpu).Claimed?
            && ok(1) && CanAcquire(t.slots, cap, a.ws, a.node) && AllWork(ok, 2)
  {
    SlotFreeIff(t, cap, a.ws, a.node);
  }

  lemma EndedIsAllOrNothing(t: Tables, cap: nat, now: int, a: Attempt, ok: nat -> bool)
    requires TablesOk(t, cap) && AttemptOk(t, a) && a.pc == Claim
    ensures AllOrNothing(t, cap, a, ok, Ended(t, cap, now, a, ok))
  {
    SlotFreeIff(t, cap, a.ws, a.node);
    match ClaimTx(t, a.ws, a.gpu)
    case Claimed(t1) =>
      UndoneBy(t, a);
      if CanAcquire(t.slots, cap, a.ws, a.node) {
        RollbackUndoes(t, a, Slot(a.node, now, false));
        LaunchedBy(t, a, now, cap);
      }
    case _ =>
  }

  /** An attempt from its beginning at a new warm workspace: it is waiting for its agent, or FAILED with its
      GPU given back, or gone; or left CREATING when its claim was thrown. */
  lemma WarmAttemptEnds(w: World, pid: Pid, ws: WorkspaceId, g: GpuId, ok: nat -> bool)
    requires Inv(w) && CanBeginWarm(w, pid, ws, g)
    ensures var a := Attempt(Claim, ws, true, g, w.t.gpus[g].node);
            var w' := Run(Apply(w, BeginWarm(pid, ws, g)), pid, ok, 0);
            && w'.attempts == w.attempts
            && w'.t.workspaces ==
               if Launches(w.t, w.cap, a, ok) then w.t.workspaces[ws := Workspace(WAITING_FOR_AGENT, true, true)]
               else if !ok(0) || !NoRowOf(w.t, ws, g) then w.t.workspaces[ws := Workspace(CREATING, true, true)]
               else if !ok(1) || !SlotFree(w.t, w.cap, ws, a.node) then w.t.workspaces
               else w.t.workspaces[ws := Workspace(FAILED, true, true)]
  {
    var w1 := Apply(w, BeginWarm(pid, ws, g));
    StepKeeps(w, BeginWarm(pid, ws, g));
    RunIsAllOrNothing(w1, pid, ok);
    assert w1.t.workspaces - {ws} == w.t.workspaces && w1.attempts - {pid} == w.attempts;
  }

  /** And at a user workspace: it is waiting, or FAILED, or without its VM, to be picked up again; or as it was,
      but marked to have a VM, when its claim was thrown. */
  lemma ColdAttemptEnds(w: World, pid: Pid, ws: WorkspaceId, g: GpuId, ok: nat -> bool)
    requires Inv(w) && CanBeginCold(w, pid, ws, g)
    ensures var a, status := Attempt(Claim, ws, false, g, w.t.gpus[g].node), w.t.workspaces[ws].status;
            var w' := Run(Apply(w, BeginCold(pid, ws, g)), pid, ok, 0);
            && w'.attempts == w.attempts
            && w'.t.workspaces == w.t.workspaces[ws :=
               if Launches(w.t, w.cap, a, ok) then Workspace(WAITING_FOR_AGENT, false, true)
               else if !ok(0) || !NoRowOf(w.t, ws, g) then Workspace(status, false, true)
               else if !ok(1) || !SlotFree(w.t, w.cap, ws, a.node) then Workspace(status, false, false)
               else Workspace(FAILED, false, true)]
  {
    var w1 := Apply(w, BeginCold(pid, ws, g));
    StepKeeps(w, BeginCold(pid, ws, g));
    RunIsAllOrNothing(w1, pid, ok);
    assert w1.attempts - {pid} == w.attempts;
  }

  /** Without a GPU to offer the tick fails a user workspace, and changes nothing else. */
  lemma NoCapacityFails(w: World, ws: WorkspaceId)
    requires ws in w.t.workspaces && !w.t.workspaces[ws].warm
    ensures Apply(w, NoCapacity(ws))
         == w.(t := w.t.(workspaces := w.t.workspaces[ws := Workspace(FAILED, false, w.t.workspaces[ws].hasVm)]))
  {
  }

  /** The sweep releases exactly the slots that have been held for more than a quarter of an hour. */
  lemma SweepReleasesIff(w: World, ws: WorkspaceId)
    requires HasSlot(w.t.slots, ws)
    ensures HasSlot(Apply(w, Sweep).t.slots, ws) <==> w.now - w.t.slots[ws].acquiredAt <= 900_000
  {
  }

  lemma RunIsAllOrNothing(w: World, pid: Pid, ok: nat -> bool)
    requires Inv(w) && pid in w.attempts && w.attempts[pid].pc == Claim
    ensures var w' := Run(w, pid, ok, 0);
            w'.attempts == w.attempts - {pid} && AllOrNothing(w.t, w.cap, w.attempts[pid], ok, w'.t)
  {
    RunEnds(w, pid, ok);
    EndedIsAllOrNothing(w.t, w.cap, w.now, w.attempts[pid], ok);
  }

  /** Freeing the GPU and deleting the row give back what the claim took. */
  lemma UndoneBy(t: Tables, a: Attempt)
    requires GpusMatch(t.gpus, t.allocations) && ClaimTx(t, a.ws, a.gpu).Claimed?
    ensures var t' := DeleteRowTx(FreeTx(ClaimTx(t, a.ws, a.gpu).t, a.gpu), a.ws);
            t'.gpus == t.gpus && t'.allocations == t.allocations
  {
  }

  lemma RollbackUndoes(t: Tables, a: Attempt, slot: Slot)
    requires GpusMatch(t.gpus, t.allocations) && ClaimTx(t, a.ws, a.gpu).Claimed? && a.ws !in t.slots
             && a.ws in t.workspaces
    ensures var claimed := ClaimTx(t, a.ws, a.gpu).t;
            var t' := RolledBack(claimed.(slots := t.slots[a.ws := slot]), a);
            ClaimUndone(t, t') && OnlyStatus(t, a.ws, FAILED, t')
  {
    UndoneBy(t, a);
  }

  lemma LaunchedBy(t: Tables, a: Attempt, now: int, cap: nat)
    requires TablesOk(t, cap) && AttemptOk(t, a) && ClaimTx(t, a.ws, a.gpu).Claimed?
    ensures var t2 := WithSlot(ClaimTx(t, a.ws, a.gpu).t, now, a);
            var t' := StatusTx(t2.(slots := Released(t2.slots, a.ws)), a.ws, WAITING_FOR_AGENT);
            Launched(t', a.ws, a.gpu) && Won(t, a, t')
  {
    ClaimKeepsTables(t, cap, a.ws, a.gpu);
  }
}
