/** The warm pool's provisioning as it runs, one awaited transaction or call after another. */
module WarmPool {
  import opened Wrappers
  import opened Provisioning

  function Alone(t: Tables, cap: nat, now: int, a: Attempt): World {
    World(t, cap, now, map[0 := a])
  }

  class Pool {
    var t: Tables
    const cap: nat

    constructor (tables: Tables, maxConcurrentClones: nat)
      ensures t == tables && cap == maxConcurrentClones
    {
      t, cap := tables, maxConcurrentClones;
    }

    /** The claiming transaction: update where FREE, then insert; a rejected insert undoes the update.
        It throws also when the database fails it. */
    method ClaimGpu(ws: WorkspaceId, g: GpuId, works: bool) returns (claimed: bool, threw: bool)
      modifies this
      ensures threw == (!works || ClaimTx(old(t), ws, g).Rejected?)
      ensures claimed == (works && ClaimTx(old(t), ws, g).Claimed?)
      ensures t == if claimed then ClaimTx(old(t), ws, g).t else old(t)
      ensures claimed <==> works && IsFree(old(t), g) && NoRowOf(old(t), ws, g)
      ensures threw <==> !works || (IsFree(old(t), g) && !NoRowOf(old(t), ws, g))
      ensures claimed ==>
                t == old(t).(gpus := old(t).gpus[g := Gpu(old(t).gpus[g].node, ALLOCATED, Some(ws))],
                             allocations := old(t).allocations[ws := Allocation(g, false)])
    {
      if !works {
        return false, true;
      }
      if g !in t.gpus || t.gpus[g].status != FREE {
        return false, false;
      }
      var before := t;
      t := t.(gpus := t.gpus[g := t.gpus[g].(status := ALLOCATED, owner := Some(ws))]);
      if ws in t.allocations || HasRow(t.allocations, g) {
        t := before;
        return false, true;
      }
      t := t.(allocations := t.allocations[ws := Allocation(g, false)]);
      return true, false;
    }

    /** Grants at most `cap` unreleased slots per node; any error of the transaction is a refusal. */
    method AcquireCloneSemaphore(node: Node, ws: WorkspaceId, now: int, works: bool) returns (acquired: bool)
      modifies this
      ensures acquired == (works && SlotFree(old(t), cap, ws, node))
      ensures t == if acquired then old(t).(slots := old(t).slots[ws := Slot(node, now, false)]) else old(t)
      ensures WithinCap(old(t).slots, cap) ==> WithinCap(t.slots, cap)
    {
      SlotFreeIff(t, cap, ws, node);
      var active := |Active(t.slots, node)|;
      if !works || active >= cap || ws in t.slots {
        return false;
      }
      ghost var slots := t.slots;
      t := t.(slots := t.slots[ws := Slot(node, now, false)]);
      acquired := true;
      if WithinCap(slots, cap) { AcquireKeepsCap(slots, cap, ws, Slot(node, now, false)); }
    }

    method ReleaseCloneSemaphore(ws: WorkspaceId)
      modifies this
      ensures t == old(t).(slots := Released(old(t).slots, ws)) && !HasSlot(t.slots, ws)
    {
      if ws in t.slots && !t.slots[ws].released {
        t := t.(slots := t.slots[ws := t.slots[ws].(released := true)]);
      }
      assert t.slots == Released(old(t).slots, ws);
    }

    method SetStatus(ws: WorkspaceId, status: WsStatus)
      modifies this
      ensures t == StatusTx(old(t), ws, status)
      ensures ws in old(t).workspaces ==>
                t == old(t).(workspaces := old(t).workspaces[ws := old(t).workspaces[ws].(status := status)])
    {
      if ws in t.workspaces { t := t.(workspaces := t.workspaces[ws := t.workspaces[ws].(status := status)]); }
    }

    method ReturnGpu(ws: WorkspaceId, g: GpuId)
      modifies this
      ensures t == DeleteRowTx(FreeTx(old(t), g), ws)
      ensures t.allocations == old(t).allocations - {ws}
      ensures g in old(t).gpus ==> t.gpus == old(t).gpus[g := Gpu(old(t).gpus[g].node, FREE, None)]
    {
      if g in t.gpus { t := t.(gpus := t.gpus[g := t.gpus[g].(status := FREE, owner := None)]); }
      t := t.(allocations := t.allocations - {ws});
    }

    /** Delete the warm workspace, or clear the VM of a user workspace so that it is picked up again. */
    method Drop(a: Attempt)
      modifies this
      ensures t == DropTx(old(t), a)
      ensures a.ws in old(t).workspaces ==>
                t == old(t).(workspaces := if a.warm then old(t).workspaces - {a.ws}
                             else old(t).workspaces[a.ws := old(t).workspaces[a.ws].(hasVm := false)])
    {
      if a.ws in t.workspaces {
        if a.warm {
          t := t.(workspaces := t.workspaces - {a.ws});
        } else {
          t := t.(workspaces := t.workspaces[a.ws := t.workspaces[a.ws].(hasVm := false)]);
        }
      }
    }

    /** The `try` block: clone, release the slot, configure and start, then wait for the agent. */
    method CloneAndStart(a: Attempt, ok: nat -> bool) returns (threw: bool)
      modifies this
      ensures threw == !AllWork(ok, 2)
      ensures !threw ==> t == StatusTx(old(t).(slots := Released(old(t).slots, a.ws)), a.ws, WAITING_FOR_AGENT)
      ensures threw ==> t == old(t) || t == old(t).(slots := Released(old(t).slots, a.ws))
    {
      if !ok(2) { return true; }
      if !ok(3) { return true; }
      ReleaseCloneSemaphore(a.ws);
      if !ok(4) { return true; }
      if !ok(5) { return true; }
      SetStatus(a.ws, WAITING_FOR_AGENT);
      threw := false;
    }

    /** From the claim on: a slot, then the `try` with its rollback; or the refusal, which gives back the
        GPU and drops the workspace. */
    method ProvisionClaimed(a: Attempt, ok: nat -> bool, now: int) returns (launched: bool)
      modifies this
      ensures t == if ok(1) && CanAcquire(old(t).slots, cap, a.ws, a.node) then Tried(old(t), now, a, ok)
                   else Deferred(old(t), a)
      ensures launched <==> ok(1) && CanAcquire(old(t).slots, cap, a.ws, a.node) && AllWork(ok, 2)
    {
      launched := false;
      SlotFreeIff(t, cap, a.ws, a.node);
      var acquired := AcquireCloneSemaphore(a.node, a.ws, now, ok(1));
      if !acquired {
        ReturnGpu(a.ws, a.gpu);
        Drop(a);
        return;
      }
      ghost var before := t;
      var threw := CloneAndStart(a, ok);
      if threw {
        ReleaseCloneSemaphore(a.ws);
        ReleaseTwice(before.slots, a.ws);
        SetStatus(a.ws, FAILED);
        ReturnGpu(a.ws, a.gpu);
        assert t == RolledBack(before, a);
      } else {
        launched := true;
      }
    }

    /** One attempt at workspace `a.ws` with GPU `a.gpu`; call `n` of it fails when `ok(n)` is false. */
    method Provision(a: Attempt, ok: nat -> bool, now: int) returns (launched: bool)
      requires a.pc == Claim && AttemptOk(t, a) && TablesOk(t, cap)
      modifies this
      ensures t == Run(Alone(old(t), cap, now, a), 0, ok, 0).t
      ensures AllOrNothing(old(t), cap, a, ok, t)
      ensures launched <==> Launches(old(t), cap, a, ok)
    {
      RunEnds(Alone(t, cap, now, a), 0, ok);
      EndedIsAllOrNothing(t, cap, now, a, ok);
      LaunchesIff(t, cap, a, ok);
      launched := false;
      var claimed, rethrown := ClaimGpu(a.ws, a.gpu, ok(0));
      if rethrown { return; }
      if !claimed {
        Drop(a);
        return;
      }
      launched := ProvisionClaimed(a, ok, now);
    }
  }
}
