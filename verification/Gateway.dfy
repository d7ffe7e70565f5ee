/**
 The gateway process: the lease table and the two in-memory collections, updated in place by the
 request handlers and by the boot reconciliation.  Each handler is tied to the steps it takes in
 PortLeases when no other step comes between them.
 */
module Gateway {
  import opened Wrappers
  import opened PortLeases

  /** A request's steps, by how its write ends. */
  ghost function AllocateRun(ws: WorkspaceId, draws: Draws, end: WriteEnd): seq<Step> {
    Sends(ws, draws) + AnswerRun(ws, end)
  }

  ghost function AnswerRun(ws: WorkspaceId, end: WriteEnd): seq<Step> {
    match end
    case Works => [CommitLease(ws), AckLease(ws)]
    case Fails => [LeaseWriteFails(ws)]
    case ReplyLost => [CommitLease(ws), LeaseReplyLost(ws)]
  }

  ghost function ReleaseRun(ws: WorkspaceId, fails: bool): seq<Step> {
    [Release(ws)] + (if fails then [ReleaseWriteFails(ws)] else [CommitRelease(ws), AckRelease(ws)])
  }

  /** Three different ports of the range, none of them taken, and none of them in the same column of
      another row. */
  ghost predicate Fresh(p: Ports, taken: set<nat>, leases: map<WorkspaceId, Lease>, ws: WorkspaceId) {
    && p.ssh != p.jupyter && p.jupyter != p.vscode && p.ssh != p.vscode
    && (forall q | q in {p.ssh, p.jupyter, p.vscode} :: 20000 <= q < 40000 && q !in taken)
    && forall x | x in leases && x != ws ::
         leases[x].ports.ssh != p.ssh && leases[x].ports.jupyter != p.jupyter && leases[x].ports.vscode != p.vscode
  }

  /** How a request that finds no lease leaves the gateway.  With a reply the fresh ports it names are
      leased, cached and taken.  Without one nothing is cached and no port is set free; the table has fresh
      ports for the workspace if its write got through unheard, and is unchanged otherwise. */
  ghost predicate LeasedAnew(w: World, w': World, ws: WorkspaceId, write: WriteEnd, reply: Option<Ports>) {
    match reply
    case Some(p) =>
      && write == Works && Fresh(p, w.taken, w.leases, ws)
      && w' == w.(leases := w.leases[ws := Lease(p, false)], cache := w.cache[ws := p],
                  taken := w.taken + {p.ssh, p.jupyter, p.vscode})
    case None =>
      && w' == w.(leases := w'.leases, taken := w'.taken) && w.taken <= w'.taken
      && (w'.leases == w.leases
          || (write == ReplyLost && w'.taken == w.taken
              && exists p :: Fresh(p, w.taken, w.leases, ws) && w'.leases == w.leases[ws := Lease(p, false)]))
  }

  class Gateway {
    var leases: map<WorkspaceId, Lease>
    var terminal: set<WorkspaceId>
    var activeAllocations: map<WorkspaceId, Ports>
    var allocatedPorts: set<nat>

    ghost function AsWorld(): World
      reads this
    {
      World(leases, terminal, Up, activeAllocations, allocatedPorts, map[])
    }

    /** A fresh process over an existing lease table. */
    constructor (leases: map<WorkspaceId, Lease>, terminal: set<WorkspaceId>)
      ensures this.leases == leases && this.terminal == terminal && activeAllocations == map[] && allocatedPorts == {}
    {
      this.leases, this.terminal := leases, terminal;
      activeAllocations, allocatedPorts := map[], {};
    }

    /** At most a thousand draws; the first free one is taken. */
    method GetUniquePort(draws: nat -> Draw) returns (port: Option<nat>)
      modifies this`allocatedPorts
      ensures port == UniquePort(old(allocatedPorts), draws, 0)
      ensures allocatedPorts == if port.Some? then old(allocatedPorts) + {port.value} else old(allocatedPorts)
    {
      var attempts := 0;
      while attempts < MAX_PICKS
        invariant attempts <= MAX_PICKS && allocatedPorts == old(allocatedPorts)
        invariant UniquePort(allocatedPorts, draws, attempts) == UniquePort(allocatedPorts, draws, 0)
      {
        var candidate := Candidate(draws(attempts));
        if candidate !in allocatedPorts {
          allocatedPorts := allocatedPorts + {candidate};
          return Some(candidate);
        }
        attempts := attempts + 1;
      }
      port := None;
    }

    /** Three picks; running out keeps the picks made so far. */
    method PickPorts(draws: Draws) returns (ports: Option<Ports>)
      modifies this`allocatedPorts
      ensures Picked(allocatedPorts, ports) == PickThree(old(allocatedPorts), draws)
    {
      var ssh := GetUniquePort(draws.ssh);
      if ssh.None? { return None; }
      var jupyter := GetUniquePort(draws.jupyter);
      if jupyter.None? { return None; }
      var vscode := GetUniquePort(draws.vscode);
      if vscode.None? { return None; }
      ports := Some(Ports(ssh.value, jupyter.value, vscode.value));
    }

    /** `POST /internal/gateway/allocate`: cache, then table, then three new ports, which the table may
        refuse.  No reply is the error the handler throws. */
    method HandleAllocate(ws: WorkspaceId, draws: Draws, write: WriteEnd) returns (reply: Option<Ports>)
      modifies this
      ensures var end := if Refused(old(AsWorld()), ws, draws) then Fails else write;
              && AsWorld() == Exec(old(AsWorld()), AllocateRun(ws, draws, end))
              && reply ==
                 if ws in old(activeAllocations) then Some(old(activeAllocations)[ws])
                 else if Live(old(leases), ws) then Some(old(leases)[ws].ports)
                 else if end == Works then PickThree(old(allocatedPorts), draws).ports
                 else None
      ensures reply.Some? ==> ws in activeAllocations && activeAllocations[ws] == reply.value
      ensures if ws in old(activeAllocations) then
                AsWorld() == old(AsWorld()) && reply == Some(old(activeAllocations)[ws])
              else if ws in old(leases) && !old(leases)[ws].released then
                var p := old(leases)[ws].ports;
                && leases == old(leases) && activeAllocations == old(activeAllocations)[ws := p]
                && allocatedPorts == old(allocatedPorts) + {p.ssh, p.jupyter, p.vscode} && reply == Some(p)
              else LeasedAnew(old(AsWorld()), AsWorld(), ws, write, reply)
    {
      ghost var w := AsWorld();
      ghost var end := if Refused(w, ws, draws) then Fails else write;
      if ws in activeAllocations {
        reply := Some(activeAllocations[ws]);
      } else if ws in leases && !leases[ws].released {
        var p := leases[ws].ports;
        activeAllocations := activeAllocations[ws := p];
        allocatedPorts := allocatedPorts + {p.ssh} + {p.jupyter} + {p.vscode};
        reply := Some(p);
        assert AsWorld() == Remember(w, ws, p);
      } else {
        reply := AllocateNewPorts(ws, draws, write);
      }
      AllocateRunEnds(w, ws, draws, end);
    }

    method AllocateNewPorts(ws: WorkspaceId, draws: Draws, write: WriteEnd) returns (reply: Option<Ports>)
      requires ws !in activeAllocations && !Live(leases, ws)
      modifies this
      ensures var end := if Refused(old(AsWorld()), ws, draws) then Fails else write;
              && AsWorld() == AllocateEnd(old(AsWorld()), ws, draws, end)
              && reply == if end == Works then PickThree(old(allocatedPorts), draws).ports else None
      ensures reply.Some? ==> ws in activeAllocations && activeAllocations[ws] == reply.value
      ensures LeasedAnew(old(AsWorld()), AsWorld(), ws, write, reply)
    {
      ghost var before := allocatedPorts;
      var ports := PickPorts(draws);
      if ports.None? {
        return None;
      }
      var ok := WriteLease(ws, ports.value, write);
      reply := if ok then ports else None;
      assert Accepts(old(leases), ws, ports.value) ==> Fresh(ports.value, before, old(leases), ws);
      assert before + ports.value.All() - ports.value.All() == before;
    }

    /** The upsert of a fresh lease, then the cache; without a reply the picked ports are freed. */
    method WriteLease(ws: WorkspaceId, ports: Ports, write: WriteEnd) returns (ok: bool)
      modifies this`leases, this`activeAllocations, this`allocatedPorts
      ensures ok == (write == Works && Accepts(old(leases), ws, ports))
      ensures leases == if write != Fails && Accepts(old(leases), ws, ports)
                        then old(leases)[ws := Lease(ports, false)] else old(leases)
      ensures activeAllocations == if ok then old(activeAllocations)[ws := ports] else old(activeAllocations)
      ensures allocatedPorts == if ok then old(allocatedPorts) else old(allocatedPorts) - ports.All()
    {
      var written := write != Fails && Accepts(leases, ws, ports);
      if written {
        leases := leases[ws := Lease(ports, false)];
      }
      ok := written && write == Works;
      if ok {
        activeAllocations := activeAllocations[ws := ports];
      } else {
        allocatedPorts := allocatedPorts - {ports.ssh} - {ports.jupyter} - {ports.vscode};
      }
    }

    /** `POST /internal/gateway/release`: table first, then cache. */
    method HandleRelease(ws: WorkspaceId, writeFails: bool) returns (released: Option<bool>)
      modifies this
      ensures AsWorld() == Exec(old(AsWorld()), ReleaseRun(ws, writeFails))
      ensures released == if writeFails then None else Some(Live(old(leases), ws))
      ensures writeFails ==> AsWorld() == old(AsWorld())
      ensures !writeFails ==>
                && leases == (if ws in old(leases) then old(leases)[ws := Lease(old(leases)[ws].ports, true)]
                              else old(leases))
                && activeAllocations == old(activeAllocations) - {ws}
                && allocatedPorts ==
                   if ws in old(activeAllocations) then
                     var p := old(activeAllocations)[ws]; old(allocatedPorts) - {p.ssh, p.jupyter, p.vscode}
                   else old(allocatedPorts)
    {
      ReleaseRunEnds(AsWorld(), ws, writeFails);
      if writeFails {
        return None;
      }
      var updated := ws in leases && !leases[ws].released;
      if updated {
        leases := leases[ws := leases[ws].(released := true)];
      }
      if ws in activeAllocations {
        var p := activeAllocations[ws];
        allocatedPorts := allocatedPorts - {p.ssh} - {p.jupyter} - {p.vscode};
        activeAllocations := activeAllocations - {ws};
      }
      released := Some(updated);
    }

    /** Boot: load every live lease, then release and forget those of finished workspaces.  Whatever the
        table holds, the gateway then stands as after the protocol's restart. */
    method ReconcileLeases()
      requires activeAllocations == map[] && allocatedPorts == {}
      modifies this
      ensures AsWorld() == Rebuilt(old(leases), terminal) && terminal == old(terminal)
      ensures activeAllocations == LivePorts(leases) == Current(old(leases), terminal)
      ensures forall ws :: ws in activeAllocations <==>
                ws in old(leases) && !old(leases)[ws].released && ws !in terminal
      ensures forall ws | ws in activeAllocations :: activeAllocations[ws] == old(leases)[ws].ports
      ensures leases.Keys == old(leases).Keys
      ensures forall ws | ws in leases ::
                leases[ws] == Lease(old(leases)[ws].ports, old(leases)[ws].released || ws in terminal)
      ensures allocatedPorts <= AllPorts(activeAllocations)
      ensures Inv(AsWorld()) <==> CurrentApart(old(leases), terminal)
    {
      LoadLeases();
      var stale := set ws | ws in leases && !leases[ws].released && ws in terminal;
      assert stale == StaleLeases(leases, terminal);
      StaleLeavesCurrent(leases, terminal);
      TakenAreHeld(leases, terminal);
      RebuiltIsSafeIff(leases, terminal);
      DropStaleLeases(stale);
    }

    method DropStaleLeases(stale: set<WorkspaceId>)
      requires forall ws | ws in stale ::
               ws in leases && ws in activeAllocations && activeAllocations[ws] == leases[ws].ports
      modifies this
      ensures leases == ReleasedAll(old(leases), stale) && terminal == old(terminal)
      ensures activeAllocations == old(activeAllocations) - stale
      ensures allocatedPorts == old(allocatedPorts) - PortsIn(old(activeAllocations), stale)
    {
      var todo := stale;
      ghost var dropped: set<WorkspaceId> := {};
      ReleasedAllNone(leases);
      assert PortsIn(activeAllocations, {}) == {};
      while todo != {}
        invariant todo == stale - dropped && dropped <= stale
        invariant leases == ReleasedAll(old(leases), dropped) && terminal == old(terminal)
        invariant activeAllocations == old(activeAllocations) - dropped
        invariant allocatedPorts == old(allocatedPorts) - PortsIn(old(activeAllocations), dropped)
        decreases todo
      {
        var ws :| ws in todo;
        PortsInSplit(old(activeAllocations), dropped, {ws});
        PortsInOne(activeAllocations, ws);
        DropStale(ws);
        ReleasedAllOneMore(old(leases), dropped, ws);
        todo, dropped := todo - {ws}, dropped + {ws};
      }
      assert dropped == stale;
    }

    /** Releases one stale lease in the table and drops it from the cache with its three ports. */
    method DropStale(ws: WorkspaceId)
      requires ws in leases
      modifies this
      ensures leases == Released(old(leases), ws) && terminal == old(terminal)
      ensures activeAllocations == old(activeAllocations) - {ws}
      ensures allocatedPorts == old(allocatedPorts) - old(leases)[ws].ports.All()
    {
      leases := leases[ws := leases[ws].(released := true)];
      activeAllocations := activeAllocations - {ws};
      allocatedPorts := allocatedPorts - {leases[ws].ports.ssh};
      allocatedPorts := allocatedPorts - {leases[ws].ports.jupyter};
      allocatedPorts := allocatedPorts - {leases[ws].ports.vscode};
    }

    method LoadLeases()
      requires activeAllocations == map[] && allocatedPorts == {}
      modifies this`activeAllocations, this`allocatedPorts
      ensures activeAllocations == LivePorts(leases) && allocatedPorts == AllPorts(activeAllocations)
    {
      var todo := leases.Keys;
      while todo != {}
        invariant todo <= leases.Keys
        invariant activeAllocations == LivePorts(leases) - todo && allocatedPorts == AllPorts(activeAllocations)
        decreases todo
      {
        var ws :| ws in todo;
        ghost var cache := activeAllocations;
        OneMoreLoaded(leases, todo, ws);
        todo := todo - {ws};
        if !leases[ws].released {
          var p := leases[ws].ports;
          activeAllocations := activeAllocations[ws := p];
          allocatedPorts := allocatedPorts + {p.ssh} + {p.jupyter} + {p.vscode};
          PortsWith(cache, ws, p);
        }
      }
    }
  }

  lemma ReleasedAllNone(leases: map<WorkspaceId, Lease>)
    ensures ReleasedAll(leases, {}) == leases
  {
  }

  lemma ReleasedAllOneMore(leases: map<WorkspaceId, Lease>, dropped: set<WorkspaceId>, ws: WorkspaceId)
    ensures ReleasedAll(leases, dropped + {ws}) == Released(ReleasedAll(leases, dropped), ws)
  {
  }

  lemma OneMoreLoaded(leases: map<WorkspaceId, Lease>, todo: set<WorkspaceId>, ws: WorkspaceId)
    requires ws in todo && ws in leases
    ensures LivePorts(leases) - (todo - {ws}) ==
            if Live(leases, ws) then (LivePorts(leases) - todo)[ws := leases[ws].ports] else LivePorts(leases) - todo
  {
  }

  lemma PortsWith(m: map<WorkspaceId, Ports>, ws: WorkspaceId, p: Ports)
    requires ws !in m
    ensures AllPorts(m[ws := p]) == AllPorts(m) + p.All()
  {
    var m' := m[ws := p];
    forall q | q in AllPorts(m) + p.All() ensures q in AllPorts(m') {
      if q in p.All() {
        assert ws in m' && q in m'[ws].All();
      } else {
        var a :| a in m && q in m[a].All();
        assert a in m' && q in m'[a].All();
      }
    }
  }

  lemma UnrollAllocate(w: World, ws: WorkspaceId, draws: Draws, end: WriteEnd)
    ensures Exec(w, AllocateRun(ws, draws, end)) == Answered(SendAllocate(w, ws, draws), ws, end)
  {
    ExecAppend(w, Sends(ws, draws), AnswerRun(ws, end));
    ExecSends(w, ws, draws);
    var sent := SendAllocate(w, ws, draws);
    if end == Fails {
      ExecOne(sent, AnswerRun(ws, end));
    } else {
      ExecTwo(sent, AnswerRun(ws, end));
    }
  }

  lemma UnrollRelease(w: World, ws: WorkspaceId, fails: bool)
    ensures Exec(w, ReleaseRun(ws, fails)) ==
            if fails then ReleaseWriteFailsStep(ReleaseStep(w, ws), ws)
            else AckReleaseStep(CommitReleaseStep(ReleaseStep(w, ws), ws), ws)
  {
    var run := ReleaseRun(ws, fails);
    if fails {
      ExecTwo(w, run);
    } else {
      ExecThree(w, run);
      assert run[3..] == [];
    }
  }

  lemma AllocateRunEnds(w: World, ws: WorkspaceId, draws: Draws, end: WriteEnd)
    requires w.phase == Up && ws !in w.pending
    requires end == Fails || !Refused(w, ws, draws)
    ensures Exec(w, AllocateRun(ws, draws, end)) == AllocateEnd(w, ws, draws, end)
  {
    UnrollAllocate(w, ws, draws, end);
    AllocateEnds(w, ws, draws, end);
  }

  lemma ReleaseRunEnds(w: World, ws: WorkspaceId, fails: bool)
    requires w.phase == Up && ws !in w.pending
    ensures Exec(w, ReleaseRun(ws, fails)) ==
            if fails then w else Forget(w.(leases := Released(w.leases, ws)), ws)
  {
    UnrollRelease(w, ws, fails);
    if fails {
      WaitThenDone(w, ws, ReleaseWrites(false));
    } else {
      var released := w.(leases := Released(w.leases, ws));
      WaitAgain(released, ws, ReleaseWrites(false), ReleaseWrites(true));
      WaitThenDone(Forget(released, ws), ws, ReleaseWrites(true));
    }
  }
}
