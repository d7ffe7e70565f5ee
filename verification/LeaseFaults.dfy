/**
 What the gateway's lease table does to the gateway: a write whose reply is lost, rows that are released
 but keep their ports in the unique columns, and picks that run out late.
 */
module LeaseFaults {
  import opened Wrappers
  import opened PortLeases

  // ---------------------------------------------------------------------------------------------
  // After a lost reply
  // ---------------------------------------------------------------------------------------------

  /** An allocate of the same workspace, if nothing comes between, finds the lease and leaves the
      gateway as if the reply had arrived. */
  lemma RetryHealsLostReply(w: World, ws: WorkspaceId, draws: Draws)
    requires Inv(w) && LiveReplyLost(w, LeaseReplyLost(ws))
    ensures SendAllocate(LeaseReplyLostStep(w, ws), ws, draws) == AckLeaseStep(w, ws)
  {
    var lost := LeaseReplyLostStep(w, ws);
    assert PendingOk(w, ws);
    SentAllocate(lost, ws, draws);
    var ports := w.leases[ws].ports;
    assert HeldBy(w, ws) == Some(ports) && ports.All() <= w.taken;
    assert lost.taken + ports.All() == w.taken;
  }

  function Always(r: Draw): nat -> Draw {
    (i: nat) => r
  }

  lemma ConstantPick(taken: set<nat>, r: Draw)
    ensures UniquePort(taken, Always(r), 0) == if Candidate(r) in taken then None else Some(Candidate(r))
  {
    ExhaustedIff(taken, Always(r), 0);
    assert Always(r)(0) == r;
  }

  /** Generators that always draw the same three ports. */
  lemma DrawsOf(p: Ports, taken: set<nat>) returns (d: Draws)
    requires p.Valid()
    ensures taken !! p.All() ==> PickThree(taken, d) == Picked(taken + p.All(), Some(p))
    ensures p.ssh !in taken && p.jupyter in taken ==> PickThree(taken, d) == Picked(taken + {p.ssh}, None)
  {
    assert p.ssh in p.All() && p.jupyter in p.All() && p.vscode in p.All();
    var a := CandidateReaches(p.ssh);
    var b := CandidateReaches(p.jupyter);
    var c := CandidateReaches(p.vscode);
    d := Draws(Always(a), Always(b), Always(c));
    ConstantPick(taken, a);
    ConstantPick(taken + {p.ssh}, b);
    ConstantPick(taken + {p.ssh} + {p.jupyter}, c);
    assert taken + {p.ssh} + {p.jupyter} + {p.vscode} == taken + p.All();
  }

  const Booted: World := World(map[], {}, Up, map[], {}, map[])

  lemma BootsEmpty()
    ensures Exec(Empty, [BootLoad, BootScan, BootDone]) == Booted
    ensures Inv(Booted) && NoLeak(Booted)
  {
    assert LivePorts(map[]) == map[] && AllPorts(map[]) == {};
    var w1 := BootLoadStep(Empty);
    assert w1 == World(map[], {}, Loaded, map[], {}, map[]);
    var w2 := BootScanStep(w1);
    assert StaleLeases(map[], {}) == {};
    ExecThree(Empty, [BootLoad, BootScan, BootDone]);
  }

  const FIRST: Ports := Ports(20000, 20001, 20002)
  const TURNED: Ports := Ports(20001, 20002, 20000)

  ghost function FirstSent(draws: Draws): seq<Step> {
    [BootLoad, BootScan, BootDone] + Sends(0, draws)
  }

  /** Workspace 0 is sent three ports by a fresh gateway, and the write commits. */
  lemma FirstCommits(draws: Draws)
    requires PickThree({}, draws) == Picked(FIRST.All(), Some(FIRST))
    ensures CommitLeaseStep(Exec(Empty, FirstSent(draws)), 0)
         == World(map[0 := Lease(FIRST, false)], {}, Up, map[], FIRST.All(), map[0 := AllocateWrites(FIRST, true)])
  {
    BootsEmpty();
    ExecAppend(Empty, [BootLoad, BootScan, BootDone], Sends(0, draws));
    ExecSends(Booted, 0, draws);
    CommittedAllocate(Booted, 0, draws);
    assert map[][0 := Lease(FIRST, false)] == map[0 := Lease(FIRST, false)];
  }

  /** With its reply lost, the lease is live and its ports are free. */
  lemma FirstLost(draws: Draws)
    requires PickThree({}, draws) == Picked(FIRST.All(), Some(FIRST))
    ensures Exec(Empty, FirstSent(draws) + [CommitLease(0), LeaseReplyLost(0)])
         == World(map[0 := Lease(FIRST, false)], {}, Up, map[], {}, map[])
  {
    FirstCommits(draws);
    ExecAppend(Empty, FirstSent(draws), [CommitLease(0), LeaseReplyLost(0)]);
    ExecTwo(Exec(Empty, FirstSent(draws)), [CommitLease(0), LeaseReplyLost(0)]);
    assert FIRST.All() - FIRST.All() == {};
    assert map[0 := AllocateWrites(FIRST, true)] - {0} == map[];
  }

  /** With its reply heard, it is cached. */
  lemma FirstServed(draws: Draws)
    requires PickThree({}, draws) == Picked(FIRST.All(), Some(FIRST))
    ensures Exec(Empty, FirstSent(draws) + [CommitLease(0), AckLease(0)])
         == World(map[0 := Lease(FIRST, false)], {}, Up, map[0 := FIRST], FIRST.All(), map[])
  {
    FirstCommits(draws);
    ExecAppend(Empty, FirstSent(draws), [CommitLease(0), AckLease(0)]);
    ExecTwo(Exec(Empty, FirstSent(draws)), [CommitLease(0), AckLease(0)]);
    assert map[0 := AllocateWrites(FIRST, true)] - {0} == map[];
    assert map[][0 := FIRST] == map[0 := FIRST];
  }

  ghost function LostRun(d: Draws, e: Draws): seq<Step> {
    FirstSent(d) + [CommitLease(0), LeaseReplyLost(0)] + (Sends(1, e) + [CommitLease(1)])
  }

  lemma LostRunEnds(d: Draws, e: Draws)
    requires PickThree({}, d) == Picked(FIRST.All(), Some(FIRST))
    requires PickThree({}, e) == Picked(TURNED.All(), Some(TURNED))
    ensures var w := Exec(Empty, LostRun(d, e));
            w.leases == map[0 := Lease(FIRST, false)][1 := Lease(TURNED, false)] && w.terminal == {}
  {
    FirstLost(d);
    TurnedCommits(e);
    ExecAppend(Empty, FirstSent(d) + [CommitLease(0), LeaseReplyLost(0)], Sends(1, e) + [CommitLease(1)]);
  }

  /** After a lost reply another workspace can be given the same three ports, in other columns: two live
      leases then share all their ports, and no restart changes that. */
  lemma LostReplyLeasesTwice() returns (steps: seq<Step>)
    ensures var leases := Exec(Empty, steps).leases;
            Live(leases, 0) && Live(leases, 1) && leases[0].ports.All() == leases[1].ports.All()
    ensures !LeasesOk(Restarted(Exec(Empty, steps), []).leases)
  {
    var d := DrawsOf(FIRST, {});
    var e := DrawsOf(TURNED, {});
    LostRunEnds(d, e);
    steps := LostRun(d, e);
    SharedAfterRestart(Exec(Empty, steps), 0, 1);
  }

  lemma SharedAfterRestart(w: World, a: WorkspaceId, b: WorkspaceId)
    requires w.terminal == {} && a != b && Live(w.leases, a) && Live(w.leases, b)
    requires w.leases[a].ports.All() == w.leases[b].ports.All()
    ensures !LeasesOk(Restarted(w, []).leases)
  {
    assert StaleLeases(w.leases, w.terminal) == {} && AsSet([]) == {};
    RestartRebuilds(w, []);
    RebuiltLeases(w.leases, w.terminal);
    var rest := Restarted(w, []).leases;
    assert Live(rest, a) && Live(rest, b) && rest[a].ports.ssh in rest[b].ports.All();
  }

  const AfterLost: World := World(map[0 := Lease(FIRST, false)], {}, Up, map[], {}, map[])

  lemma TurnedCommits(draws: Draws)
    requires PickThree({}, draws) == Picked(TURNED.All(), Some(TURNED))
    ensures var w := Exec(AfterLost, Sends(1, draws) + [CommitLease(1)]);
            w.leases == map[0 := Lease(FIRST, false)][1 := Lease(TURNED, false)] && w.terminal == {}
  {
    ExecAppend(AfterLost, Sends(1, draws), [CommitLease(1)]);
    ExecSends(AfterLost, 1, draws);
    ExecOne(SendAllocate(AfterLost, 1, draws), [CommitLease(1)]);
    CommittedAllocate(AfterLost, 1, draws);
  }

  const AfterServed: World := World(map[0 := Lease(FIRST, false)], {}, Up, map[0 := FIRST], FIRST.All(), map[])

  ghost function LateRun(d: Draws): seq<Step> {
    FirstSent(d) + [CommitLease(0), AckLease(0)] + [Allocate(1), ReadLease(1)]
  }

  lemma LateRunEnds(d: Draws)
    requires PickThree({}, d) == Picked(FIRST.All(), Some(FIRST))
    ensures Exec(Empty, LateRun(d)) == Wait(AfterServed, 1, AllocateRead(None))
  {
    FirstServed(d);
    SecondReads();
    ExecAppend(Empty, FirstSent(d) + [CommitLease(0), AckLease(0)], [Allocate(1), ReadLease(1)]);
  }

  lemma LateRunExhausts(d: Draws, e: Draws)
    requires PickThree({}, d) == Picked(FIRST.All(), Some(FIRST))
    requires PickThree(FIRST.All(), e) == Picked(FIRST.All() + {20003}, None)
    ensures LateExhaustion(Exec(Empty, LateRun(d)), ResumeAllocate(1, e))
  {
    LateRunEnds(d);
    SecondExhausts(e);
  }

  lemma LateRunLosesNothing(d: Draws)
    ensures NoLiveReplyLost(Empty, LateRun(d))
  {
    var steps := LateRun(d);
    assert forall i | 0 <= i < |steps| :: !steps[i].LeaseReplyLost?;
    NoLossWithoutLossStep(Empty, steps);
  }

  /** A late exhaustion happens: one lease out of twenty thousand ports, and draws that keep hitting it. */
  lemma LateExhaustionIsReachable() returns (steps: seq<Step>, step: Step)
    ensures NoLiveReplyLost(Empty, steps)
    ensures LateExhaustion(Exec(Empty, steps), step)
  {
    var d := DrawsOf(FIRST, {});
    var e := DrawsOf(Ports(20003, 20000, 20001), FIRST.All());
    LateRunExhausts(d, e);
    LateRunLosesNothing(d);
    steps, step := LateRun(d), ResumeAllocate(1, e);
  }

  lemma SecondReads()
    ensures Exec(AfterServed, [Allocate(1), ReadLease(1)]) == Wait(AfterServed, 1, AllocateRead(None))
  {
    ExecTwo(AfterServed, [Allocate(1), ReadLease(1)]);
    WaitAgain(AfterServed, 1, AllocateReads, AllocateRead(None));
  }

  lemma SecondExhausts(draws: Draws)
    requires PickThree(FIRST.All(), draws) == Picked(FIRST.All() + {20003}, None)
    ensures LateExhaustion(Wait(AfterServed, 1, AllocateRead(None)), ResumeAllocate(1, draws))
  {
    assert 20003 !in FIRST.All();
  }

  lemma {:induction false} NoLossWithoutLossStep(w: World, steps: seq<Step>)
    requires forall i | 0 <= i < |steps| :: !steps[i].LeaseReplyLost?
    ensures NoLiveReplyLost(w, steps)
    decreases |steps|
  {
    if |steps| != 0 {
      NoLossWithoutLossStep(Apply(w, steps[0]), steps[1..]);
    }
  }

  // ---------------------------------------------------------------------------------------------
  // Released rows
  // ---------------------------------------------------------------------------------------------

  /** While nothing is lost, only released rows stand in the way of the ports the gateway picks. */
  lemma RefusedIff(w: World, ws: WorkspaceId)
    requires Inv(w) && Writing(w, ws, false)
    ensures CommitLeaseStep(w, ws) == w <==>
            exists a :: a in w.leases && a != ws && w.leases[a].released
              && SameColumn(w.leases[a].ports, w.pending[ws].ports)
  {
    var ports := w.pending[ws].ports;
    assert HeldBy(w, ws) == Some(ports) by { assert PendingOk(w, ws); }
    if Accepts(w.leases, ws, ports) {
      assert CommitLeaseStep(w, ws).pending[ws] != w.pending[ws];
    } else {
      var a :| a in w.leases && a != ws && SameColumn(w.leases[a].ports, ports);
      if Live(w.leases, a) { LiveRowsAccept(w, ws, a); }
    }
  }

  lemma LiveRowsAccept(w: World, ws: WorkspaceId, a: WorkspaceId)
    requires Inv(w) && w.phase == Up && HeldBy(w, ws).Some? && a != ws && Live(w.leases, a)
    ensures !SameColumn(w.leases[a].ports, HeldBy(w, ws).value)
  {
    assert HeldBy(w, a) == Some(w.leases[a].ports);
    assert HeldBy(w, a).value.All() !! HeldBy(w, ws).value.All();
  }

  /** What the table guarantees by itself: ports of the range, and no column value twice. */
  ghost predicate ColumnsOk(leases: map<WorkspaceId, Lease>) {
    && (forall a | a in leases :: leases[a].ports.Valid())
    && (forall a, b | a in leases && b in leases && a != b :: !SameColumn(leases[a].ports, leases[b].ports))
  }

  ghost predicate TableOk(w: World) {
    && ColumnsOk(w.leases)
    && (forall a | a in w.pending && w.pending[a].AllocateWrites? :: w.pending[a].ports.Valid())
  }

  /** Rows only ever change their ports when their own workspace is leased again, and none goes away. */
  lemma RowStays(w: World, step: Step, a: WorkspaceId)
    requires a in w.leases && step != CommitLease(a)
    ensures a in Apply(w, step).leases && Apply(w, step).leases[a].ports == w.leases[a].ports
    ensures w.leases[a].released ==> Apply(w, step).leases[a] == w.leases[a]
  {
  }

  lemma RowsComeFrom(w: World, step: Step, a: WorkspaceId)
    requires a in Apply(w, step).leases && step != CommitLease(a)
    ensures a in w.leases
  {
  }

  lemma CommitKeepsTable(w: World, ws: WorkspaceId)
    requires TableOk(w)
    ensures TableOk(CommitLeaseStep(w, ws))
  {
  }

  lemma PendingPortsValid(w: World, step: Step, a: WorkspaceId)
    requires TableOk(w)
    requires var w' := Apply(w, step); a in w'.pending && w'.pending[a].AllocateWrites?
    ensures Apply(w, step).pending[a].ports.Valid()
  {
  }

  lemma TableKeeps(w: World, step: Step)
    requires TableOk(w)
    ensures TableOk(Apply(w, step))
  {
    var w' := Apply(w, step);
    if step.CommitLease? {
      CommitKeepsTable(w, step.ws);
    } else {
      forall a | a in w'.leases ensures a in w.leases && w'.leases[a].ports == w.leases[a].ports {
        RowsComeFrom(w, step, a);
        RowStays(w, step, a);
      }
      forall a | a in w'.pending && w'.pending[a].AllocateWrites? ensures w'.pending[a].ports.Valid() {
        PendingPortsValid(w, step, a);
      }
    }
  }

  lemma {:induction false} TableKept(w: World, steps: seq<Step>)
    requires TableOk(w)
    ensures TableOk(Exec(w, steps))
    decreases |steps|
  {
    if |steps| != 0 {
      TableKeeps(w, steps[0]);
      TableKept(Apply(w, steps[0]), steps[1..]);
    }
  }

  /** A released row strands its ports: until its own workspace is leased again, no other row has any of
      them in the same column, whatever happens. */
  lemma {:induction false} ReleasedPortsAreStranded(w: World, steps: seq<Step>, a: WorkspaceId)
    requires TableOk(w) && a in w.leases && w.leases[a].released
    requires forall i | 0 <= i < |steps| :: steps[i] != CommitLease(a)
    ensures var leases := Exec(w, steps).leases;
            && a in leases && leases[a] == w.leases[a]
            && forall b | b in leases && b != a :: !SameColumn(leases[b].ports, w.leases[a].ports)
    decreases |steps|
  {
    if |steps| != 0 {
      RowStays(w, steps[0], a);
      TableKeeps(w, steps[0]);
      ReleasedPortsAreStranded(Apply(w, steps[0]), steps[1..], a);
    }
  }

  // How many workspaces can ever be leased.

  function SshPorts(keys: set<WorkspaceId>, leases: map<WorkspaceId, Lease>): set<nat>
    requires keys <= leases.Keys
  {
    set a | a in keys :: leases[a].ports.ssh
  }

  lemma {:induction false} SshPortsCount(keys: set<WorkspaceId>, leases: map<WorkspaceId, Lease>)
    requires keys <= leases.Keys && ColumnsOk(leases)
    ensures |SshPorts(keys, leases)| == |keys|
    decreases keys
  {
    if keys == {} {
      assert SshPorts(keys, leases) == {};
    } else {
      var a :| a in keys;
      SshPortsCount(keys - {a}, leases);
      assert SshPorts(keys, leases) == SshPorts(keys - {a}, leases) + {leases[a].ports.ssh};
      assert leases[a].ports.ssh !in SshPorts(keys - {a}, leases);
    }
  }

  /** The first n ports of the range. */
  function FirstPorts(n: nat): (ports: set<nat>)
    ensures |ports| == n
    ensures forall p :: p in ports <==> PORT_RANGE_START <= p < PORT_RANGE_START + n
  {
    if n == 0 then {} else FirstPorts(n - 1) + {PORT_RANGE_START + n - 1}
  }

  lemma {:induction false} SubsetCount(a: set<nat>, b: set<nat>)
    requires a <= b
    ensures |a| <= |b|
    decreases a
  {
    if a != {} {
      var x :| x in a;
      SubsetCount(a - {x}, b - {x});
    }
  }

  /** However many leases are released, the platform never leases ports to more workspaces than the range
      has ports. */
  lemma LeasedWorkspacesAreBounded(steps: seq<Step>)
    ensures |Exec(Empty, steps).leases.Keys| <= PORT_RANGE_END - PORT_RANGE_START
  {
    TableKept(Empty, steps);
    var leases := Exec(Empty, steps).leases;
    SshPortsCount(leases.Keys, leases);
    forall p | p in SshPorts(leases.Keys, leases) ensures p in FirstPorts(PORT_RANGE_END - PORT_RANGE_START) {
      var a :| a in leases.Keys && p == leases[a].ports.ssh;
      assert p in leases[a].ports.All();
    }
    SubsetCount(SshPorts(leases.Keys, leases), FirstPorts(PORT_RANGE_END - PORT_RANGE_START));
  }
}
