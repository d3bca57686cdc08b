/** What the solver's answers mean for a caller. */
module PlacementTheorems {
  import opened Ordering
  import opened Api
  import opened Connectivity
  import opened Topology
  import opened Placement
  import opened Solver

  // ---- Soundness ----

  ghost predicate DistinctDevices(eps: seq<FabricEndpoint>) {
    forall i, j :: 0 <= i < j < |eps| ==> IDOf(eps[i]) != IDOf(eps[j])
  }

  /** The device class of this name admits the chip series. */
  ghost predicate ClassAdmits(name: string, chipSeries: string) {
    || (name == "tenstorrent" && (chipSeries == "wormhole" || chipSeries == "blackhole"))
    || (name == "tenstorrent-wormhole" && chipSeries == "wormhole")
    || (name == "tenstorrent-blackhole" && chipSeries == "blackhole")
  }

  /** The endpoint is an unreserved candidate that the rank and the workload accept. */
  ghost predicate Fits(p: Problem, rank: WorkloadRank, e: FabricEndpoint) {
    && e in p.candidates && DeviceID(e.pool, e.deviceName) !in p.reserved
    && (rank.chipSeries != "" ==> e.chipSeries == rank.chipSeries) && ClassAdmits(rank.deviceClassName, e.chipSeries)
    && (p.workload.topology.fabricID != "" ==> e.fabricID == p.workload.topology.fabricID)
    && (p.workload.topology.ringID != "" ==> e.ringID == p.workload.topology.ringID)
  }

  lemma FitsMeansUsable(p: Problem, rank: WorkloadRank, e: FabricEndpoint)
    ensures Fits(p, rank, e) <==> e in p.candidates && Usable(p, rank, e)
  {
  }

  /** A positive count asks for that many devices, any other count for one. */
  ghost predicate AskedFor(rank: WorkloadRank, n: nat) { if rank.count > 0 then n == rank.count else n == 1 }

  /** One rank's assignment: the requested count of fit devices, all on the named node. */
  ghost predicate RankServed(p: Problem, rank: WorkloadRank, a: RankAssignment) {
    && a.rank == rank.name && AskedFor(rank, |a.devices|)
    && a.claimName == a.podName == ChildName(p.workload.name, p.workload.uid, rank.name)
    && forall d :: d in a.devices ==> exists e :: ServedBy(p, rank, a.nodeName, d, e)
  }

  /** The assigned device is that of a fit endpoint on this node. */
  ghost predicate ServedBy(p: Problem, rank: WorkloadRank, node: string, d: AssignedDevice, e: FabricEndpoint) {
    && Fits(p, rank, e) && e.nodeName == node && d.pool == e.pool && d.name == e.deviceName
    && d.stableID == e.stableID && d.endpointID == e.endpointID
  }

  lemma BlockServes(p: Problem, rank: WorkloadRank, b: Block)
    requires BlockOk(p, rank, b)
    ensures RankServed(p, rank, BlockAssignment(p, rank, b))
    ensures DeviceIDs(BlockAssignment(p, rank, b)) == BlockIDs(p, b)
    ensures DistinctDevices(p.candidates) ==> AskedFor(rank, |DeviceIDs(BlockAssignment(p, rank, b))|)
  {
    var a := BlockAssignment(p, rank, b);
    AssignmentIDs(p, b, a);
    forall d | d in a.devices
      ensures exists e :: ServedBy(p, rank, a.nodeName, d, e)
    {
      var k :| 0 <= k < |a.devices| && a.devices[k] == d;
      FitsMeansUsable(p, rank, p.candidates[b[k]]);
      assert ServedBy(p, rank, a.nodeName, d, p.candidates[b[k]]);
    }
    if DistinctDevices(p.candidates) {
      BlockCard(p, b);
    }
  }

  lemma {:induction false} BlockCard(p: Problem, b: Block)
    requires InRange(p, b) && Increasing(b) && DistinctDevices(p.candidates)
    ensures |BlockIDs(p, b)| == |b|
  {
    if b != [] {
      var init, last := b[..|b| - 1], b[|b| - 1];
      BlockCard(p, init);
      assert BlockIDs(p, b) == BlockIDs(p, init) + {IDOf(p.candidates[last])};
      assert IDOf(p.candidates[last]) !in BlockIDs(p, init);
    }
  }

  /** An accepted plan serves every rank from unreserved, fit, mutually disjoint devices that connect. */
  lemma PlacementSound(p: Problem, plan: Plan)
    requires MaySolve(p, plan)
    ensures var a := Assignments(p, plan);
            && |a| == |p.workload.ranks|
            && (forall r :: 0 <= r < |a| ==> RankServed(p, p.workload.ranks[r], a[r]) && DeviceIDs(a[r]) !! p.reserved)
            && (forall r, s :: 0 <= r < s < |a| ==> DeviceIDs(a[r]) !! DeviceIDs(a[s]))
            && (DistinctDevices(p.candidates) ==> forall r :: 0 <= r < |a| ==>
                  AskedFor(p.workload.ranks[r], |DeviceIDs(a[r])|))
            && MayConnect(IndexByID(p.candidates), SelectedIDs(a))
  {
    var a := Assignments(p, plan);
    forall r | 0 <= r < |plan|
      ensures RankServed(p, p.workload.ranks[r], a[r]) && DeviceIDs(a[r]) == BlockIDs(p, plan[r])
      ensures DistinctDevices(p.candidates) ==> AskedFor(p.workload.ranks[r], |DeviceIDs(a[r])|)
    {
      BlockServes(p, p.workload.ranks[r], plan[r]);
    }
  }

  /** Every assigned device is an unreserved candidate fit for its rank, on the assigned node. */
  lemma DeviceOrigin(p: Problem, plan: Plan, a: RankAssignment, d: AssignedDevice)
    returns (rank: WorkloadRank, e: FabricEndpoint)
    requires MaySolve(p, plan) && a in Assignments(p, plan) && d in a.devices
    ensures ServedBy(p, rank, a.nodeName, d, e)
  {
    PlacementSound(p, plan);
    var r :| 0 <= r < |plan| && Assignments(p, plan)[r] == a;
    rank := p.workload.ranks[r];
    assert RankServed(p, rank, a);
    e :| ServedBy(p, rank, a.nodeName, d, e);
  }

  // ---- Completeness, against choices of device sets ----

  type Choice = seq<set<FabricEndpoint>>

  /** One set of distinct, fit devices of one node per rank, no device used twice. */
  ghost predicate IsChoice(p: Problem, c: Choice) {
    && |c| == |p.workload.ranks|
    && (forall r :: 0 <= r < |c| ==> RankChoice(p, p.workload.ranks[r], c[r]))
    && (forall r, s, e, f :: 0 <= r < s < |c| && e in c[r] && f in c[s] ==> IDOf(e) != IDOf(f))
  }

  ghost predicate RankChoice(p: Problem, rank: WorkloadRank, s: set<FabricEndpoint>) {
    && AskedFor(rank, |s|)
    && (forall e :: e in s ==> Fits(p, rank, e))
    && (forall e, f :: e in s && f in s ==> e.nodeName == f.nodeName)
  }

  ghost function ChoiceIDs(c: Choice): set<string> { set r, e | 0 <= r < |c| && e in c[r] :: e.endpointID }

  /** The first position of each member of `s`. */
  ghost function FirstPositions(cands: seq<FabricEndpoint>, s: set<FabricEndpoint>, upto: nat): Block
    requires upto <= |cands|
  {
    if upto == 0 then []
    else FirstPositions(cands, s, upto - 1) + if FirstHere(cands, s, upto - 1) then [upto - 1] else []
  }

  /** Position `i` is the first of a member of `s`. */
  ghost predicate FirstHere(cands: seq<FabricEndpoint>, s: set<FabricEndpoint>, i: nat)
    requires i < |cands|
  {
    cands[i] in s && cands[i] !in cands[..i]
  }

  lemma {:induction false} FirstPositionsIncrease(cands: seq<FabricEndpoint>, s: set<FabricEndpoint>, upto: nat)
    requires upto <= |cands|
    ensures Increasing(FirstPositions(cands, s, upto))
    ensures forall k :: 0 <= k < |FirstPositions(cands, s, upto)| ==> FirstPositions(cands, s, upto)[k] < upto
  {
    if upto > 0 {
      FirstPositionsIncrease(cands, s, upto - 1);
    }
  }

  /** `b` points at exactly the members of `s`. */
  ghost predicate Lists(cands: seq<FabricEndpoint>, b: Block, s: set<FabricEndpoint>) {
    && (forall k :: 0 <= k < |b| ==> b[k] < |cands| && cands[b[k]] in s)
    && (forall e :: e in s ==> PointedAt(cands, b, e))
  }

  ghost predicate PointedAt(cands: seq<FabricEndpoint>, b: Block, e: FabricEndpoint) {
    exists k :: 0 <= k < |b| && b[k] < |cands| && cands[b[k]] == e
  }

  ghost function Members(cands: seq<FabricEndpoint>, s: set<FabricEndpoint>, upto: nat): set<FabricEndpoint>
    requires upto <= |cands|
  {
    set e | e in s && e in cands[..upto]
  }

  lemma MembersStep(cands: seq<FabricEndpoint>, s: set<FabricEndpoint>, i: nat)
    requires i < |cands|
    ensures Members(cands, s, i + 1) == Members(cands, s, i) + if cands[i] in s then {cands[i]} else {}
    ensures cands[i] in Members(cands, s, i) <==> cands[i] in s && cands[i] in cands[..i]
  {
  }

  lemma MembersCard(cands: seq<FabricEndpoint>, s: set<FabricEndpoint>, i: nat)
    requires i < |cands|
    ensures |Members(cands, s, i + 1)| == |Members(cands, s, i)| + if FirstHere(cands, s, i) then 1 else 0
  {
    var before, after := Members(cands, s, i), Members(cands, s, i + 1);
    MembersStep(cands, s, i);
    if FirstHere(cands, s, i) {
      assert after == before + {cands[i]} && cands[i] !in before;
    } else {
      assert after == before;
    }
  }

  lemma {:induction false} FirstPositionsCount(cands: seq<FabricEndpoint>, s: set<FabricEndpoint>, upto: nat)
    requires upto <= |cands|
    ensures |FirstPositions(cands, s, upto)| == |Members(cands, s, upto)|
  {
    if upto == 0 {
      assert Members(cands, s, 0) == {};
    } else {
      FirstPositionsCount(cands, s, upto - 1);
      MembersCard(cands, s, upto - 1);
    }
  }

  lemma {:induction false} FirstPositionsList(cands: seq<FabricEndpoint>, s: set<FabricEndpoint>, upto: nat)
    requires upto <= |cands|
    ensures Lists(cands, FirstPositions(cands, s, upto), Members(cands, s, upto))
  {
    if upto > 0 {
      var prior, before := FirstPositions(cands, s, upto - 1), Members(cands, s, upto - 1);
      FirstPositionsList(cands, s, upto - 1);
      MembersStep(cands, s, upto - 1);
      if FirstHere(cands, s, upto - 1) {
        ListsStep(cands, prior, before, upto - 1);
      } else {
        assert FirstPositions(cands, s, upto) == prior && Members(cands, s, upto) == before;
      }
    }
  }

  lemma ListsStep(cands: seq<FabricEndpoint>, b: Block, s: set<FabricEndpoint>, i: nat)
    requires Lists(cands, b, s) && i < |cands|
    ensures Lists(cands, b + [i], s + {cands[i]})
  {
    forall e | e in s + {cands[i]} ensures PointedAt(cands, b + [i], e) {
      if e == cands[i] {
        assert (b + [i])[|b|] == i;
      } else {
        var k :| 0 <= k < |b| && b[k] < |cands| && cands[b[k]] == e;
        assert (b + [i])[k] == b[k];
      }
    }
  }

  lemma ChoiceBlock(p: Problem, rank: WorkloadRank, s: set<FabricEndpoint>, b: Block)
    requires RankChoice(p, rank, s) && b == FirstPositions(p.candidates, s, |p.candidates|)
    ensures BlockOk(p, rank, b) && Lists(p.candidates, b, s)
  {
    assert p.candidates[..|p.candidates|] == p.candidates;
    assert s == Members(p.candidates, s, |p.candidates|);
    FirstPositionsIncrease(p.candidates, s, |p.candidates|);
    FirstPositionsCount(p.candidates, s, |p.candidates|);
    FirstPositionsList(p.candidates, s, |p.candidates|);
  }

  /** A plain "no" means that no choice of devices is connected. */
  lemma PlacementComplete(p: Problem, assignments: seq<RankAssignment>, c: Choice)
    requires Answer(p, false, assignments) && IsChoice(p, c)
    ensures !MustConnect(IndexByID(p.candidates), ChoiceIDs(c))
  {
    var plan := ChoicePlan(p, c);
    assert ExtendsBlocks(plan, []);
  }

  lemma ChoicePlan(p: Problem, c: Choice) returns (plan: Plan)
    requires IsChoice(p, c)
    ensures FullLayout(p, plan) && SelectedIDs(Assignments(p, plan)) == ChoiceIDs(c)
  {
    plan := seq(|c|, r requires 0 <= r < |c| => FirstPositions(p.candidates, c[r], |p.candidates|));
    forall r | 0 <= r < |c|
      ensures BlockOk(p, p.workload.ranks[r], plan[r])
      ensures Lists(p.candidates, plan[r], c[r])
    {
      ChoiceBlock(p, p.workload.ranks[r], c[r], plan[r]);
    }
    ChoiceLayout(p, c, plan);
    PlanSelects(p, c, plan);
  }

  lemma ChoiceLayout(p: Problem, c: Choice, plan: Plan)
    requires IsChoice(p, c) && |plan| == |c|
    requires forall r :: 0 <= r < |c| ==> BlockOk(p, p.workload.ranks[r], plan[r]) && Lists(p.candidates, plan[r], c[r])
    ensures FullLayout(p, plan)
  {
  }

  lemma PlanSelects(p: Problem, c: Choice, plan: Plan)
    requires FullLayout(p, plan) && |plan| == |c|
    requires forall r :: 0 <= r < |c| ==> Lists(p.candidates, plan[r], c[r])
    ensures SelectedIDs(Assignments(p, plan)) == ChoiceIDs(c)
  {
    var a := Assignments(p, plan);
    forall r, e | 0 <= r < |c| && e in c[r] ensures e.endpointID in SelectedIDs(a) {
      assert PointedAt(p.candidates, plan[r], e);
      var k :| 0 <= k < |plan[r]| && p.candidates[plan[r][k]] == e;
      assert a[r] in a && a[r].devices[k] in a[r].devices;
    }
    forall x, d | x in a && d in x.devices ensures d.endpointID in ChoiceIDs(c) {
      var r :| 0 <= r < |a| && a[r] == x;
      var k :| 0 <= k < |x.devices| && x.devices[k] == d;
      assert p.candidates[plan[r][k]] in c[r];
    }
  }

  // ---- Minimality and order independence ----

  lemma {:induction false} FirstDifference<T>(a: seq<T>, b: seq<T>) returns (i: nat)
    requires |a| == |b| && a != b
    ensures i < |a| && a[..i] == b[..i] && a[i] != b[i]
  {
    if a[0] != b[0] {
      i := 0;
    } else {
      assert a == [a[0]] + a[1..] && b == [b[0]] + b[1..];
      i := FirstDifference(a[1..], b[1..]);
      assert a[..i + 1] == [a[0]] + a[1..][..i] && b[..i + 1] == [b[0]] + b[1..][..i];
      i := i + 1;
    }
  }

  lemma PlanOrderTotal(p: Problem, a: Plan, b: Plan)
    requires FullLayout(p, a) && FullLayout(p, b) && a != b
    ensures PlanLess(a, b) || PlanLess(b, a)
  {
    var r := FirstDifference(a, b);
    var k := FirstDifference(a[r], b[r]);
    assert SmallerAt(a, b, r, k) || SmallerAt(b, a, r, k);
  }

  /** On a sorted list without equal keys, positions are ordered as (node, device) pairs are. */
  lemma PositionOrderIsKeyOrder(cands: seq<FabricEndpoint>, i: nat, j: nat)
    requires SortedBy(ByKey, cands) && DistinctBy(ByKey, cands) && i < j < |cands|
    ensures ByKey(cands[i], cands[j]) && !ByKey(cands[j], cands[i])
  {
  }

  /** The endpoints come from a valid fabric. */
  ghost predicate FromValidFabric(endpoints: seq<FabricEndpoint>, candidates: seq<FabricEndpoint>) {
    Canonical(endpoints) && LinksSound(endpoints) && multiset(candidates) == multiset(endpoints)
  }

  lemma AcceptedIsSolution(p: Problem, endpoints: seq<FabricEndpoint>, plan: Plan)
    requires FromValidFabric(endpoints, p.candidates) && FullLayout(p, plan)
    ensures MaySolve(p, plan) <==> Solution(p, plan)
    ensures Solution(p, plan) <==> ConnectedSubgraph(IndexByID(p.candidates), SelectedIDs(Assignments(p, plan)))
  {
    var ids := SelectedIDs(Assignments(p, plan));
    forall a, d | a in Assignments(p, plan) && d in a.devices ensures d.endpointID != "" {
      var r :| 0 <= r < |plan| && Assignments(p, plan)[r] == a;
      var k :| 0 <= k < |a.devices| && a.devices[k] == d;
      MultisetMember(p.candidates, endpoints, p.candidates[plan[r][k]]);
    }
    ValidFabricDecidesConnectivity(endpoints, p.candidates, ids);
  }

  /** Every other connected plan is first different at a device later in (node, device) order. */
  lemma AnswerIsFirst(p: Problem, endpoints: seq<FabricEndpoint>, plan: Plan, other: Plan)
    requires FromValidFabric(endpoints, p.candidates)
    requires SortedBy(ByKey, p.candidates) && DistinctBy(ByKey, p.candidates)
    requires First(p, [], plan) && FullLayout(p, other) && other != plan
    requires ConnectedSubgraph(IndexByID(p.candidates), SelectedIDs(Assignments(p, other)))
    ensures exists r: nat, k: nat ::
              SmallerAt(plan, other, r, k) && ByKey(p.candidates[plan[r][k]], p.candidates[other[r][k]])
  {
    AcceptedIsSolution(p, endpoints, other);
    PlanOrderTotal(p, plan, other);
    assert ExtendsBlocks(other, []);
    var r: nat, k: nat :| SmallerAt(plan, other, r, k);
    assert BlockOk(p, p.workload.ranks[r], other[r]);
    PositionOrderIsKeyOrder(p.candidates, plan[r][k], other[r][k]);
  }

  /** On a valid fabric the answer is a function of the problem. */
  lemma AnswerUnique(p: Problem, endpoints: seq<FabricEndpoint>, ok1: bool, a1: seq<RankAssignment>, ok2: bool,
                     a2: seq<RankAssignment>)
    requires FromValidFabric(endpoints, p.candidates)
    requires Answer(p, ok1, a1) && Answer(p, ok2, a2)
    ensures ok1 == ok2 && (ok1 ==> a1 == a2)
  {
    forall plan | First(p, [], plan) ensures Solution(p, plan) && ExtendsBlocks(plan, []) {
      AcceptedIsSolution(p, endpoints, plan);
    }
    if ok1 && ok2 {
      var x :| First(p, [], x) && a1 == Assignments(p, x);
      var y :| First(p, [], y) && a2 == Assignments(p, y);
      if x != y {
        PlanOrderTotal(p, x, y);
        assert false;
      }
    }
  }

  /** Permuting the endpoint list never changes the answer. */
  lemma OrderIndependence(w: Workload, reserved: set<DeviceID>, fabric: seq<FabricEndpoint>,
                          cands1: seq<FabricEndpoint>, ok1: bool, a1: seq<RankAssignment>, cands2: seq<FabricEndpoint>,
                          ok2: bool, a2: seq<RankAssignment>)
    requires FromValidFabric(fabric, cands1) && FromValidFabric(fabric, cands2)
    requires DistinctBy(ByKey, cands1) && SortedBy(ByKey, cands1) && SortedBy(ByKey, cands2)
    requires Answer(Problem(w, cands1, reserved), ok1, a1) && Answer(Problem(w, cands2, reserved), ok2, a2)
    ensures ok1 == ok2 && (ok1 ==> a1 == a2)
  {
    ByKeyIsStrictWeakOrder();
    SortUnique(ByKey, cands1, cands2);
    AnswerUnique(Problem(w, cands1, reserved), fabric, ok1, a1, ok2, a2);
  }

  /** On a valid fabric a solver "no" rules out every connected choice of device sets. */
  lemma NoConnectedChoice(p: Problem, endpoints: seq<FabricEndpoint>, assignments: seq<RankAssignment>, c: Choice)
    requires FromValidFabric(endpoints, p.candidates)
    requires Answer(p, false, assignments) && IsChoice(p, c)
    ensures !ConnectedSubgraph(IndexByID(p.candidates), ChoiceIDs(c))
  {
    var plan := ChoicePlan(p, c);
    AcceptedIsSolution(p, endpoints, plan);
    assert ExtendsBlocks(plan, []);
  }
}
