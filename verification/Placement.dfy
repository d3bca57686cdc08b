/** What a placement is: plans over the sorted candidates, and the order the solver tries them in. */
module Placement {
  import opened Ordering
  import opened Api
  import opened Connectivity

  const GENERIC_CLASS := "tenstorrent"
  const WORMHOLE_CLASS := "tenstorrent-wormhole"
  const BLACKHOLE_CLASS := "tenstorrent-blackhole"

  predicate MatchesDeviceClass(name: string, chipSeries: string) {
    if name == GENERIC_CLASS then chipSeries == "wormhole" || chipSeries == "blackhole"
    else if name == WORMHOLE_CLASS then chipSeries == "wormhole"
    else name == BLACKHOLE_CLASS && chipSeries == "blackhole"
  }

  predicate Matches(rank: WorkloadRank, e: FabricEndpoint) {
    && (rank.chipSeries != "" ==> e.chipSeries == rank.chipSeries)
    && MatchesDeviceClass(rank.deviceClassName, e.chipSeries)
  }

  /** A non-positive count asks for one device. */
  function Need(rank: WorkloadRank): nat { if rank.count <= 0 then 1 else rank.count }

  function IDOf(e: FabricEndpoint): DeviceID { DeviceID(e.pool, e.deviceName) }

  function Assigned(e: FabricEndpoint): AssignedDevice {
    AssignedDevice(e.pool, e.deviceName, e.stableID, e.endpointID)
  }

  function MakeAssignment(w: Workload, rank: string, node: string, devices: seq<FabricEndpoint>): RankAssignment {
    var name := ChildName(w.name, w.uid, rank);
    RankAssignment(rank, node, name, name, seq(|devices|, i requires 0 <= i < |devices| => Assigned(devices[i])))
  }

  function DeviceIDs(a: RankAssignment): set<DeviceID> { set d | d in a.devices :: DeviceID(d.pool, d.name) }

  /** The candidate order: by node, then by device. */
  predicate ByKey(a: FabricEndpoint, b: FabricEndpoint) {
    if a.nodeName == b.nodeName then Less(a.deviceName, b.deviceName) else Less(a.nodeName, b.nodeName)
  }

  lemma ByKeyIsStrictWeakOrder()
    ensures StrictWeakOrder(ByKey)
  {
    LessIsStrictWeakOrder();
    forall x, y, z | ByKey(x, z) ensures ByKey(x, y) || ByKey(y, z) {
      LessTotal(x.nodeName, y.nodeName);
      LessTotal(y.nodeName, z.nodeName);
      LessTotal(x.nodeName, z.nodeName);
      if Less(x.nodeName, z.nodeName) { LessCoTransitive(x.nodeName, y.nodeName, z.nodeName); }
      if Less(x.deviceName, z.deviceName) { LessCoTransitive(x.deviceName, y.deviceName, z.deviceName); }
    }
    forall x, y | ByKey(x, y) ensures !ByKey(y, x) {
      LessTotal(x.nodeName, y.nodeName);
      LessTotal(x.deviceName, y.deviceName);
    }
  }

  datatype Problem = Problem(workload: Workload, candidates: seq<FabricEndpoint>, reserved: set<DeviceID>)

  /** One block of candidate positions per rank, in rank order. */
  type Block = seq<nat>
  type Plan = seq<Block>

  predicate Usable(p: Problem, rank: WorkloadRank, e: FabricEndpoint) {
    IDOf(e) !in p.reserved && Matches(rank, e) && MatchesTopology(p.workload.topology, e)
  }

  ghost predicate Increasing(b: Block) { forall i, j :: 0 <= i < j < |b| ==> b[i] < b[j] }

  ghost predicate InRange(p: Problem, b: Block) { forall k :: 0 <= k < |b| ==> b[k] < |p.candidates| }

  ghost function Picks(p: Problem, b: Block): (s: seq<FabricEndpoint>)
    requires InRange(p, b)
    ensures |s| == |b|
  {
    seq(|b|, k requires 0 <= k < |b| => p.candidates[b[k]])
  }

  /** The requested count of distinct candidates on one node, each fit for the rank. */
  ghost predicate BlockOk(p: Problem, rank: WorkloadRank, b: Block) {
    && |b| == Need(rank) && Increasing(b) && InRange(p, b)
    && forall k :: 0 <= k < |b| ==> OnNode(p, rank, p.candidates[b[k]], p.candidates[b[0]].nodeName)
  }

  ghost predicate OnNode(p: Problem, rank: WorkloadRank, e: FabricEndpoint, node: string) {
    Usable(p, rank, e) && e.nodeName == node
  }

  ghost function BlockIDs(p: Problem, b: Block): set<DeviceID>
    requires InRange(p, b)
  {
    set k | 0 <= k < |b| :: IDOf(p.candidates[b[k]])
  }

  /** Blocks for the first ranks, with no device in two of them. */
  ghost predicate Layout(p: Problem, plan: Plan) {
    && |plan| <= |p.workload.ranks|
    && (forall r :: 0 <= r < |plan| ==> BlockOk(p, p.workload.ranks[r], plan[r]))
    && (forall r, s :: 0 <= r < s < |plan| ==> BlockIDs(p, plan[r]) !! BlockIDs(p, plan[s]))
  }

  ghost function BlockAssignment(p: Problem, rank: WorkloadRank, b: Block): RankAssignment
    requires BlockOk(p, rank, b)
  {
    MakeAssignment(p.workload, rank.name, p.candidates[b[0]].nodeName, Picks(p, b))
  }

  ghost function Assignments(p: Problem, plan: Plan): (a: seq<RankAssignment>)
    requires Layout(p, plan)
    ensures |a| == |plan|
  {
    seq(|plan|, r requires 0 <= r < |plan| => BlockAssignment(p, p.workload.ranks[r], plan[r]))
  }

  ghost predicate FullLayout(p: Problem, plan: Plan) { Layout(p, plan) && |plan| == |p.workload.ranks| }

  ghost predicate MaySolve(p: Problem, plan: Plan) {
    FullLayout(p, plan) && MayConnect(IndexByID(p.candidates), SelectedIDs(Assignments(p, plan)))
  }

  /** A full layout the connectivity check accepts from every start. */
  ghost predicate Solution(p: Problem, plan: Plan) {
    FullLayout(p, plan) && MustConnect(IndexByID(p.candidates), SelectedIDs(Assignments(p, plan)))
  }

  /** The plans first differ at block `r`, place `k`, where `a` is smaller. */
  ghost predicate SmallerAt(a: Plan, b: Plan, r: nat, k: nat) {
    && r < |a| && r < |b| && a[..r] == b[..r]
    && k < |a[r]| && k < |b[r]| && a[r][..k] == b[r][..k]
    && a[r][k] < b[r][k]
  }

  ghost predicate PlanLess(a: Plan, b: Plan) { exists r: nat, k: nat :: SmallerAt(a, b, r, k) }

  // ---- Where the search stands ----

  ghost predicate ExtendsBlocks(plan: Plan, done: Plan) { |done| <= |plan| && plan[..|done|] == done }

  ghost predicate ExtendsPicks(p: Problem, plan: Plan, done: Plan, node: string, picks: Block) {
    && |done| < |plan| && plan[..|done|] == done
    && picks <= plan[|done|] && plan[|done|] != []
    && plan[|done|][0] < |p.candidates| && p.candidates[plan[|done|][0]].nodeName == node
  }

  ghost predicate Exhausted(p: Problem, done: Plan) {
    forall plan :: Solution(p, plan) ==> !ExtendsBlocks(plan, done)
  }

  ghost predicate ExhaustedAt(p: Problem, done: Plan, node: string, picks: Block) {
    forall plan :: Solution(p, plan) ==> !ExtendsPicks(p, plan, done, node, picks)
  }

  /** `plan` is accepted and no solution beyond `done` comes before it. */
  ghost predicate First(p: Problem, done: Plan, plan: Plan) {
    && MaySolve(p, plan) && ExtendsBlocks(plan, done)
    && forall other :: Solution(p, other) && ExtendsBlocks(other, done) ==> !PlanLess(other, plan)
  }

  ghost predicate FirstAt(p: Problem, done: Plan, node: string, picks: Block, plan: Plan) {
    && MaySolve(p, plan) && ExtendsPicks(p, plan, done, node, picks)
    && forall other :: Solution(p, other) && ExtendsPicks(p, other, done, node, picks) ==> !PlanLess(other, plan)
  }

  /** A plan whose next pick is later is not smaller. */
  lemma LaterPickNotLess(a: Plan, b: Plan, n: nat, m: nat)
    requires n < |a| && n < |b| && a[..n] == b[..n]
    requires m < |a[n]| && m < |b[n]| && a[n][..m] == b[n][..m] && b[n][m] < a[n][m]
    ensures !PlanLess(a, b)
  {
  }

  // ---- Candidates offered to one rank on one node ----

  predicate Offered(p: Problem, rank: WorkloadRank, taken: set<DeviceID>, node: string, e: FabricEndpoint) {
    Usable(p, rank, e) && IDOf(e) !in taken && e.nodeName == node
  }

  ghost function Positions(p: Problem, rank: WorkloadRank, taken: set<DeviceID>, node: string, upto: nat): (b: Block)
    requires upto <= |p.candidates|
    ensures forall i :: i in b <==> 0 <= i < upto && Offered(p, rank, taken, node, p.candidates[i])
    ensures Increasing(b) && InRange(p, b)
  {
    if upto == 0 then []
    else
      var before := Positions(p, rank, taken, node, upto - 1);
      assert forall i :: 0 <= i < |before| ==> before[i] in before;
      before + if Offered(p, rank, taken, node, p.candidates[upto - 1]) then [upto - 1] else []
  }

  ghost function Choices(p: Problem, rank: WorkloadRank, taken: set<DeviceID>, node: string): (b: Block)
    ensures Increasing(b) && InRange(p, b)
  {
    Positions(p, rank, taken, node, |p.candidates|)
  }

  /** One node's group after the first `upto` candidates. */
  ghost predicate Grouped(p: Problem, rank: WorkloadRank, taken: set<DeviceID>,
                          byNode: map<string, seq<FabricEndpoint>>, node: string, upto: nat)
    requires upto <= |p.candidates|
  {
    var pos := Positions(p, rank, taken, node, upto);
    if node in byNode then pos != [] && byNode[node] == Picks(p, pos) else pos == []
  }

  ghost predicate AllGrouped(p: Problem, rank: WorkloadRank, taken: set<DeviceID>,
                             byNode: map<string, seq<FabricEndpoint>>, upto: nat)
    requires upto <= |p.candidates|
  {
    forall node :: Grouped(p, rank, taken, byNode, node, upto)
  }

  lemma AllGroupedStep(p: Problem, rank: WorkloadRank, taken: set<DeviceID>, byNode: map<string, seq<FabricEndpoint>>,
                       after: map<string, seq<FabricEndpoint>>, i: nat, next: nat)
    requires i < |p.candidates| && next == i + 1 && AllGrouped(p, rank, taken, byNode, i)
    requires var e := p.candidates[i];
             if Offered(p, rank, taken, e.nodeName, e)
             then after == byNode[e.nodeName := (if e.nodeName in byNode then byNode[e.nodeName] else []) + [e]]
             else after == byNode
    ensures AllGrouped(p, rank, taken, after, next)
  {
    forall node ensures Grouped(p, rank, taken, after, node, next) {
      GroupStep(p, rank, taken, byNode, after, node, i);
    }
  }

  lemma GroupStep(p: Problem, rank: WorkloadRank, taken: set<DeviceID>, byNode: map<string, seq<FabricEndpoint>>,
                  after: map<string, seq<FabricEndpoint>>, node: string, i: nat)
    requires i < |p.candidates| && Grouped(p, rank, taken, byNode, node, i)
    requires if Offered(p, rank, taken, node, p.candidates[i])
             then node in after && after[node] == (if node in byNode then byNode[node] else []) + [p.candidates[i]]
             else (node in byNode <==> node in after) && (node in byNode ==> after[node] == byNode[node])
    ensures Grouped(p, rank, taken, after, node, i + 1)
  {
  }

  /** An increasing block drawn from `pos` leaves room for its tail. */
  lemma {:induction false} TailFits(b: Block, pos: Block, k: nat, t: nat)
    requires Increasing(b) && Increasing(pos) && forall i :: 0 <= i < |b| ==> b[i] in pos
    requires k < |b| && t < |pos| && b[k] == pos[t]
    ensures t + (|b| - k) <= |pos|
    decreases |b| - k
  {
    if k + 1 < |b| {
      var u :| 0 <= u < |pos| && pos[u] == b[k + 1];
      TailFits(b, pos, k + 1, u);
    }
  }

  ghost function Taken(p: Problem, done: Plan): set<DeviceID>
    requires Layout(p, done)
  {
    set r, k | 0 <= r < |done| && 0 <= k < |done[r]| :: IDOf(p.candidates[done[r][k]])
  }

  /** Every way to continue `done` draws its next block from the choices on one node. */
  lemma NextBlockIsOffered(p: Problem, done: Plan, plan: Plan)
    requires Layout(p, done) && FullLayout(p, plan) && ExtendsBlocks(plan, done) && |done| < |plan|
    ensures BlockOk(p, p.workload.ranks[|done|], plan[|done|])
    ensures plan[|done|] != []
    ensures var node := p.candidates[plan[|done|][0]].nodeName;
            forall k :: 0 <= k < |plan[|done|]| ==>
              plan[|done|][k] in Choices(p, p.workload.ranks[|done|], Taken(p, done), node)
  {
    var n := |done|;
    var b := plan[n];
    forall r, j, k | 0 <= r < n && 0 <= j < |done[r]| && 0 <= k < |b|
      ensures IDOf(p.candidates[done[r][j]]) != IDOf(p.candidates[b[k]])
    {
      assert done[r] == plan[..n][r] == plan[r];
      assert BlockIDs(p, plan[r]) !! BlockIDs(p, plan[n]);
      assert IDOf(p.candidates[done[r][j]]) in BlockIDs(p, plan[r]);
      assert IDOf(p.candidates[b[k]]) in BlockIDs(p, plan[n]);
    }
  }

  /** Appending a block of offered candidates keeps a layout. */
  lemma LayoutStep(p: Problem, done: Plan, node: string, picks: Block)
    requires Layout(p, done) && |done| < |p.workload.ranks|
    requires |picks| == Need(p.workload.ranks[|done|]) && Increasing(picks)
    requires forall k :: 0 <= k < |picks| ==> picks[k] in Choices(p, p.workload.ranks[|done|], Taken(p, done), node)
    ensures Layout(p, done + [picks])
    ensures Taken(p, done + [picks]) == Taken(p, done) + BlockIDs(p, picks)
    ensures BlockIDs(p, picks) !! Taken(p, done)
    ensures Assignments(p, done + [picks]) ==
            Assignments(p, done) + [MakeAssignment(p.workload, p.workload.ranks[|done|].name, node, Picks(p, picks))]
  {
    var next := done + [picks];
    forall r | 0 <= r < |done| ensures BlockIDs(p, done[r]) !! BlockIDs(p, picks) {
      forall k | 0 <= k < |picks| ensures IDOf(p.candidates[picks[k]]) !in BlockIDs(p, done[r]) {
        assert IDOf(p.candidates[picks[k]]) !in Taken(p, done);
      }
    }
    assert forall r :: 0 <= r < |done| ==> next[r] == done[r];
    assert next[|done|] == picks;
  }
}
