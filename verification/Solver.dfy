/** `SolveContext`: the cancellable backtracking search. */
module Solver {
  import opened Ordering
  import opened Api
  import opened Connectivity
  import opened Placement

  datatype Limits = Limits(maxRanks: int, maxEndpoints: int, maxDevices: int)

  const DEFAULT_LIMITS := Limits(64, 2048, 128)

  datatype SolveError = NoWorkload | ExceedsLimits | Cancelled

  /** Two's-complement 64-bit wrap-around. */
  function Wrap64(x: int): int { (x + 0x8000_0000_0000_0000) % 0x1_0000_0000_0000_0000 - 0x8000_0000_0000_0000 }

  /** The requested device total as the source adds it up. */
  function TotalCount(ranks: seq<WorkloadRank>): int {
    if ranks == [] then 0 else Wrap64(TotalCount(ranks[..|ranks| - 1]) + ranks[|ranks| - 1].count)
  }

  function CountSum(ranks: seq<WorkloadRank>): int {
    if ranks == [] then 0 else ranks[0].count + CountSum(ranks[1..])
  }

  lemma {:induction false} CountSumAppend(ranks: seq<WorkloadRank>, last: WorkloadRank)
    ensures CountSum(ranks + [last]) == CountSum(ranks) + last.count
  {
    if ranks == [] {
      assert [last][1..] == [];
    } else {
      CountSumAppend(ranks[1..], last);
      assert (ranks + [last])[1..] == ranks[1..] + [last];
    }
  }

  lemma WrapIs(x: int)
    ensures Wrap64(x) == x - 18446744073709551616 * ((x + 9223372036854775808) / 18446744073709551616)
    ensures -9223372036854775808 <= Wrap64(x) < 9223372036854775808
  {
  }

  /** The total differs from the sum of the counts by a multiple of 2^64, and is the sum where that fits in 64 bits. */
  lemma {:induction false} TotalCountIsSum(ranks: seq<WorkloadRank>) returns (k: int)
    ensures CountSum(ranks) == TotalCount(ranks) + 18446744073709551616 * k
    ensures -9223372036854775808 <= TotalCount(ranks) < 9223372036854775808
    ensures -9223372036854775808 <= CountSum(ranks) < 9223372036854775808 ==> TotalCount(ranks) == CountSum(ranks)
  {
    k := 0;
    if ranks != [] {
      var init, last := ranks[..|ranks| - 1], ranks[|ranks| - 1];
      k := TotalCountIsSum(init);
      CountSumAppend(init, last);
      WrapIs(TotalCount(init) + last.count);
      k := k + (TotalCount(init) + last.count + 9223372036854775808) / 18446744073709551616;
      assert ranks == init + [last];
    }
  }

  predicate WithinLimits(w: Workload, endpoints: seq<FabricEndpoint>, limits: Limits) {
    |w.ranks| <= limits.maxRanks && |endpoints| <= limits.maxEndpoints && TotalCount(w.ranks) <= limits.maxDevices
  }

  /** A context may be cancelled at any time and stays cancelled. */
  class Context {
    var cancelled: bool

    constructor ()
    {
      cancelled := *;
    }

    method Err() returns (err: bool)
      modifies this
      ensures err == cancelled
      ensures old(cancelled) ==> cancelled
    {
      if !cancelled {
        cancelled := *;
      }
      err := cancelled;
    }
  }

  /** The `picked` slice of one `chooseCombinations` call. */
  class Picked {
    var items: seq<FabricEndpoint>

    constructor ()
      ensures items == []
    {
      items := [];
    }
  }

  method SortedNodeNames(byNode: map<string, seq<FabricEndpoint>>) returns (names: seq<string>)
    ensures forall n :: n in names <==> n in byNode
    ensures forall i, j :: 0 <= i < j < |names| ==> Less(names[i], names[j])
  {
    names := [];
    var rest := byNode.Keys;
    while rest != {}
      invariant rest <= byNode.Keys
      invariant forall n :: n in names <==> n in byNode.Keys - rest
      invariant forall i, j :: 0 <= i < j < |names| ==> names[i] != names[j]
      decreases rest
    {
      var n :| n in rest;
      assert n !in names;
      names := names + [n];
      rest := rest - {n};
    }
    ghost var unsorted := names;
    LessIsStrictWeakOrder();
    names := SortSlice(names, Less);
    PermutationDistinct(unsorted, names);
    forall n ensures n in names <==> n in unsorted { MultisetMember(names, unsorted, n); }
    forall i, j | 0 <= i < j < |names| ensures Less(names[i], names[j]) { LessTotal(names[i], names[j]); }
  }

  lemma PermutationDistinct(a: seq<string>, b: seq<string>)
    requires multiset(a) == multiset(b)
    requires forall i, j :: 0 <= i < j < |a| ==> a[i] != a[j]
    ensures forall i, j :: 0 <= i < j < |b| ==> b[i] != b[j]
  {
    forall i, j | 0 <= i < j < |b| ensures b[i] != b[j] {
      DistinctCount(a, b[j]);
      assert b == b[..j] + [b[j]] + b[j + 1..];
      assert b[..j][i] == b[i];
    }
  }

  lemma {:induction false} DistinctCount(a: seq<string>, x: string)
    requires forall i, j :: 0 <= i < j < |a| ==> a[i] != a[j]
    ensures multiset(a)[x] <= 1
  {
    if a != [] {
      DistinctCount(a[1..], x);
      assert a == [a[0]] + a[1..];
      if x == a[0] { assert x !in a[1..]; }
    }
  }

  class Search {
    const p: Problem
    const ctx: Context
    var selected: set<DeviceID>
    var assignments: seq<RankAssignment>

    constructor (p: Problem, ctx: Context)
      ensures this.p == p && this.ctx == ctx && selected == {} && |assignments| == |p.workload.ranks|
    {
      this.p, this.ctx := p, ctx;
      selected := {};
      assignments := seq(|p.workload.ranks|,
                         _ => RankAssignment("", "", ChildName("", "", ""), ChildName("", "", ""), []));
    }

    /** The shared state describes exactly the ranks placed so far. */
    ghost predicate At(done: Plan)
      reads this
    {
      && SortedBy(ByKey, p.candidates)
      && Layout(p, done)
      && selected == Taken(p, done)
      && |assignments| == |p.workload.ranks|
      && assignments[..|done|] == Assignments(p, done)
    }

    /** `candidatesByNode` over the current reservations and selection. */
    method CandidatesByNode(rank: WorkloadRank) returns (byNode: map<string, seq<FabricEndpoint>>)
      ensures AllGrouped(p, rank, selected, byNode, |p.candidates|)
    {
      byNode := map[];
      for i := 0 to |p.candidates|
        invariant AllGrouped(p, rank, selected, byNode, i)
      {
        var item := p.candidates[i];
        ghost var before := byNode;
        if IDOf(item) in p.reserved || IDOf(item) in selected || !Matches(rank, item)
           || !MatchesTopology(p.workload.topology, item) {
          AllGroupedStep(p, rank, selected, before, byNode, i, i + 1);
          continue;
        }
        var group := if item.nodeName in byNode then byNode[item.nodeName] else [];
        byNode := byNode[item.nodeName := group + [item]];
        AllGroupedStep(p, rank, selected, before, byNode, i, i + 1);
      }
    }

    /** `chooseRank`. */
    method ChooseRank(index: nat, ghost done: Plan) returns (ok: bool, ghost plan: Plan)
      requires index == |done| && At(done)
      modifies this, ctx
      ensures old(ctx.cancelled) ==> ctx.cancelled && !ok
      ensures !ok ==> At(done)
      ensures !ok ==> ctx.cancelled || Exhausted(p, done)
      ensures ok ==> First(p, done, plan) && assignments == Assignments(p, plan)
      decreases |p.workload.ranks| - index, 2
    {
      plan := done;
      var stopped := ctx.Err();
      if stopped {
        return false, done;
      }
      if index == |p.workload.ranks| {
        ok := CheckConnected(done);
        return;
      }
      var rank := p.workload.ranks[index];
      var byNode := CandidatesByNode(rank);
      var names := SortedNodeNames(byNode);
      NamesCover(p, rank, selected, byNode, names);
      ok, plan := TryNodes(index, rank, byNode, names, done);
    }

    /** The end of a branch: every rank is placed. */
    method CheckConnected(ghost done: Plan) returns (ok: bool)
      requires At(done) && |done| == |p.workload.ranks|
      ensures !ok ==> Exhausted(p, done)
      ensures ok ==> First(p, done, done) && assignments == Assignments(p, done)
    {
      assert assignments[..|done|] == assignments;
      ok := Connected(assignments, p.candidates);
      CompletePlan(p, done, ok);
    }

    /** The loop of `chooseRank` over the sorted node names. */
    method TryNodes(index: nat, rank: WorkloadRank, byNode: map<string, seq<FabricEndpoint>>, names: seq<string>,
                    ghost done: Plan)
      returns (ok: bool, ghost plan: Plan)
      requires index == |done| < |p.workload.ranks| && At(done) && rank == p.workload.ranks[index]
      requires Covers(p, rank, Taken(p, done), names)
      requires forall n :: n in names ==> n in byNode && byNode[n] == Picks(p, Choices(p, rank, Taken(p, done), n))
      modifies this, ctx
      ensures old(ctx.cancelled) ==> ctx.cancelled && !ok
      ensures !ok ==> At(done)
      ensures !ok ==> ctx.cancelled || Exhausted(p, done)
      ensures ok ==> First(p, done, plan) && assignments == Assignments(p, plan)
      decreases |p.workload.ranks| - index, 1
    {
      plan := done;
      var count := if rank.count <= 0 then 1 else rank.count;
      for j := 0 to |names|
        invariant At(done)
        invariant old(ctx.cancelled) ==> ctx.cancelled
        invariant ctx.cancelled || NoneOn(p, done, names[..j])
      {
        var choices := byNode[names[j]];
        if |choices| < count {
          TooFewChoices(p, done, names[j]);
        } else {
          ok, plan := ChooseCombinations(index, names[j], choices, count, done);
          if ok {
            FirstNodeWins(p, done, names, j, plan);
            return;
          }
        }
        if !ctx.cancelled {
          NoneOnStep(p, done, names, j);
        }
      }
      assert names[..|names|] == names;
      if !ctx.cancelled {
        NoNodeLeft(p, done, names);
      }
      ok := false;
    }

    /** `chooseCombinations` over one node's choices. */
    method ChooseCombinations(index: nat, node: string, items: seq<FabricEndpoint>, count: nat, ghost done: Plan)
      returns (ok: bool, ghost plan: Plan)
      requires index == |done| < |p.workload.ranks| && At(done)
      requires count == Need(p.workload.ranks[index])
      requires items == Picks(p, Choices(p, p.workload.ranks[index], Taken(p, done), node))
      modifies this, ctx
      ensures old(ctx.cancelled) ==> ctx.cancelled && !ok
      ensures !ok ==> At(done)
      ensures !ok ==> ctx.cancelled || ExhaustedAt(p, done, node, [])
      ensures ok ==> FirstAt(p, done, node, [], plan) && assignments == Assignments(p, plan)
      decreases |p.workload.ranks| - index, 0, 2 * count + 2
    {
      var picked := new Picked();
      ok, plan := Choose(index, node, items, count, 0, picked, done, []);
    }

    /** `choose`: extends `picked` from position `start` on, taking back each pick that fails. */
    method Choose(index: nat, node: string, items: seq<FabricEndpoint>, count: nat, start: nat, picked: Picked,
                  ghost done: Plan, ghost picks: Block)
      returns (ok: bool, ghost plan: Plan)
      requires index == |done| < |p.workload.ranks| && At(done)
      requires count == Need(p.workload.ranks[index])
      requires items == Picks(p, Choices(p, p.workload.ranks[index], Taken(p, done), node))
      requires Drawn(Choices(p, p.workload.ranks[index], Taken(p, done), node), picks, start) && |picks| <= count
      requires InRange(p, picks) && picked.items == Picks(p, picks)
      modifies this, ctx, picked
      ensures old(ctx.cancelled) ==> ctx.cancelled && !ok
      ensures !ok ==> At(done) && picked.items == old(picked.items)
      ensures !ok ==> ctx.cancelled || ExhaustedAt(p, done, node, picks)
      ensures ok ==> FirstAt(p, done, node, picks, plan) && assignments == Assignments(p, plan)
      decreases |p.workload.ranks| - index, 0, 1 + 2 * (count - |picks|)
    {
      plan := done;
      var stopped := ctx.Err();
      if stopped {
        return false, done;
      }
      if |picked.items| == count {
        ok, plan := Visit(index, node, picked.items, done, picks);
        return;
      }
      var remaining := count - |picked.items|;
      ghost var base := picked.items;
      ghost var pos := Choices(p, p.workload.ranks[index], Taken(p, done), node);
      var i := start;
      NoneBeforeStart(p, done, node, picks, start);
      while i <= |items| - remaining
        invariant start <= i <= |pos| && At(done) && picked.items == base
        invariant ctx.cancelled || NoneBefore(p, done, node, picks, i)
      {
        ok, plan := ChooseAt(index, node, items, count, start, i, picked, done, picks);
        if ok {
          return;
        }
        i := i + 1;
      }
      if !ctx.cancelled {
        NoPickLeft(p, done, node, picks, i);
      }
      ok := false;
    }

    /** One round of the loop in `choose`: push, go on, and pop if that fails. */
    method ChooseAt(index: nat, node: string, items: seq<FabricEndpoint>, count: nat, ghost start: nat, i: nat,
                    picked: Picked, ghost done: Plan, ghost picks: Block)
      returns (ok: bool, ghost plan: Plan)
      requires index == |done| < |p.workload.ranks| && At(done)
      requires count == Need(p.workload.ranks[index])
      requires items == Picks(p, Choices(p, p.workload.ranks[index], Taken(p, done), node)) && start <= i < |items|
      requires Drawn(Choices(p, p.workload.ranks[index], Taken(p, done), node), picks, start) && |picks| < count
      requires InRange(p, picks) && picked.items == Picks(p, picks)
      requires ctx.cancelled || NoneBefore(p, done, node, picks, i)
      modifies this, ctx, picked
      ensures old(ctx.cancelled) ==> ctx.cancelled && !ok
      ensures !ok ==> At(done) && picked.items == old(picked.items)
      ensures !ok ==> ctx.cancelled || NoneBefore(p, done, node, picks, i + 1)
      ensures ok ==> FirstAt(p, done, node, picks, plan) && assignments == Assignments(p, plan)
      decreases |p.workload.ranks| - index, 0, 2 * (count - |picks|)
    {
      ghost var pos := Choices(p, p.workload.ranks[index], Taken(p, done), node);
      picked.items := picked.items + [items[i]];
      DrawnStep(pos, picks, start, i);
      PicksStep(p, picks, pos, i);
      ok, plan := Choose(index, node, items, count, i + 1, picked, done, picks + [pos[i]]);
      if ok {
        FirstPickWins(p, done, node, picks, i, plan);
        return;
      }
      picked.items := picked.items[..|picked.items| - 1];
      if !ctx.cancelled {
        NoneBeforeStep(p, done, node, picks, i);
      }
    }

    /** The callback: records the rank's assignment, goes on, and releases the devices if that fails. */
    method Visit(index: nat, node: string, devices: seq<FabricEndpoint>, ghost done: Plan, ghost picks: Block)
      returns (ok: bool, ghost plan: Plan)
      requires index == |done| < |p.workload.ranks| && At(done)
      requires |picks| == Need(p.workload.ranks[index]) && Increasing(picks) && InRange(p, picks)
      requires forall k :: 0 <= k < |picks| ==> picks[k] in Choices(p, p.workload.ranks[index], Taken(p, done), node)
      requires devices == Picks(p, picks)
      modifies this, ctx
      ensures old(ctx.cancelled) ==> ctx.cancelled && !ok
      ensures !ok ==> At(done)
      ensures !ok ==> ctx.cancelled || ExhaustedAt(p, done, node, picks)
      ensures ok ==> FirstAt(p, done, node, picks, plan) && assignments == Assignments(p, plan)
      decreases |p.workload.ranks| - index, 0, 0
    {
      var assignment := Record(index, node, devices, done, picks);
      ok, plan := ChooseRank(index + 1, done + [picks]);
      BlockComplete(p, done, node, picks);
      if ok {
        PlanGoesThrough(p, done, node, picks, plan);
        return;
      }
      assert assignments[..index + 1][..index] == assignments[..index];
      selected := selected - DeviceIDs(assignment);
    }

    /** Writes the rank's assignment and adds its devices to the shared selection. */
    method Record(index: nat, node: string, devices: seq<FabricEndpoint>, ghost done: Plan, ghost picks: Block)
      returns (assignment: RankAssignment)
      requires index == |done| < |p.workload.ranks| && At(done)
      requires |picks| == Need(p.workload.ranks[index]) && Increasing(picks) && InRange(p, picks)
      requires forall k :: 0 <= k < |picks| ==> picks[k] in Choices(p, p.workload.ranks[index], Taken(p, done), node)
      requires devices == Picks(p, picks)
      modifies this
      ensures At(done + [picks])
      ensures Taken(p, done + [picks]) - DeviceIDs(assignment) == Taken(p, done)
      ensures Assignments(p, done + [picks])[..index] == Assignments(p, done)
    {
      LayoutStep(p, done, node, picks);
      assignment := MakeAssignment(p.workload, p.workload.ranks[index].name, node, devices);
      AssignmentIDs(p, picks, assignment);
      assert assignments[index := assignment][..index] == assignments[..index];
      assert assignments[index := assignment][..index + 1] == assignments[..index] + [assignment];
      assignments := assignments[index := assignment];
      selected := selected + DeviceIDs(assignment);
    }
  }

  /** What an answer over the sorted candidates means. */
  ghost predicate Answer(p: Problem, ok: bool, assignments: seq<RankAssignment>) {
    if ok then exists plan :: First(p, [], plan) && assignments == Assignments(p, plan)
    else Exhausted(p, [])
  }

  /** `SolveContext`: an accepted plan is the first one whatever the cancellation, and a plain "no" is a proof. */
  method SolveContext(ctx: Context, workload: Option<Workload>, endpoints: seq<FabricEndpoint>, reserved: set<DeviceID>,
                      limits: Limits)
    returns (assignments: seq<RankAssignment>, ok: bool, err: Option<SolveError>, ghost candidates: seq<FabricEndpoint>)
    modifies ctx
    ensures old(ctx.cancelled) ==> ctx.cancelled && !ok
    ensures err == Some(NoWorkload) <==> workload.None?
    ensures err == Some(ExceedsLimits) <==> workload.Some? && !WithinLimits(workload.value, endpoints, limits)
    ensures err == Some(NoWorkload) || err == Some(ExceedsLimits) ==> !ok
    ensures err == Some(Cancelled) ==> ctx.cancelled
    ensures err.None? ==> !ctx.cancelled
    ensures SortedBy(ByKey, candidates) && multiset(candidates) == multiset(endpoints)
    ensures err.None? || ok ==> workload.Some? && Answer(Problem(workload.value, candidates, reserved), ok, assignments)
  {
    ByKeyIsStrictWeakOrder();
    var sorted := SortSlice(endpoints, ByKey);
    candidates := sorted;
    if workload.None? {
      return [], false, Some(NoWorkload), candidates;
    }
    var w := workload.value;
    var total := 0;
    for i := 0 to |w.ranks|
      invariant total == TotalCount(w.ranks[..i])
    {
      assert w.ranks[..i + 1][..i] == w.ranks[..i];
      total := Wrap64(total + w.ranks[i].count);
    }
    assert w.ranks[..|w.ranks|] == w.ranks;
    if |w.ranks| > limits.maxRanks || |endpoints| > limits.maxEndpoints || total > limits.maxDevices {
      return [], false, Some(ExceedsLimits), candidates;
    }
    var search := new Search(Problem(w, sorted, reserved), ctx);
    ghost var plan;
    assert search.assignments[..0] == Assignments(search.p, []);
    ok, plan := search.ChooseRank(0, []);
    assignments := search.assignments;
    var stopped := ctx.Err();
    err := if stopped then Some(Cancelled) else None;
  }

  // ---- The steps of the search, on plans ----

  lemma OnlyItself(p: Problem, done: Plan, plan: Plan)
    requires FullLayout(p, done) && FullLayout(p, plan) && ExtendsBlocks(plan, done)
    ensures plan == done
  {
  }

  lemma NotLessThanItself(plan: Plan)
    ensures !PlanLess(plan, plan)
  {
  }

  /** At the end of a branch the connectivity check settles the one plan left. */
  lemma CompletePlan(p: Problem, done: Plan, ok: bool)
    requires FullLayout(p, done)
    requires var ids := SelectedIDs(Assignments(p, done));
             if ok then MayConnect(IndexByID(p.candidates), ids) else !MustConnect(IndexByID(p.candidates), ids)
    ensures if ok then First(p, done, done) else Exhausted(p, done)
  {
    NotLessThanItself(done);
    forall plan | Solution(p, plan) && ExtendsBlocks(plan, done) ensures plan == done { OnlyItself(p, done, plan); }
    assert done[..|done|] == done;
  }

  /** No solution continues `done` on any of these nodes. */
  ghost predicate NoneOn(p: Problem, done: Plan, names: seq<string>) {
    forall n :: n in names ==> ExhaustedAt(p, done, n, [])
  }

  lemma NoneOnStep(p: Problem, done: Plan, names: seq<string>, j: nat)
    requires j < |names| && NoneOn(p, done, names[..j]) && ExhaustedAt(p, done, names[j], [])
    ensures NoneOn(p, done, names[..j + 1])
  {
  }

  /** `names` are the nodes with choices, in ascending order. */
  ghost predicate Covers(p: Problem, rank: WorkloadRank, taken: set<DeviceID>, names: seq<string>) {
    && (forall i, k :: 0 <= i < k < |names| ==> Less(names[i], names[k]))
    && (forall n :: Choices(p, rank, taken, n) != [] ==> n in names)
  }

  lemma NamesCover(p: Problem, rank: WorkloadRank, taken: set<DeviceID>, byNode: map<string, seq<FabricEndpoint>>,
                   names: seq<string>)
    requires AllGrouped(p, rank, taken, byNode, |p.candidates|)
    requires forall n :: n in names <==> n in byNode
    requires forall i, k :: 0 <= i < k < |names| ==> Less(names[i], names[k])
    ensures Covers(p, rank, taken, names)
    ensures forall n :: n in names ==> n in byNode && byNode[n] == Picks(p, Choices(p, rank, taken, n))
  {
    forall n
      ensures Choices(p, rank, taken, n) != [] ==> n in names
      ensures n in names ==> n in byNode && byNode[n] == Picks(p, Choices(p, rank, taken, n))
    {
      assert Grouped(p, rank, taken, byNode, n, |p.candidates|);
    }
  }

  lemma SolutionHasNode(p: Problem, done: Plan, plan: Plan)
    requires Layout(p, done) && |done| < |p.workload.ranks| && FullLayout(p, plan) && ExtendsBlocks(plan, done)
    ensures plan[|done|] != [] && plan[|done|][0] < |p.candidates|
    ensures ExtendsPicks(p, plan, done, p.candidates[plan[|done|][0]].nodeName, [])
    ensures Choices(p, p.workload.ranks[|done|], Taken(p, done), p.candidates[plan[|done|][0]].nodeName) != []
  {
    NextBlockIsOffered(p, done, plan);
  }

  lemma TooFewChoices(p: Problem, done: Plan, node: string)
    requires Layout(p, done) && |done| < |p.workload.ranks|
    requires |Choices(p, p.workload.ranks[|done|], Taken(p, done), node)| < Need(p.workload.ranks[|done|])
    ensures ExhaustedAt(p, done, node, [])
  {
    var pos := Choices(p, p.workload.ranks[|done|], Taken(p, done), node);
    forall plan | Solution(p, plan) ensures !ExtendsPicks(p, plan, done, node, []) {
      if ExtendsPicks(p, plan, done, node, []) {
        NextBlockIsOffered(p, done, plan);
        var t :| 0 <= t < |pos| && pos[t] == plan[|done|][0];
        TailFits(plan[|done|], pos, 0, t);
      }
    }
  }

  lemma NoNodeLeft(p: Problem, done: Plan, names: seq<string>)
    requires Layout(p, done) && |done| < |p.workload.ranks| && NoneOn(p, done, names)
    requires Covers(p, p.workload.ranks[|done|], Taken(p, done), names)
    ensures Exhausted(p, done)
  {
    forall plan | Solution(p, plan) ensures !ExtendsBlocks(plan, done) {
      if ExtendsBlocks(plan, done) {
        SolutionHasNode(p, done, plan);
      }
    }
  }

  lemma NodeOrderIsPositionOrder(p: Problem, i: nat, j: nat)
    requires SortedBy(ByKey, p.candidates) && i < |p.candidates| && j < |p.candidates|
    requires Less(p.candidates[i].nodeName, p.candidates[j].nodeName)
    ensures i < j
  {
    LessTotal(p.candidates[i].nodeName, p.candidates[j].nodeName);
    assert j < i ==> !ByKey(p.candidates[i], p.candidates[j]);
  }

  lemma FirstNodeWins(p: Problem, done: Plan, names: seq<string>, j: nat, plan: Plan)
    requires SortedBy(ByKey, p.candidates) && Layout(p, done) && |done| < |p.workload.ranks|
    requires j < |names| && NoneOn(p, done, names[..j])
    requires Covers(p, p.workload.ranks[|done|], Taken(p, done), names)
    requires FirstAt(p, done, names[j], [], plan)
    ensures First(p, done, plan)
  {
    forall other | Solution(p, other) && ExtendsBlocks(other, done) ensures !PlanLess(other, plan) {
      SolutionHasNode(p, done, other);
      var node := p.candidates[other[|done|][0]].nodeName;
      var i :| 0 <= i < |names| && names[i] == node;
      NoEarlierNode(p, done, names, j, i, other);
      if i > j {
        LaterNodeNotLess(p, done, names[j], node, plan, other);
      }
    }
  }

  lemma NoEarlierNode(p: Problem, done: Plan, names: seq<string>, j: nat, i: nat, other: Plan)
    requires j < |names| && NoneOn(p, done, names[..j]) && i < |names|
    requires Solution(p, other) && ExtendsPicks(p, other, done, names[i], [])
    ensures i >= j
  {
    assert forall k :: 0 <= k < j ==> names[k] in names[..j];
  }

  lemma LaterNodeNotLess(p: Problem, done: Plan, node: string, later: string, plan: Plan, other: Plan)
    requires SortedBy(ByKey, p.candidates) && Less(node, later)
    requires ExtendsPicks(p, plan, done, node, []) && ExtendsPicks(p, other, done, later, [])
    ensures !PlanLess(other, plan)
  {
    NodeOrderIsPositionOrder(p, plan[|done|][0], other[|done|][0]);
    LaterPickNotLess(other, plan, |done|, 0);
  }

  /** `picks` were drawn in order from `pos`, all before `start`. */
  ghost predicate Drawn(pos: Block, picks: Block, start: nat) {
    && start <= |pos| && Increasing(picks) && Increasing(pos)
    && (forall k :: 0 <= k < |picks| ==> picks[k] in pos)
    && (if picks == [] then start == 0 else start > 0 && picks[|picks| - 1] == pos[start - 1])
  }

  lemma PicksStep(p: Problem, picks: Block, pos: Block, i: nat)
    requires InRange(p, picks) && InRange(p, pos) && i < |pos|
    ensures InRange(p, picks + [pos[i]])
    ensures Picks(p, picks + [pos[i]]) == Picks(p, picks) + [Picks(p, pos)[i]]
  {
  }

  lemma DrawnStep(pos: Block, picks: Block, start: nat, i: nat)
    requires Drawn(pos, picks, start) && start <= i < |pos|
    ensures Drawn(pos, picks + [pos[i]], i + 1)
  {
  }

  /** No solution continues `picks` with one of the first `i` choices. */
  ghost predicate NoneBefore(p: Problem, done: Plan, node: string, picks: Block, i: nat)
    requires Layout(p, done) && |done| < |p.workload.ranks|
  {
    var pos := Choices(p, p.workload.ranks[|done|], Taken(p, done), node);
    forall plan, t :: Solution(p, plan) && ExtendsPicks(p, plan, done, node, picks) && 0 <= t < i && t < |pos|
                      && |picks| < |plan[|done|]|
                      ==> plan[|done|][|picks|] != pos[t]
  }

  lemma NoneBeforeStart(p: Problem, done: Plan, node: string, picks: Block, start: nat)
    requires Layout(p, done) && |done| < |p.workload.ranks|
    requires Drawn(Choices(p, p.workload.ranks[|done|], Taken(p, done), node), picks, start)
    ensures NoneBefore(p, done, node, picks, start)
  {
    var pos := Choices(p, p.workload.ranks[|done|], Taken(p, done), node);
    forall plan, t | Solution(p, plan) && ExtendsPicks(p, plan, done, node, picks) && 0 <= t < start && t < |pos|
                     && |picks| < |plan[|done|]|
      ensures plan[|done|][|picks|] != pos[t]
    {
      NextBlockIsOffered(p, done, plan);
      assert plan[|done|][|picks| - 1] == picks[|picks| - 1];
      assert t < start - 1 ==> pos[t] < pos[start - 1];
    }
  }

  lemma NoneBeforeStep(p: Problem, done: Plan, node: string, picks: Block, i: nat)
    requires Layout(p, done) && |done| < |p.workload.ranks|
    requires i < |Choices(p, p.workload.ranks[|done|], Taken(p, done), node)|
    requires NoneBefore(p, done, node, picks, i)
    requires ExhaustedAt(p, done, node, picks + [Choices(p, p.workload.ranks[|done|], Taken(p, done), node)[i]])
    ensures NoneBefore(p, done, node, picks, i + 1)
  {
  }

  lemma NoPickLeft(p: Problem, done: Plan, node: string, picks: Block, i: nat)
    requires Layout(p, done) && |done| < |p.workload.ranks|
    requires |picks| < Need(p.workload.ranks[|done|])
    requires i + (Need(p.workload.ranks[|done|]) - |picks|) >
             |Choices(p, p.workload.ranks[|done|], Taken(p, done), node)|
    requires NoneBefore(p, done, node, picks, i)
    ensures ExhaustedAt(p, done, node, picks)
  {
    var pos := Choices(p, p.workload.ranks[|done|], Taken(p, done), node);
    forall plan | Solution(p, plan) ensures !ExtendsPicks(p, plan, done, node, picks) {
      if ExtendsPicks(p, plan, done, node, picks) {
        NextBlockIsOffered(p, done, plan);
        var t :| 0 <= t < |pos| && pos[t] == plan[|done|][|picks|];
        TailFits(plan[|done|], pos, |picks|, t);
      }
    }
  }

  lemma FirstPickWins(p: Problem, done: Plan, node: string, picks: Block, i: nat, plan: Plan)
    requires Layout(p, done) && |done| < |p.workload.ranks|
    requires |picks| < Need(p.workload.ranks[|done|])
    requires i < |Choices(p, p.workload.ranks[|done|], Taken(p, done), node)|
    requires NoneBefore(p, done, node, picks, i)
    requires FirstAt(p, done, node, picks + [Choices(p, p.workload.ranks[|done|], Taken(p, done), node)[i]], plan)
    ensures FirstAt(p, done, node, picks, plan)
  {
    var pos := Choices(p, p.workload.ranks[|done|], Taken(p, done), node);
    PickThrough(plan[|done|], picks, pos[i]);
    forall other | Solution(p, other) && ExtendsPicks(p, other, done, node, picks) ensures !PlanLess(other, plan) {
      NoEarlierPick(p, done, node, picks, i, plan, other);
    }
  }

  lemma PickThrough(b: Block, picks: Block, x: nat)
    requires picks + [x] <= b
    ensures picks <= b && |picks| < |b| && b[|picks|] == x && b[..|picks|] == picks
  {
  }

  lemma NoEarlierPick(p: Problem, done: Plan, node: string, picks: Block, i: nat, plan: Plan, other: Plan)
    requires Layout(p, done) && |done| < |p.workload.ranks|
    requires |picks| < Need(p.workload.ranks[|done|])
    requires i < |Choices(p, p.workload.ranks[|done|], Taken(p, done), node)|
    requires NoneBefore(p, done, node, picks, i)
    requires FirstAt(p, done, node, picks + [Choices(p, p.workload.ranks[|done|], Taken(p, done), node)[i]], plan)
    requires Solution(p, other) && ExtendsPicks(p, other, done, node, picks)
    ensures !PlanLess(other, plan)
  {
    var pos := Choices(p, p.workload.ranks[|done|], Taken(p, done), node);
    var n, m := |done|, |picks|;
    PickThrough(plan[n], picks, pos[i]);
    var t := NextPick(p, done, node, picks, i, other);
    if t == i {
      SamePick(other[n], picks, pos[i]);
    } else {
      LaterPickNotLess(other, plan, n, m);
    }
  }

  lemma SamePick(b: Block, picks: Block, x: nat)
    requires |picks| < |b| && b[..|picks|] == picks && b[|picks|] == x
    ensures picks + [x] <= b
  {
  }

  /** The next pick of a solution is one of the choices from `i` on. */
  lemma NextPick(p: Problem, done: Plan, node: string, picks: Block, i: nat, other: Plan) returns (t: nat)
    requires Layout(p, done) && |done| < |p.workload.ranks|
    requires |picks| < Need(p.workload.ranks[|done|])
    requires NoneBefore(p, done, node, picks, i)
    requires Solution(p, other) && ExtendsPicks(p, other, done, node, picks)
    ensures i <= t < |Choices(p, p.workload.ranks[|done|], Taken(p, done), node)|
    ensures |picks| < |other[|done|]| && other[|done|][..|picks|] == picks
    ensures other[|done|][|picks|] == Choices(p, p.workload.ranks[|done|], Taken(p, done), node)[t]
  {
    var pos := Choices(p, p.workload.ranks[|done|], Taken(p, done), node);
    NextBlockIsOffered(p, done, other);
    t :| 0 <= t < |pos| && pos[t] == other[|done|][|picks|];
  }

  lemma AssignmentIDs(p: Problem, picks: Block, a: RankAssignment)
    requires InRange(p, picks)
    requires |a.devices| == |picks| && forall k :: 0 <= k < |picks| ==> a.devices[k] == Assigned(p.candidates[picks[k]])
    ensures DeviceIDs(a) == BlockIDs(p, picks)
  {
  }

  /** A full block of picks leaves only its own continuations. */
  lemma BlockComplete(p: Problem, done: Plan, node: string, picks: Block)
    requires Layout(p, done + [picks]) && |done| < |p.workload.ranks| && |picks| == Need(p.workload.ranks[|done|])
    ensures forall plan :: FullLayout(p, plan) && ExtendsPicks(p, plan, done, node, picks) ==>
              ExtendsBlocks(plan, done + [picks])
  {
    forall plan | FullLayout(p, plan) && ExtendsPicks(p, plan, done, node, picks)
      ensures ExtendsBlocks(plan, done + [picks]) {
      assert BlockOk(p, p.workload.ranks[|done|], plan[|done|]);
      assert picks == plan[|done|][..|picks|] == plan[|done|];
      assert plan[..|done| + 1] == plan[..|done|] + [plan[|done|]];
    }
  }

  lemma PlanGoesThrough(p: Problem, done: Plan, node: string, picks: Block, plan: Plan)
    requires Layout(p, done) && |done| < |p.workload.ranks| && picks != [] && InRange(p, picks)
    requires p.candidates[picks[0]].nodeName == node
    requires First(p, done + [picks], plan)
    requires forall q :: FullLayout(p, q) && ExtendsPicks(p, q, done, node, picks) ==> ExtendsBlocks(q, done + [picks])
    ensures FirstAt(p, done, node, picks, plan)
  {
    var n := |done|;
    assert plan[..n + 1] == done + [picks];
    assert plan[n] == plan[..n + 1][n] == picks;
    assert plan[..n] == plan[..n + 1][..n] == done;
  }
}
