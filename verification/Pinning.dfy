/** A workload pinned to its generation stays connected as long as the generation stands. */
module Pinning {
  import opened Ordering
  import opened Api
  import opened Connectivity
  import opened Topology
  import opened Generation
  import opened Placement
  import opened Solver
  import opened PlacementTheorems
  import opened Reconcile

  /** The assignment was found by the solver on the fabric, around what was reserved. */
  ghost predicate Solved(w: Workload, endpoints: seq<FabricEndpoint>, used: set<DeviceID>, a: seq<RankAssignment>) {
    exists candidates :: SolvedOver(w, endpoints, used, a, candidates)
  }

  ghost predicate SolvedOver(w: Workload, endpoints: seq<FabricEndpoint>, used: set<DeviceID>, a: seq<RankAssignment>,
                             candidates: seq<FabricEndpoint>) {
    && SortedBy(ByKey, candidates) && multiset(candidates) == multiset(endpoints)
    && Answer(Problem(w, candidates, used), true, a)
  }

  lemma SolvedAvoidsUsed(w: Workload, endpoints: seq<FabricEndpoint>, used: set<DeviceID>, a: seq<RankAssignment>)
    requires Solved(w, endpoints, used, a)
    ensures Devices(a) !! used
  {
    var candidates :| SolvedOver(w, endpoints, used, a, candidates);
    var p := Problem(w, candidates, used);
    var plan :| First(p, [], plan) && a == Assignments(p, plan);
    forall x, d | x in a && d in x.devices ensures DeviceID(d.pool, d.name) !in used {
      var rank, e := DeviceOrigin(p, plan, x, d);
    }
  }

  lemma IndexPermutation(a: seq<FabricEndpoint>, b: seq<FabricEndpoint>)
    requires multiset(a) == multiset(b) && UniqueIDs(a)
    ensures IndexByID(a) == IndexByID(b)
  {
    PermutationKeepsSoundness(a, b);
    IndexKeys(a);
    IndexKeys(b);
    forall id | id in IndexByID(a) ensures id in IndexByID(b) && IndexByID(b)[id] == IndexByID(a)[id] {
      IndexUnique(b, IndexByID(a)[id]);
    }
    forall id | id in IndexByID(b) ensures id in IndexByID(a) {
      IndexUnique(a, IndexByID(b)[id]);
    }
  }

  /** Every selected endpoint is a candidate that fits the requested topology. */
  lemma SelectedFits(p: Problem, plan: Plan, id: string)
    requires MaySolve(p, plan) && UniqueIDs(p.candidates) && id in SelectedIDs(Assignments(p, plan))
    ensures id in IndexByID(p.candidates) && MatchesTopology(p.workload.topology, IndexByID(p.candidates)[id])
  {
    var a, d :| a in Assignments(p, plan) && d in a.devices && d.endpointID == id;
    var rank, e := DeviceOrigin(p, plan, a, d);
    IndexUnique(p.candidates, e);
  }

  /** A solved assignment lies in one ring of the fabric, the requested one, and is connected there. */
  lemma SolvedIsPlaced(w: Workload, endpoints: seq<FabricEndpoint>, used: set<DeviceID>, a: seq<RankAssignment>)
    requires Canonical(endpoints) && LinksSound(endpoints) && Solved(w, endpoints, used, a)
    ensures Placed(endpoints, w.topology, SelectedIDs(a))
    ensures ConnectedSubgraph(IndexByID(endpoints), SelectedIDs(a))
  {
    var candidates :| SolvedOver(w, endpoints, used, a, candidates);
    var p := Problem(w, candidates, used);
    IndexPermutation(endpoints, candidates);
    PermutationKeepsSoundness(endpoints, candidates);
    var plan :| First(p, [], plan) && a == Assignments(p, plan);
    AcceptedIsSolution(p, endpoints, plan);
    forall id | id in SelectedIDs(a)
      ensures MatchesTopology(w.topology, IndexByID(endpoints)[id])
    {
      SelectedFits(p, plan, id);
    }
  }

  /** While the recorded generation still matches, the frozen assignment is still connected. */
  lemma PinnedStaysConnected(w: Workload, endpoints: seq<FabricEndpoint>, later: seq<FabricEndpoint>,
                             used: set<DeviceID>, a: seq<RankAssignment>)
    requires Canonical(endpoints) && LinksSound(endpoints) && Solved(w, endpoints, used, a) && UniqueIDs(later)
    requires Relevant(endpoints, RingOf(endpoints, w.topology, SelectedIDs(a))) ==
             Relevant(later, RingOf(later, w.topology, SelectedIDs(a)))
    ensures ConnectedSubgraph(IndexByID(later), SelectedIDs(a))
  {
    SolvedIsPlaced(w, endpoints, used, a);
    GenerationPins(endpoints, later, w.topology, SelectedIDs(a));
  }
}
