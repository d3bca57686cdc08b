/** The link graph over endpoint IDs and the breadth-first check that ends each placement branch. */
module Connectivity {
  import opened Api

  type Index = map<string, FabricEndpoint>

  /** The `byID` map: a later endpoint replaces an earlier one with the same ID. */
  function IndexByID(eps: seq<FabricEndpoint>): Index {
    if eps == [] then map[]
    else IndexByID(eps[..|eps| - 1])[eps[|eps| - 1].endpointID := eps[|eps| - 1]]
  }

  predicate LinkTo(link: Link, id: string) { link.state == "up" && link.remoteEndpointID == id }

  predicate Linked(ix: Index, a: string, b: string) {
    a in ix && exists i :: 0 <= i < |ix[a].links| && LinkTo(ix[a].links[i], b)
  }

  ghost predicate IsPath(ix: Index, ids: set<string>, p: seq<string>) {
    && p != []
    && (forall i :: 0 <= i < |p| ==> p[i] in ids)
    && (forall i :: 0 <= i < |p| - 1 ==> Linked(ix, p[i], p[i + 1]))
  }

  ghost predicate PathBetween(ix: Index, ids: set<string>, a: string, b: string, p: seq<string>) {
    IsPath(ix, ids, p) && p[0] == a && p[|p| - 1] == b
  }

  ghost predicate Reaches(ix: Index, ids: set<string>, a: string, b: string) {
    exists p :: PathBetween(ix, ids, a, b, p)
  }

  ghost predicate ReachesAll(ix: Index, ids: set<string>, root: string) {
    forall id :: id in ids ==> Reaches(ix, ids, root, id)
  }

  predicate SameRing(ix: Index, ids: set<string>)
    requires ids <= ix.Keys
  {
    forall a, b :: a in ids && b in ids ==> ix[a].fabricID == ix[b].fabricID && ix[a].ringID == ix[b].ringID
  }

  /** Holds whichever endpoint the search starts from. */
  ghost predicate MustConnect(ix: Index, ids: set<string>) {
    ids != {} && ids <= ix.Keys && SameRing(ix, ids) && forall root :: root in ids ==> ReachesAll(ix, ids, root)
  }

  /** Holds for some start; the ring test is blind to an endpoint whose ID is empty. */
  ghost predicate MayConnect(ix: Index, ids: set<string>) {
    && ids != {} && ids <= ix.Keys && ("" !in ids ==> SameRing(ix, ids))
    && exists root :: root in ids && ReachesAll(ix, ids, root)
  }

  /** The reference notion: one ring, and every way of splitting the set in two cuts an up link. */
  ghost predicate ConnectedSubgraph(ix: Index, ids: set<string>) {
    && ids != {} && ids <= ix.Keys && SameRing(ix, ids)
    && forall part :: {} < part < ids ==> CutByLink(ix, part, ids - part)
  }

  ghost predicate CutByLink(ix: Index, part: set<string>, rest: set<string>) {
    exists a, b :: a in part && b in rest && (Linked(ix, a, b) || Linked(ix, b, a))
  }

  function SelectedIDs(assignments: seq<RankAssignment>): set<string> {
    set a, d | a in assignments && d in a.devices :: d.endpointID
  }

  // ---- Paths ----

  lemma PathStep(ix: Index, ids: set<string>, a: string, b: string, c: string)
    requires Reaches(ix, ids, a, b) && Linked(ix, b, c) && c in ids
    ensures Reaches(ix, ids, a, c)
  {
    var p :| PathBetween(ix, ids, a, b, p);
    assert PathBetween(ix, ids, a, c, p + [c]);
  }

  lemma {:induction false} PathStaysInside(ix: Index, ids: set<string>, inside: set<string>, p: seq<string>)
    requires IsPath(ix, ids, p) && p[0] in inside
    requires forall a, b :: a in inside && b in ids && Linked(ix, a, b) ==> b in inside
    ensures p[|p| - 1] in inside
  {
    if |p| > 1 {
      PathStaysInside(ix, ids, inside, p[1..]);
    }
  }

  lemma ClosedContainsReached(ix: Index, ids: set<string>, inside: set<string>, root: string)
    requires root in inside
    requires forall a, b :: a in inside && b in ids && Linked(ix, a, b) ==> b in inside
    ensures forall id :: Reaches(ix, ids, root, id) ==> id in inside
  {
    forall id | Reaches(ix, ids, root, id) ensures id in inside {
      var p :| PathBetween(ix, ids, root, id, p);
      PathStaysInside(ix, ids, inside, p);
    }
  }

  // ---- The search ----

  method CollectIDs(assignments: seq<RankAssignment>) returns (ids: set<string>)
    ensures ids == SelectedIDs(assignments)
  {
    ids := {};
    for i := 0 to |assignments|
      invariant ids == SelectedIDs(assignments[..i])
    {
      var devices := assignments[i].devices;
      for j := 0 to |devices|
        invariant ids == SelectedIDs(assignments[..i]) + set d | d in devices[..j] :: d.endpointID
      {
        ids := ids + {devices[j].endpointID};
        assert devices[..j + 1] == devices[..j] + [devices[j]];
      }
      assert devices[..|devices|] == devices;
      assert assignments[..i + 1] == assignments[..i] + [assignments[i]];
    }
    assert assignments[..|assignments|] == assignments;
  }

  method BuildIndex(eps: seq<FabricEndpoint>) returns (ix: Index)
    ensures ix == IndexByID(eps)
  {
    ix := map[];
    for i := 0 to |eps|
      invariant ix == IndexByID(eps[..i])
    {
      ix := ix[eps[i].endpointID := eps[i]];
      assert eps[..i + 1][..i] == eps[..i];
    }
    assert eps[..|eps|] == eps;
  }

  /** Visits the selected IDs in no particular order; an empty `start` is the "not yet set" sentinel. */
  method PickStart(ix: Index, ids: set<string>) returns (ok: bool, start: string)
    requires ids != {}
    ensures ok ==> start in ids && ids <= ix.Keys && ("" !in ids ==> SameRing(ix, ids))
    ensures !ok ==> !(ids <= ix.Keys) || !SameRing(ix, ids)
  {
    var fabricID, ringID := "", "";
    start := "";
    var rest := ids;
    while rest != {}
      invariant rest <= ids && ids - rest <= ix.Keys
      invariant start == "" ==> ids - rest <= {""}
      invariant start != "" ==> start in ids - rest && fabricID == ix[start].fabricID && ringID == ix[start].ringID
      invariant "" !in ids ==> forall a :: a in ids - rest ==> ix[a].fabricID == fabricID && ix[a].ringID == ringID
      decreases rest
    {
      var id :| id in rest;
      assert "" !in ids && start == "" ==> ids - rest == {};
      assert ids - (rest - {id}) == (ids - rest) + {id};
      rest := rest - {id};
      if id !in ix {
        return false, start;
      }
      if start == "" {
        start, fabricID, ringID := id, ix[id].fabricID, ix[id].ringID;
      }
      if ix[id].fabricID != fabricID || ix[id].ringID != ringID {
        return false, start;
      }
    }
    assert ids - rest == ids;
    ok := true;
  }

  /** Closed: every neighbour of a visited endpoint outside `frontier` is visited. */
  ghost predicate Explored(ix: Index, ids: set<string>, seen: set<string>, frontier: seq<string>) {
    forall a, b :: a in seen && a !in frontier && b in ids && Linked(ix, a, b) ==> b in seen
  }

  method Search(ix: Index, ids: set<string>, start: string) returns (seen: set<string>)
    requires start in ids && ids <= ix.Keys
    ensures seen <= ids
    ensures forall id :: id in ids ==> (id in seen <==> Reaches(ix, ids, start, id))
  {
    seen := {start};
    var queue := [start];
    assert PathBetween(ix, ids, start, start, [start]);
    while queue != []
      invariant start in seen && seen <= ids
      invariant forall id :: id in queue ==> id in seen
      invariant forall id :: id in seen ==> Reaches(ix, ids, start, id)
      invariant Explored(ix, ids, seen, queue)
      decreases |ids - seen|, |queue|
    {
      var id := queue[0];
      seen, queue := Expand(ix, ids, start, id, seen, queue[1..]);
    }
    ClosedContainsReached(ix, ids, seen, start);
  }

  /** Pushes the unvisited neighbours of one popped endpoint. */
  method Expand(ix: Index, ids: set<string>, ghost start: string, id: string, seen0: set<string>, queue0: seq<string>)
    returns (seen: set<string>, queue: seq<string>)
    requires id in seen0 && seen0 <= ids <= ix.Keys
    requires forall q :: q in queue0 ==> q in seen0
    requires forall q :: q in seen0 ==> Reaches(ix, ids, start, q)
    requires Explored(ix, ids, seen0, [id] + queue0)
    ensures seen0 <= seen <= ids
    ensures forall q :: q in queue ==> q in seen
    ensures forall q :: q in seen ==> Reaches(ix, ids, start, q)
    ensures Explored(ix, ids, seen, queue)
    ensures (seen == seen0 && queue == queue0) || |ids - seen| < |ids - seen0|
  {
    seen, queue := seen0, queue0;
    var links := ix[id].links;
    for i := 0 to |links|
      invariant seen0 <= seen <= ids
      invariant forall q :: q in queue ==> q in seen
      invariant forall q :: q in seen ==> Reaches(ix, ids, start, q)
      invariant forall j, b :: 0 <= j < i && b in ids && LinkTo(links[j], b) ==> b in seen
      invariant forall q :: q in seen ==> q in seen0 || q in queue
      invariant forall q :: q in queue0 ==> q in queue
      invariant (seen == seen0 && queue == queue0) || seen0 < seen
    {
      var link := links[i];
      if link.state == "up" && link.remoteEndpointID in ids && link.remoteEndpointID !in seen {
        assert LinkTo(ix[id].links[i], link.remoteEndpointID);
        PathStep(ix, ids, start, id, link.remoteEndpointID);
        seen := seen + {link.remoteEndpointID};
        queue := queue + [link.remoteEndpointID];
      }
    }
    if seen0 < seen {
      StrictSubsetShrinks(ids, seen0, seen);
    }
  }

  lemma StrictSubsetShrinks<T>(all: set<T>, small: set<T>, large: set<T>)
    requires small < large <= all
    ensures |all - large| < |all - small|
  {
    var x :| x in large && x !in small;
    SubsetCard(all - large + {x}, all - small);
  }

  lemma {:induction false} SubsetCard<T>(a: set<T>, b: set<T>)
    requires a <= b
    ensures |a| <= |b|
    ensures |a| == |b| ==> a == b
  {
    if a != {} {
      var x :| x in a;
      SubsetCard(a - {x}, b - {x});
    }
  }

  /** `connected`: sandwiched between the start-independent and the start-dependent notion on every input. */
  method Connected(assignments: seq<RankAssignment>, endpoints: seq<FabricEndpoint>) returns (ok: bool)
    ensures ok ==> MayConnect(IndexByID(endpoints), SelectedIDs(assignments))
    ensures !ok ==> !MustConnect(IndexByID(endpoints), SelectedIDs(assignments))
  {
    var ids := CollectIDs(assignments);
    if |ids| == 0 {
      return false;
    }
    var ix := BuildIndex(endpoints);
    var start;
    ok, start := PickStart(ix, ids);
    if !ok {
      return;
    }
    var seen := Search(ix, ids, start);
    SubsetCard(seen, ids);
    ok := |seen| == |ids|;
    assert ReachesAll(ix, ids, start) <==> seen == ids;
  }

  // ---- Reciprocal links make the start irrelevant ----

  ghost predicate Reciprocal(ix: Index, ids: set<string>) {
    forall a, b :: a in ids && b in ids && Linked(ix, a, b) ==> Linked(ix, b, a)
  }

  lemma ReachedFromRootIsConnected(ix: Index, ids: set<string>, root: string)
    requires root in ids && ids <= ix.Keys && SameRing(ix, ids) && ReachesAll(ix, ids, root)
    ensures ConnectedSubgraph(ix, ids)
  {
    forall part | {} < part < ids ensures CutByLink(ix, part, ids - part) {
      if !CutByLink(ix, part, ids - part) {
        var x :| x in part;
        var y :| y in ids && y !in part;
        var inside := if root in part then part else ids - part;
        assert Reaches(ix, ids, root, x) && Reaches(ix, ids, root, y);
        ClosedContainsReached(ix, ids, inside, root);
      }
    }
  }

  lemma ConnectedReachesAll(ix: Index, ids: set<string>, root: string)
    requires ConnectedSubgraph(ix, ids) && Reciprocal(ix, ids) && root in ids
    ensures ReachesAll(ix, ids, root)
  {
    var part := set id | id in ids && Reaches(ix, ids, root, id);
    assert root in part by {
      assert PathBetween(ix, ids, root, root, [root]);
    }
    if part != ids {
      var a, b :| a in part && b in ids - part && (Linked(ix, a, b) || Linked(ix, b, a));
      PathStep(ix, ids, root, a, b);
      assert false;
    }
  }

  /** Over reciprocal links the search decides connectedness, whichever endpoint it starts from. */
  lemma ConnectedIffSubgraph(ix: Index, ids: set<string>)
    requires Reciprocal(ix, ids) && "" !in ids
    ensures MustConnect(ix, ids) <==> ConnectedSubgraph(ix, ids)
    ensures MayConnect(ix, ids) <==> ConnectedSubgraph(ix, ids)
  {
    if MayConnect(ix, ids) {
      var root :| root in ids && ReachesAll(ix, ids, root);
      ReachedFromRootIsConnected(ix, ids, root);
    }
    if MustConnect(ix, ids) {
      var root :| root in ids;
      ReachedFromRootIsConnected(ix, ids, root);
    }
    if ConnectedSubgraph(ix, ids) {
      forall root | root in ids ensures ReachesAll(ix, ids, root) {
        ConnectedReachesAll(ix, ids, root);
      }
      var root :| root in ids;
    }
  }

  /** Without reciprocity the start decides: one link from "a" to "b" connects them from "a" only. */
  lemma StartMattersWithoutReciprocity(ix: Index)
    requires ix.Keys == {"a", "b"} && SameRing(ix, {"a", "b"})
    requires ix["a"].links == [Link("eth0", "up", 0, "b")] && ix["b"].links == []
    ensures MayConnect(ix, {"a", "b"}) && !MustConnect(ix, {"a", "b"})
  {
    var ids := {"a", "b"};
    assert LinkTo(ix["a"].links[0], "b");
    assert PathBetween(ix, ids, "a", "a", ["a"]) && PathBetween(ix, ids, "a", "b", ["a", "b"]);
    assert ReachesAll(ix, ids, "a");
    assert forall c :: !Linked(ix, "b", c);
    ClosedContainsReached(ix, ids, {"b"}, "b");
    assert !Reaches(ix, ids, "b", "a");
  }

  // ---- The index ----

  lemma {:induction false} IndexKeys(eps: seq<FabricEndpoint>)
    ensures forall id :: id in IndexByID(eps) ==> IndexByID(eps)[id] in eps && IndexByID(eps)[id].endpointID == id
    ensures forall e :: e in eps ==> e.endpointID in IndexByID(eps)
  {
    if eps != [] {
      IndexKeys(eps[..|eps| - 1]);
      assert eps == eps[..|eps| - 1] + [eps[|eps| - 1]];
    }
  }

  lemma IndexUnique(eps: seq<FabricEndpoint>, e: FabricEndpoint)
    requires UniqueIDs(eps) && e in eps
    ensures e.endpointID in IndexByID(eps) && IndexByID(eps)[e.endpointID] == e
  {
  }
}
