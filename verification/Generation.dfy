/** Pinning an assignment to the part of the fabric it lies in. */
module Generation {
  import opened Ordering
  import opened Api
  import opened Connectivity
  import opened Topology

  function Relevant(eps: seq<FabricEndpoint>, ring: WorkloadTopology): seq<FabricEndpoint> {
    if eps == [] then []
    else
      var last := eps[|eps| - 1];
      Relevant(eps[..|eps| - 1], ring) + if MatchesTopology(ring, last) then [last] else []
  }

  /** The ring a workload is judged by: the requested one, else that of its first selected endpoint. */
  function RingOf(eps: seq<FabricEndpoint>, requested: WorkloadTopology, ids: set<string>): WorkloadTopology {
    if requested != WorkloadTopology("", "") || eps == [] then requested
    else if eps[0].endpointID in ids then WorkloadTopology(eps[0].fabricID, eps[0].ringID)
    else RingOf(eps[1..], requested, ids)
  }

  /** `WorkloadGeneration`. */
  method WorkloadGeneration(endpoints: seq<FabricEndpoint>, requested: WorkloadTopology,
                            assignments: seq<RankAssignment>)
    returns (generation: Digest)
    ensures generation == Digest(Relevant(endpoints, RingOf(endpoints, requested, SelectedIDs(assignments))))
  {
    var ring := requested;
    var selected := CollectIDs(assignments);
    if ring.fabricID == "" && ring.ringID == "" && |selected| > 0 {
      for i := 0 to |endpoints|
        invariant ring == requested
        invariant RingOf(endpoints, requested, selected) == RingOf(endpoints[i..], requested, selected)
      {
        if endpoints[i].endpointID in selected {
          ring := WorkloadTopology(endpoints[i].fabricID, endpoints[i].ringID);
          break;
        }
        assert endpoints[i..][1..] == endpoints[i + 1..];
      }
    } else {
      NoSelectionKeepsRequest(endpoints, requested, selected);
    }
    var relevant := [];
    for i := 0 to |endpoints|
      invariant relevant == Relevant(endpoints[..i], ring)
    {
      assert endpoints[..i + 1][..i] == endpoints[..i];
      var e := endpoints[i];
      if (ring.fabricID != "" && e.fabricID != ring.fabricID) || (ring.ringID != "" && e.ringID != ring.ringID) {
        continue;
      }
      relevant := relevant + [e];
    }
    assert endpoints[..|endpoints|] == endpoints;
    generation := Digest(relevant);
  }

  lemma {:induction false} NoSelectionKeepsRequest(eps: seq<FabricEndpoint>, requested: WorkloadTopology,
                                                   ids: set<string>)
    requires requested != WorkloadTopology("", "") || |ids| == 0
    ensures RingOf(eps, requested, ids) == requested
  {
    if requested == WorkloadTopology("", "") && eps != [] {
      NoSelectionKeepsRequest(eps[1..], requested, ids);
    }
  }

  lemma {:induction false} RelevantMembers(eps: seq<FabricEndpoint>, ring: WorkloadTopology)
    ensures forall e :: e in Relevant(eps, ring) <==> e in eps && MatchesTopology(ring, e)
  {
    if eps != [] {
      RelevantMembers(eps[..|eps| - 1], ring);
      assert eps == eps[..|eps| - 1] + [eps[|eps| - 1]];
    }
  }

  lemma {:induction false} RelevantCanonical(eps: seq<FabricEndpoint>, ring: WorkloadTopology)
    requires Canonical(eps)
    ensures Canonical(Relevant(eps, ring))
  {
    if eps != [] {
      var init, last := eps[..|eps| - 1], eps[|eps| - 1];
      assert eps == init + [last];
      RelevantCanonical(init, ring);
      RelevantMembers(init, ring);
      forall e | e in Relevant(init, ring)
        ensures e.endpointID != "" && e.endpointID != last.endpointID && !ByEndpointID(last, e) {
        var i :| 0 <= i < |init| && init[i] == e;
        assert eps[i] == e;
      }
    }
  }

  function RingFor(requested: WorkloadTopology, e: FabricEndpoint): WorkloadTopology {
    if requested != WorkloadTopology("", "") then requested else WorkloadTopology(e.fabricID, e.ringID)
  }

  /** Where every selected endpoint lies in one ring, `RingOf` names that ring, unless another was requested. */
  lemma {:induction false} RingOfSelected(eps: seq<FabricEndpoint>, requested: WorkloadTopology, ids: set<string>,
                                          e: FabricEndpoint)
    requires e in eps && e.endpointID in ids
    requires forall f :: f in eps && f.endpointID in ids ==> f.fabricID == e.fabricID && f.ringID == e.ringID
    ensures RingOf(eps, requested, ids) == RingFor(requested, e)
  {
    if requested == WorkloadTopology("", "") && eps[0].endpointID !in ids {
      assert eps == [eps[0]] + eps[1..];
      RingOfSelected(eps[1..], requested, ids, e);
    }
  }

  lemma AgreeingIndexesConnectAlike(ix: Index, jx: Index, ids: set<string>)
    requires forall id :: id in ids ==> id in ix && id in jx && ix[id] == jx[id]
    ensures ConnectedSubgraph(ix, ids) <==> ConnectedSubgraph(jx, ids)
    ensures MustConnect(ix, ids) <==> MustConnect(jx, ids)
  {
    assert forall a, b :: a in ids ==> (Linked(ix, a, b) <==> Linked(jx, a, b));
    forall p ensures IsPath(ix, ids, p) <==> IsPath(jx, ids, p) {}
    forall a, b ensures Reaches(ix, ids, a, b) <==> Reaches(jx, ids, a, b) {
      if p :| PathBetween(ix, ids, a, b, p) { assert PathBetween(jx, ids, a, b, p); }
      if p :| PathBetween(jx, ids, a, b, p) { assert PathBetween(ix, ids, a, b, p); }
    }
    forall part | {} < part < ids ensures CutByLink(ix, part, ids - part) <==> CutByLink(jx, part, ids - part) {}
  }

  /** The selected endpoints are present, in one ring, and in the requested one. */
  ghost predicate Placed(eps: seq<FabricEndpoint>, requested: WorkloadTopology, ids: set<string>) {
    && ids != {} && ids <= IndexByID(eps).Keys && SameRing(IndexByID(eps), ids)
    && forall id :: id in ids ==> MatchesTopology(requested, IndexByID(eps)[id])
  }

  lemma PlacedRing(eps: seq<FabricEndpoint>, requested: WorkloadTopology, ids: set<string>)
    requires UniqueIDs(eps) && Placed(eps, requested, ids)
    ensures forall id :: id in ids ==> MatchesTopology(RingOf(eps, requested, ids), IndexByID(eps)[id])
    ensures forall id :: id in ids ==> RingOf(eps, requested, ids) == RingFor(requested, IndexByID(eps)[id])
  {
    IndexKeys(eps);
    forall id | id in ids ensures RingOf(eps, requested, ids) == RingFor(requested, IndexByID(eps)[id]) {
      forall f | f in eps && f.endpointID in ids
        ensures f.fabricID == IndexByID(eps)[id].fabricID && f.ringID == IndexByID(eps)[id].ringID
      {
        IndexUnique(eps, f);
      }
      RingOfSelected(eps, requested, ids, IndexByID(eps)[id]);
    }
  }

  /** If the relevant part of `eps` is still relevant in `later`, the selected endpoints are unchanged there. */
  lemma SelectedSurvive(eps: seq<FabricEndpoint>, later: seq<FabricEndpoint>, requested: WorkloadTopology,
                        ids: set<string>)
    requires UniqueIDs(eps) && UniqueIDs(later) && Placed(eps, requested, ids)
    requires forall e :: e in Relevant(eps, RingOf(eps, requested, ids)) ==> e in later
    ensures forall id :: id in ids ==> id in IndexByID(later) && IndexByID(later)[id] == IndexByID(eps)[id]
    ensures Placed(later, requested, ids)
    ensures RingOf(later, requested, ids) == RingOf(eps, requested, ids)
  {
    IndexKeys(eps);
    PlacedRing(eps, requested, ids);
    RelevantMembers(eps, RingOf(eps, requested, ids));
    forall id | id in ids ensures id in IndexByID(later) && IndexByID(later)[id] == IndexByID(eps)[id] {
      IndexUnique(later, IndexByID(eps)[id]);
    }
    PlacedRing(later, requested, ids);
    var id :| id in ids;
  }

  /** An unchanged generation keeps a connected assignment connected. */
  lemma GenerationPins(eps: seq<FabricEndpoint>, later: seq<FabricEndpoint>, requested: WorkloadTopology,
                       ids: set<string>)
    requires UniqueIDs(eps) && UniqueIDs(later) && Placed(eps, requested, ids)
    requires Relevant(eps, RingOf(eps, requested, ids)) == Relevant(later, RingOf(later, requested, ids))
    ensures ConnectedSubgraph(IndexByID(later), ids) <==> ConnectedSubgraph(IndexByID(eps), ids)
    ensures MustConnect(IndexByID(later), ids) <==> MustConnect(IndexByID(eps), ids)
    ensures forall id :: id in ids ==> id in IndexByID(later) && IndexByID(later)[id] == IndexByID(eps)[id]
  {
    RelevantMembers(later, RingOf(later, requested, ids));
    SelectedSurvive(eps, later, requested, ids);
    AgreeingIndexesConnectAlike(IndexByID(eps), IndexByID(later), ids);
  }

  /** The generation moves exactly when some endpoint of the relevant ring appears, vanishes or changes. */
  lemma GenerationIgnoresOtherRings(eps: seq<FabricEndpoint>, later: seq<FabricEndpoint>, requested: WorkloadTopology,
                                    ids: set<string>)
    requires Canonical(eps) && Canonical(later) && Placed(eps, requested, ids)
    ensures Relevant(eps, RingOf(eps, requested, ids)) == Relevant(later, RingOf(later, requested, ids))
       <==> forall e :: MatchesTopology(RingOf(eps, requested, ids), e) ==> (e in eps <==> e in later)
  {
    var ring := RingOf(eps, requested, ids);
    RelevantMembers(eps, ring);
    RelevantMembers(later, ring);
    RelevantMembers(later, RingOf(later, requested, ids));
    if Relevant(eps, ring) == Relevant(later, RingOf(later, requested, ids)) {
      SelectedSurvive(eps, later, requested, ids);
    } else if forall e :: MatchesTopology(ring, e) ==> (e in eps <==> e in later) {
      SelectedSurvive(eps, later, requested, ids);
      RelevantCanonical(eps, ring);
      RelevantCanonical(later, ring);
      SameMembersSameSequence(Relevant(eps, ring), Relevant(later, ring));
      assert false;
    }
  }

  lemma SameMembersSameSequence(a: seq<FabricEndpoint>, b: seq<FabricEndpoint>)
    requires Canonical(a) && Canonical(b) && forall e :: e in a <==> e in b
    ensures a == b
  {
    forall e ensures multiset(a)[e] == multiset(b)[e] {
      OnceOnly(a, e);
      OnceOnly(b, e);
    }
    assert multiset(a) == multiset(b);
    ByEndpointIDIsStrictWeakOrder();
    UniqueIDsAreDistinct(a);
    SortUnique(ByEndpointID, a, b);
  }

  lemma {:induction false} OnceOnly(s: seq<FabricEndpoint>, e: FabricEndpoint)
    requires UniqueIDs(s)
    ensures multiset(s)[e] == if e in s then 1 else 0
  {
    if s != [] {
      var init, last := s[..|s| - 1], s[|s| - 1];
      assert s == init + [last];
      OnceOnly(init, e);
    }
  }
}
