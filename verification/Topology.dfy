/** Merging node observations into one validated fabric graph. */
module Topology {
  import opened Ordering
  import opened Api
  import opened Connectivity

  const MAX_NODES := 256
  const MAX_ENDPOINTS := 2048
  const MAX_FABRICS := 256

  datatype TopologyDevice = TopologyDevice(
    pool: string, name: string, stableID: string, chipSeries: string,
    fabricID: string, ringID: string, endpointID: string, links: seq<Link>)

  datatype NodeTopology = NodeTopology(nodeName: string, observedAt: int, devices: seq<TopologyDevice>)

  datatype FabricError =
    | TooManyNodes(count: nat)
    | Stale(nodeName: string)
    | IncompleteIdentity(id: string)
    | DuplicateEndpoint(id: string)
    | TooManyEndpoints
    | TooManyFabrics(count: nat)
    | MissingPeer(id: string, peer: string)
    | CrossesRing(id: string)
    | NotReciprocal(id: string, peer: string)

  /** The truncated SHA-256 of the JSON of an endpoint list, taken to be injective. */
  datatype Digest = Digest(endpoints: seq<FabricEndpoint>)

  datatype FabricStatus = FabricStatus(
    generation: Digest, observedAt: int, valid: bool, endpoints: seq<FabricEndpoint>, errors: seq<FabricError>)

  function Endpoint(nodeName: string, d: TopologyDevice): FabricEndpoint {
    FabricEndpoint(nodeName, d.pool, d.name, d.stableID, d.chipSeries, d.fabricID, d.ringID, d.endpointID, d.links)
  }

  // ---- What makes observations a sound fabric ----

  predicate IsStale(node: NodeTopology, ttl: int, now: int) { ttl > 0 && now - node.observedAt > ttl }

  /** The endpoints a node names, in order; a device without an endpoint ID is not on a fabric. */
  function NodeEndpoints(nodeName: string, devices: seq<TopologyDevice>): seq<FabricEndpoint> {
    if devices == [] then []
    else
      var last := devices[|devices| - 1];
      NodeEndpoints(nodeName, devices[..|devices| - 1]) +
      if last.endpointID == "" then [] else [Endpoint(nodeName, last)]
  }

  function AllEndpoints(nodes: seq<NodeTopology>): seq<FabricEndpoint> {
    if nodes == [] then []
    else
      var last := nodes[|nodes| - 1];
      AllEndpoints(nodes[..|nodes| - 1]) + NodeEndpoints(last.nodeName, last.devices)
  }

  function FabricIDs(eps: seq<FabricEndpoint>): set<string> { set e | e in eps :: e.fabricID }

  predicate Complete(e: FabricEndpoint) { e.fabricID != "" && e.ringID != "" }

  ghost predicate NonEmptyIDs(eps: seq<FabricEndpoint>) { forall e :: e in eps ==> e.endpointID != "" }

  ghost predicate Collectable(eps: seq<FabricEndpoint>) {
    (forall e :: e in eps ==> Complete(e)) && UniqueIDs(eps) && |eps| <= MAX_ENDPOINTS
  }

  /** The peer of an up link exists, lies in the same ring and links back. */
  ghost predicate Reciprocated(eps: seq<FabricEndpoint>, e: FabricEndpoint, link: Link) {
    exists peer :: peer in eps && peer.endpointID == link.remoteEndpointID && PeerSound(e, peer)
  }

  predicate PeerSound(e: FabricEndpoint, peer: FabricEndpoint) {
    && peer.fabricID == e.fabricID && peer.ringID == e.ringID
    && exists i :: 0 <= i < |peer.links| && LinkTo(peer.links[i], e.endpointID)
  }

  predicate NamesPeer(link: Link) { link.state == "up" && link.remoteEndpointID != "" }

  ghost predicate LinksSound(eps: seq<FabricEndpoint>) {
    forall e, i :: e in eps && 0 <= i < |e.links| && NamesPeer(e.links[i]) ==> Reciprocated(eps, e, e.links[i])
  }

  ghost predicate FabricSound(nodes: seq<NodeTopology>, ttl: int, now: int) {
    var all := AllEndpoints(nodes);
    && |nodes| <= MAX_NODES
    && AllFresh(nodes, ttl, now)
    && Collectable(all)
    && |FabricIDs(all)| <= MAX_FABRICS
    && LinksSound(all)
  }

  /** Every device with an endpoint ID, and nothing else, gives an endpoint: with its node's name and its attributes. */
  ghost predicate CarriesDevice(e: FabricEndpoint, node: NodeTopology, d: TopologyDevice) {
    && d in node.devices && d.endpointID != ""
    && e.nodeName == node.nodeName && e.pool == d.pool && e.deviceName == d.name
    && e.stableID == d.stableID && e.chipSeries == d.chipSeries && e.fabricID == d.fabricID && e.ringID == d.ringID
    && e.endpointID == d.endpointID && e.links == d.links
  }

  lemma {:induction false} NodeEndpointsCarry(node: NodeTopology, devices: seq<TopologyDevice>)
    requires forall d :: d in devices ==> d in node.devices
    ensures forall e :: e in NodeEndpoints(node.nodeName, devices) <==>
              exists d :: d in devices && CarriesDevice(e, node, d)
  {
    if devices != [] {
      var init, last := devices[..|devices| - 1], devices[|devices| - 1];
      NodeEndpointsCarry(node, init);
      assert devices == init + [last];
      if last.endpointID != "" {
        assert CarriesDevice(Endpoint(node.nodeName, last), node, last);
      }
    }
  }

  lemma {:induction false} EndpointsCarryDevices(nodes: seq<NodeTopology>)
    ensures forall e :: e in AllEndpoints(nodes) <==> exists node, d :: node in nodes && CarriesDevice(e, node, d)
  {
    if nodes != [] {
      var init, last := nodes[..|nodes| - 1], nodes[|nodes| - 1];
      EndpointsCarryDevices(init);
      NodeEndpointsCarry(last, last.devices);
      assert nodes == init + [last];
    }
  }

  // ---- BuildFabric ----

  ghost predicate Canonical(eps: seq<FabricEndpoint>) {
    UniqueIDs(eps) && NonEmptyIDs(eps) && SortedBy(ByEndpointID, eps)
  }

  /** `BuildFabric`: valid exactly on sound observations, and then nothing was dropped. */
  method BuildFabric(nodes: seq<NodeTopology>, ttl: int, now: int) returns (status: FabricStatus)
    ensures status.valid <==> FabricSound(nodes, ttl, now)
    ensures status.valid <==> status.errors == []
    ensures status.valid ==> multiset(status.endpoints) == multiset(AllEndpoints(nodes))
    ensures status.valid ==> forall e :: e in status.endpoints <==> exists n, d :: n in nodes && CarriesDevice(e, n, d)
    ensures status.valid && ttl > 0 ==> forall n :: n in nodes ==> now <= n.observedAt + ttl
    ensures status.valid ==> LinksSound(status.endpoints)
    ensures Canonical(status.endpoints) && |status.endpoints| <= MAX_ENDPOINTS
    ensures status.generation == Digest(status.endpoints)
  {
    var errors := [];
    var kept := nodes;
    if |nodes| > MAX_NODES {
      errors := [TooManyNodes(|nodes|)];
      kept := nodes[..MAX_NODES];
    }
    var acc := Collect(kept, ttl, now, errors);
    errors := acc.errors;
    if |acc.fabrics| > MAX_FABRICS {
      errors := errors + [TooManyFabrics(|acc.fabrics|)];
    }
    ByEndpointIDIsStrictWeakOrder();
    var sorted := SortSlice(acc.endpoints, ByEndpointID);
    PermutationKeepsSoundness(acc.endpoints, sorted);
    var byID := BuildIndex(sorted);
    var linkErrors := CheckLinks(sorted, byID);
    errors := errors + linkErrors;
    status := FabricStatus(Digest(sorted), now, errors == [], sorted, errors);
    EndpointsCarryDevices(nodes);
    if status.valid {
      forall e ensures e in status.endpoints <==> e in AllEndpoints(nodes) {
        MultisetMember(status.endpoints, AllEndpoints(nodes), e);
      }
    }
  }

  /** The variables `BuildFabric` fills while it walks the nodes. */
  datatype Collected = Collected(
    endpoints: seq<FabricEndpoint>, fabrics: set<string>, seen: set<string>, overflow: bool, errors: seq<FabricError>)

  /** `acc` is what a walk over the endpoints `sofar` leaves; `clean` says nothing else was reported. */
  ghost predicate Tracks(acc: Collected, sofar: seq<FabricEndpoint>, clean: bool) {
    && UniqueIDs(acc.endpoints) && NonEmptyIDs(acc.endpoints) && |acc.endpoints| <= MAX_ENDPOINTS
    && acc.fabrics == FabricIDs(acc.endpoints)
    && acc.seen == IDSet(acc.endpoints)
    && (acc.overflow ==> acc.errors != [])
    && (acc.errors == [] <==> clean && Collectable(sofar))
    && (acc.errors == [] ==> acc.endpoints == sofar)
  }

  ghost predicate AllFresh(nodes: seq<NodeTopology>, ttl: int, now: int) {
    forall n :: n in nodes ==> !IsStale(n, ttl, now)
  }

  method Collect(nodes: seq<NodeTopology>, ttl: int, now: int, before: seq<FabricError>) returns (acc: Collected)
    ensures Tracks(acc, AllEndpoints(nodes), before == [] && AllFresh(nodes, ttl, now))
  {
    acc := Collected([], {}, {}, false, before);
    for i := 0 to |nodes|
      invariant Tracks(acc, AllEndpoints(nodes[..i]), before == [] && AllFresh(nodes[..i], ttl, now))
    {
      var node := nodes[i];
      assert nodes[..i + 1] == nodes[..i] + [node];
      assert nodes[..i + 1][..i] == nodes[..i];
      CollectablePrefix(AllEndpoints(nodes[..i]), NodeEndpoints(node.nodeName, node.devices));
      if IsStale(node, ttl, now) {
        acc := acc.(errors := acc.errors + [Stale(node.nodeName)]);
        assert node in nodes[..i + 1];
      } else {
        acc := CollectNode(node, acc, AllEndpoints(nodes[..i]), before == [] && AllFresh(nodes[..i], ttl, now));
      }
    }
    assert nodes[..|nodes|] == nodes;
  }

  method CollectNode(node: NodeTopology, start: Collected, ghost sofar: seq<FabricEndpoint>, ghost clean: bool)
    returns (acc: Collected)
    requires Tracks(start, sofar, clean)
    ensures Tracks(acc, sofar + NodeEndpoints(node.nodeName, node.devices), clean)
  {
    acc := start;
    assert sofar + [] == sofar;
    for j := 0 to |node.devices|
      invariant Tracks(acc, sofar + NodeEndpoints(node.nodeName, node.devices[..j]), clean)
    {
      ghost var done := sofar + NodeEndpoints(node.nodeName, node.devices[..j]);
      assert node.devices[..j + 1][..j] == node.devices[..j];
      if node.devices[j].endpointID == "" {
        assert sofar + NodeEndpoints(node.nodeName, node.devices[..j + 1]) == done;
        continue;
      }
      acc := CollectOne(Endpoint(node.nodeName, node.devices[j]), acc, done, clean);
      assert sofar + NodeEndpoints(node.nodeName, node.devices[..j + 1]) ==
             done + [Endpoint(node.nodeName, node.devices[j])];
    }
    assert node.devices[..|node.devices|] == node.devices;
  }

  /** One device with an endpoint ID. */
  method CollectOne(item: FabricEndpoint, start: Collected, ghost sofar: seq<FabricEndpoint>, ghost clean: bool)
    returns (acc: Collected)
    requires Tracks(start, sofar, clean) && item.endpointID != ""
    ensures Tracks(acc, sofar + [item], clean)
  {
    acc := start;
    CollectableStep(sofar, item);
    if item.fabricID == "" || item.ringID == "" {
      acc := acc.(errors := acc.errors + [IncompleteIdentity(item.endpointID)]);
    }
    if item.endpointID in acc.seen {
      return acc.(errors := acc.errors + [DuplicateEndpoint(item.endpointID)]);
    }
    if |acc.endpoints| == MAX_ENDPOINTS {
      if !acc.overflow {
        acc := acc.(errors := acc.errors + [TooManyEndpoints], overflow := true);
      }
      return;
    }
    acc := acc.(seen := acc.seen + {item.endpointID}, fabrics := acc.fabrics + {item.fabricID},
                endpoints := acc.endpoints + [item]);
  }

  lemma CollectableStep(eps: seq<FabricEndpoint>, e: FabricEndpoint)
    ensures Collectable(eps + [e]) <==>
            Collectable(eps) && Complete(e) && |eps| < MAX_ENDPOINTS
            && e.endpointID !in IDSet(eps)
  {
    var all := eps + [e];
    if Collectable(all) {
      CollectablePrefix(eps, [e]);
      assert e in all;
      forall x | x in eps ensures x.endpointID != e.endpointID {
        var i :| 0 <= i < |eps| && eps[i] == x;
        assert all[i].endpointID != all[|eps|].endpointID;
      }
    }
  }

  lemma CollectablePrefix(a: seq<FabricEndpoint>, b: seq<FabricEndpoint>)
    ensures Collectable(a + b) ==> Collectable(a)
  {
    if Collectable(a + b) {
      forall e | e in a ensures Complete(e) { assert e in a + b; }
      forall i, j | 0 <= i < j < |a| ensures a[i].endpointID != a[j].endpointID {
        assert (a + b)[i].endpointID != (a + b)[j].endpointID;
      }
    }
  }

  method CheckLinks(eps: seq<FabricEndpoint>, byID: Index) returns (errors: seq<FabricError>)
    requires UniqueIDs(eps) && byID == IndexByID(eps)
    ensures errors == [] <==> LinksSound(eps)
  {
    errors := [];
    for i := 0 to |eps|
      invariant errors == [] <==> forall k :: 0 <= k < i ==> EndpointSound(eps, eps[k], |eps[k].links|)
    {
      ghost var prior := errors;
      for j := 0 to |eps[i].links|
        invariant errors == [] <==> prior == [] && EndpointSound(eps, eps[i], j)
      {
        var bad := CheckLink(eps, byID, eps[i], eps[i].links[j]);
        errors := errors + bad;
      }
    }
    assert LinksSound(eps) <==> forall k :: 0 <= k < |eps| ==> EndpointSound(eps, eps[k], |eps[k].links|);
  }

  ghost predicate EndpointSound(eps: seq<FabricEndpoint>, e: FabricEndpoint, upto: nat)
    requires upto <= |e.links|
  {
    forall i :: 0 <= i < upto && NamesPeer(e.links[i]) ==> Reciprocated(eps, e, e.links[i])
  }

  method CheckLink(ghost eps: seq<FabricEndpoint>, byID: Index, item: FabricEndpoint, link: Link)
    returns (errors: seq<FabricError>)
    requires UniqueIDs(eps) && byID == IndexByID(eps)
    ensures errors == [] <==> (NamesPeer(link) ==> Reciprocated(eps, item, link))
  {
    if link.state != "up" || link.remoteEndpointID == "" {
      return [];
    }
    IndexKeys(eps);
    if link.remoteEndpointID !in byID {
      return [MissingPeer(item.endpointID, link.remoteEndpointID)];
    }
    var peer := byID[link.remoteEndpointID];
    assert forall p :: p in eps && p.endpointID == link.remoteEndpointID ==> p == peer by {
      forall p | p in eps && p.endpointID == link.remoteEndpointID ensures p == peer { IndexUnique(eps, p); }
    }
    if peer.fabricID != item.fabricID || peer.ringID != item.ringID {
      return [CrossesRing(item.endpointID)];
    }
    var reciprocal := false;
    for i := 0 to |peer.links|
      invariant reciprocal <==> exists k :: 0 <= k < i && LinkTo(peer.links[k], item.endpointID)
    {
      if peer.links[i].state == "up" && peer.links[i].remoteEndpointID == item.endpointID {
        assert LinkTo(peer.links[i], item.endpointID);
        reciprocal := true;
        break;
      }
    }
    errors := if reciprocal then [] else [NotReciprocal(item.endpointID, peer.endpointID)];
  }

  // ---- Rearranging endpoints or nodes changes nothing ----

  function IDSet(eps: seq<FabricEndpoint>): set<string> { set e | e in eps :: e.endpointID }

  lemma {:induction false} UniqueIffCard(eps: seq<FabricEndpoint>)
    ensures |IDSet(eps)| <= |eps|
    ensures UniqueIDs(eps) <==> |IDSet(eps)| == |eps|
  {
    if eps != [] {
      var init, last := eps[..|eps| - 1], eps[|eps| - 1];
      UniqueIffCard(init);
      assert eps == init + [last];
      UniqueStep(init, last);
    }
  }

  lemma UniqueStep(init: seq<FabricEndpoint>, last: FabricEndpoint)
    ensures IDSet(init + [last]) == IDSet(init) + {last.endpointID}
    ensures UniqueIDs(init + [last]) <==> UniqueIDs(init) && last.endpointID !in IDSet(init)
  {
    var eps := init + [last];
    assert forall e :: e in eps <==> e in init || e == last;
    assert forall i :: 0 <= i < |init| ==> eps[i] == init[i] && eps[i] in init;
    if last.endpointID in IDSet(init) {
      var e :| e in init && e.endpointID == last.endpointID;
      var i :| 0 <= i < |init| && init[i] == e;
      assert eps[i].endpointID == eps[|init|].endpointID;
    }
    if UniqueIDs(eps) {
      forall i, j | 0 <= i < j < |init| ensures init[i].endpointID != init[j].endpointID {
        assert eps[i].endpointID != eps[j].endpointID;
      }
    }
  }

  lemma PermutationKeepsSoundness(a: seq<FabricEndpoint>, b: seq<FabricEndpoint>)
    requires multiset(a) == multiset(b)
    ensures |a| == |b| && (forall e :: e in a <==> e in b)
    ensures UniqueIDs(a) <==> UniqueIDs(b)
    ensures Collectable(a) <==> Collectable(b)
    ensures FabricIDs(a) == FabricIDs(b)
    ensures LinksSound(a) <==> LinksSound(b)
  {
    PermutationLength(a, b);
    forall e ensures e in a <==> e in b { MultisetMember(a, b, e); }
    assert IDSet(a) == IDSet(b);
    UniqueIffCard(a);
    UniqueIffCard(b);
    assert forall e, link :: Reciprocated(a, e, link) <==> Reciprocated(b, e, link);
  }

  lemma {:induction false} AllEndpointsConcat(a: seq<NodeTopology>, b: seq<NodeTopology>)
    ensures AllEndpoints(a + b) == AllEndpoints(a) + AllEndpoints(b)
  {
    if b == [] {
      assert a + b == a;
    } else {
      var init, last := b[..|b| - 1], b[|b| - 1];
      AllEndpointsConcat(a, init);
      var ab := a + b;
      assert ab[..|ab| - 1] == a + init && ab[|ab| - 1] == last;
      SeqAssociative(AllEndpoints(a), AllEndpoints(init), NodeEndpoints(last.nodeName, last.devices));
    }
  }

  lemma SeqAssociative<T>(a: seq<T>, b: seq<T>, c: seq<T>)
    ensures (a + b) + c == a + (b + c)
  {
  }

  /** Taking one node out takes exactly its endpoints out. */
  lemma AllEndpointsRemove(nodes: seq<NodeTopology>, i: nat)
    requires i < |nodes|
    ensures multiset(AllEndpoints(nodes)) ==
            multiset(AllEndpoints(nodes[..i] + nodes[i + 1..])) +
            multiset(NodeEndpoints(nodes[i].nodeName, nodes[i].devices))
  {
    SplitAt(nodes, i);
    AllEndpointsWithout(nodes[..i], nodes[i], nodes[i + 1..]);
  }

  lemma SplitAt<T>(s: seq<T>, i: nat)
    requires i < |s|
    ensures s == s[..i] + ([s[i]] + s[i + 1..])
  {
  }

  lemma AllEndpointsWithout(front: seq<NodeTopology>, node: NodeTopology, back: seq<NodeTopology>)
    ensures multiset(AllEndpoints(front + ([node] + back))) ==
            multiset(AllEndpoints(front + back)) + multiset(NodeEndpoints(node.nodeName, node.devices))
  {
    AllEndpointsSplit(front, node, back);
    AllEndpointsConcat(front, back);
    MultisetMiddle(AllEndpoints(front), NodeEndpoints(node.nodeName, node.devices), AllEndpoints(back));
  }

  lemma AllEndpointsSplit(front: seq<NodeTopology>, node: NodeTopology, back: seq<NodeTopology>)
    ensures AllEndpoints(front + ([node] + back)) ==
            AllEndpoints(front) + (NodeEndpoints(node.nodeName, node.devices) + AllEndpoints(back))
  {
    AllEndpointsConcat(front, [node] + back);
    AllEndpointsConcat([node], back);
    AllEndpointsOfOne(node);
  }

  lemma AllEndpointsOfOne(node: NodeTopology)
    ensures AllEndpoints([node]) == NodeEndpoints(node.nodeName, node.devices)
  {
    assert [node][..0] == [];
  }

  lemma MultisetMiddle<T>(a: seq<T>, b: seq<T>, c: seq<T>)
    ensures multiset(a + (b + c)) == multiset(a + c) + multiset(b)
  {
  }

  lemma {:induction false} AllEndpointsPermutation(a: seq<NodeTopology>, b: seq<NodeTopology>)
    requires multiset(a) == multiset(b)
    ensures multiset(AllEndpoints(a)) == multiset(AllEndpoints(b))
  {
    if a == [] {
      PermutationLength(a, b);
    } else {
      var i := FindHead(a, b);
      AllEndpointsPermutation(a[..0] + a[1..], b[..i] + b[i + 1..]);
      AllEndpointsRestore(a, 0, b, i);
    }
  }

  lemma AllEndpointsRestore(a: seq<NodeTopology>, i: nat, b: seq<NodeTopology>, j: nat)
    requires i < |a| && j < |b| && a[i] == b[j]
    requires multiset(AllEndpoints(a[..i] + a[i + 1..])) == multiset(AllEndpoints(b[..j] + b[j + 1..]))
    ensures multiset(AllEndpoints(a)) == multiset(AllEndpoints(b))
  {
    AllEndpointsRemove(a, i);
    AllEndpointsRemove(b, j);
  }

  /** Validity, endpoints and generation do not depend on the order in which nodes are listed. */
  lemma NodeOrderIrrelevant(nodes: seq<NodeTopology>, other: seq<NodeTopology>, ttl: int, now: int,
                            endpoints: seq<FabricEndpoint>, otherEndpoints: seq<FabricEndpoint>)
    requires multiset(nodes) == multiset(other)
    ensures FabricSound(nodes, ttl, now) <==> FabricSound(other, ttl, now)
    ensures && FabricSound(nodes, ttl, now)
            && multiset(endpoints) == multiset(AllEndpoints(nodes)) && Canonical(endpoints)
            && multiset(otherEndpoints) == multiset(AllEndpoints(other)) && Canonical(otherEndpoints)
            ==> endpoints == otherEndpoints
  {
    PermutationLength(nodes, other);
    forall n ensures n in nodes <==> n in other { MultisetMember(nodes, other, n); }
    AllEndpointsPermutation(nodes, other);
    PermutationKeepsSoundness(AllEndpoints(nodes), AllEndpoints(other));
    if multiset(endpoints) == multiset(otherEndpoints) && Canonical(endpoints) && Canonical(otherEndpoints) {
      ByEndpointIDIsStrictWeakOrder();
      UniqueIDsAreDistinct(endpoints);
      SortUnique(ByEndpointID, endpoints, otherEndpoints);
    }
  }

  /** On a valid fabric, in any order, the breadth-first check decides connectedness from any start. */
  lemma ValidFabricDecidesConnectivity(endpoints: seq<FabricEndpoint>, candidates: seq<FabricEndpoint>,
                                       ids: set<string>)
    requires Canonical(endpoints) && LinksSound(endpoints)
    requires multiset(candidates) == multiset(endpoints)
    requires "" !in ids
    ensures MustConnect(IndexByID(candidates), ids) <==> ConnectedSubgraph(IndexByID(candidates), ids)
    ensures MayConnect(IndexByID(candidates), ids) <==> ConnectedSubgraph(IndexByID(candidates), ids)
  {
    PermutationKeepsSoundness(endpoints, candidates);
    var ix := IndexByID(candidates);
    IndexKeys(candidates);
    forall a, b | a in ids && b in ids && Linked(ix, a, b) ensures Linked(ix, b, a) {
      var i :| 0 <= i < |ix[a].links| && LinkTo(ix[a].links[i], b);
      assert Reciprocated(candidates, ix[a], ix[a].links[i]);
      var peer :| peer in candidates && peer.endpointID == b && PeerSound(ix[a], peer);
      IndexUnique(candidates, peer);
    }
    ConnectedIffSubgraph(ix, ids);
  }
}
