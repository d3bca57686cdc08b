/** Why a claim for exact stable IDs can only be met by the assigned devices. */
module ExactClaims {
  import opened Ordering
  import opened Api
  import opened Connectivity
  import opened Inventory
  import opened Lifecycle
  import opened Screening
  import opened Manager
  import opened Capacity

  // ---- normalize.go ----

  predicate ByStableID(a: InventoryDevice, b: InventoryDevice) { Less(a.stableID, b.stableID) }

  predicate SharesIdentity(s: seq<InventoryDevice>, i: nat, upto: nat)
    requires i < |s| && upto <= |s|
  {
    (0 < i < upto && s[i - 1].stableID == s[i].stableID) || (i + 1 < upto && s[i + 1].stableID == s[i].stableID)
  }

  function Rejected(d: InventoryDevice): InventoryDevice {
    d.(eligible := false, rejectionReason := "duplicate stable identity")
  }

  /** `markDuplicateIdentities`, in place: exactly the devices next to an equal identity are rejected. */
  method MarkDuplicateIdentities(devices: array<InventoryDevice>)
    modifies devices
    ensures forall i :: 0 <= i < devices.Length ==>
              devices[i] == if SharesIdentity(old(devices[..]), i, devices.Length) then Rejected(old(devices[i]))
                            else old(devices[i])
  {
    ghost var was := devices[..];
    var i := 1;
    while i < devices.Length
      invariant devices.Length > 0 ==> 1 <= i <= devices.Length
      invariant forall k :: 0 <= k < devices.Length ==>
                  devices[k] == if i <= devices.Length && SharesIdentity(was, k, i) then Rejected(was[k]) else was[k]
    {
      if devices[i].stableID == devices[i - 1].stableID {
        devices[i - 1] := Rejected(devices[i - 1]);
        devices[i] := Rejected(devices[i]);
      }
      i := i + 1;
    }
  }

  ghost predicate DistinctEligible(s: seq<InventoryDevice>) {
    forall i, j :: 0 <= i < j < |s| && s[i].eligible && s[j].eligible ==> s[i].stableID != s[j].stableID
  }

  /** On a sorted list the adjacent check finds every duplicate. */
  lemma AdjacentMarkingSuffices(s: seq<InventoryDevice>, marked: seq<InventoryDevice>)
    requires SortedBy(ByStableID, s) && |marked| == |s|
    requires forall i :: 0 <= i < |s| ==> marked[i] == if SharesIdentity(s, i, |s|) then Rejected(s[i]) else s[i]
    ensures DistinctEligible(marked)
  {
    forall i, j | 0 <= i < j < |s| && s[i].stableID == s[j].stableID ensures SharesIdentity(s, i, |s|) {
      LessTotal(s[i].stableID, s[i + 1].stableID);
      assert !ByStableID(s[i + 1], s[i]);
      assert i + 1 < j ==> !ByStableID(s[j], s[i + 1]);
    }
  }

  /** The marking of a sorted list. */
  ghost predicate MarkedFrom(sorted: seq<InventoryDevice>, marked: seq<InventoryDevice>) {
    && |marked| == |sorted|
    && forall i :: 0 <= i < |sorted| ==>
          marked[i] == if SharesIdentity(sorted, i, |sorted|) then Rejected(sorted[i]) else sorted[i]
  }

  /** The end of `BuildSnapshot`: sort by stable ID, then mark. */
  method FinishSnapshot(observed: seq<InventoryDevice>, at: int)
    returns (snapshot: Snapshot, ghost sorted: seq<InventoryDevice>)
    ensures multiset(sorted) == multiset(observed) && SortedBy(ByStableID, sorted)
    ensures MarkedFrom(sorted, snapshot.devices)
    ensures DistinctEligible(snapshot.devices) && snapshot.observedAt == Some(at)
    ensures forall d :: d in snapshot.devices && d.eligible ==> d in observed
  {
    LessIsStrictWeakOrder();
    var list := SortSlice(observed, ByStableID);
    sorted := list;
    var devices := new InventoryDevice[|list|](i requires 0 <= i < |list| => list[i]);
    assert devices[..] == list;
    MarkDuplicateIdentities(devices);
    AdjacentMarkingSuffices(list, devices[..]);
    snapshot := Snapshot(devices[..], Some(at));
    forall d | d in snapshot.devices && d.eligible ensures d in observed {
      var i :| 0 <= i < |snapshot.devices| && snapshot.devices[i] == d;
      MultisetMember(list, observed, list[i]);
    }
  }

  // ---- children.go ----

  /** The request of `buildClaim`: `count` devices of one node with one of these stable IDs. */
  datatype ExactRequest = ExactRequest(deviceClassName: string, count: nat, nodeName: string, deviceIDs: seq<string>)

  /** A device published in the pool of a node. */
  datatype Offer = Offer(nodeName: string, device: InventoryDevice)

  predicate Selects(r: ExactRequest, o: Offer) { o.nodeName == r.nodeName && o.device.stableID in r.deviceIDs }

  ghost predicate Offered(published: map<string, seq<InventoryDevice>>, o: Offer) {
    o.nodeName in published && o.device in published[o.nodeName]
  }

  /** An allocation of the request from what the cluster publishes. */
  ghost predicate Satisfies(published: map<string, seq<InventoryDevice>>, r: ExactRequest, chosen: set<Offer>) {
    |chosen| == r.count && forall o :: o in chosen ==> Offered(published, o) && Selects(r, o)
  }

  /** `buildClaim`. */
  method BuildClaim(rank: WorkloadRank, assignment: RankAssignment) returns (r: ExactRequest)
    ensures r == ExactRequest(rank.deviceClassName, |assignment.devices|, assignment.nodeName, r.deviceIDs)
    ensures forall id :: id in r.deviceIDs <==> id in AssignedIDs(assignment.devices)
  {
    var ids := [];
    for i := 0 to |assignment.devices|
      invariant |ids| == i && forall k :: 0 <= k < i ==> ids[k] == assignment.devices[k].stableID
    {
      ids := ids + [assignment.devices[i].stableID];
    }
    forall d | d in assignment.devices ensures d.stableID in ids {
      var k :| 0 <= k < |assignment.devices| && assignment.devices[k] == d;
      assert ids[k] == d.stableID;
    }
    r := ExactRequest(rank.deviceClassName, |assignment.devices|, assignment.nodeName, ids);
  }

  function StableIDs(s: set<Offer>): set<string> { set o | o in s :: o.device.stableID }

  function ChosenNames(s: set<Offer>): set<string> { set o | o in s :: o.device.name }

  function AssignedIDs(devices: seq<AssignedDevice>): set<string> { set d | d in devices :: d.stableID }

  function AssignedNames(devices: seq<AssignedDevice>): set<string> { set d | d in devices :: d.name }

  lemma {:induction false} AssignedIDsBound(devices: seq<AssignedDevice>)
    ensures |AssignedIDs(devices)| <= |devices|
  {
    if devices != [] {
      var init, last := devices[..|devices| - 1], devices[|devices| - 1];
      AssignedIDsBound(init);
      assert devices == init + [last];
      assert AssignedIDs(devices) == AssignedIDs(init) + {last.stableID};
    }
  }

  lemma {:induction false} DistinctCard(s: set<Offer>)
    requires forall a, b :: a in s && b in s && a.device.stableID == b.device.stableID ==> a == b
    ensures |StableIDs(s)| == |s|
  {
    if s != {} {
      var o :| o in s;
      DistinctCard(s - {o});
      assert StableIDs(s) == StableIDs(s - {o}) + {o.device.stableID};
      assert o.device.stableID !in StableIDs(s - {o});
    }
  }

  lemma ChosenDistinct(nodeName: string, published: seq<InventoryDevice>, chosen: set<Offer>)
    requires DistinctEligible(published)
    requires forall o :: o in chosen ==> o.nodeName == nodeName && o.device in published && o.device.eligible
    ensures |StableIDs(chosen)| == |chosen|
  {
    forall a, b | a in chosen && b in chosen && a.device.stableID == b.device.stableID ensures a == b {
      var i :| 0 <= i < |published| && published[i] == a.device;
      var j :| 0 <= j < |published| && published[j] == b.device;
      assert i == j;
    }
    DistinctCard(chosen);
  }

  lemma SameIDsSameNames(chosen: set<Offer>, devices: seq<AssignedDevice>, naming: string -> string)
    requires forall o :: o in chosen ==> o.device.name == naming(o.device.stableID)
    requires forall d :: d in devices ==> d.name == naming(d.stableID)
    requires StableIDs(chosen) == AssignedIDs(devices)
    ensures ChosenNames(chosen) == AssignedNames(devices)
  {
    forall d | d in devices ensures d.name in ChosenNames(chosen) {
      assert d.stableID in StableIDs(chosen);
      var o :| o in chosen && o.device.stableID == d.stableID;
    }
    forall o | o in chosen ensures o.device.name in AssignedNames(devices) {
      assert o.device.stableID in AssignedIDs(devices);
      var d :| d in devices && d.stableID == o.device.stableID;
    }
  }

  /** Each node publishes eligible devices with distinct identities, named after them. */
  ghost predicate WellPublished(published: map<string, seq<InventoryDevice>>, naming: string -> string) {
    forall node :: node in published ==>
      && DistinctEligible(published[node])
      && forall d :: d in published[node] ==> d.eligible && d.name == naming(d.stableID)
  }

  /** The chosen devices are the assigned ones: on the assigned node, and by identity and name. */
  ghost predicate IsAssigned(chosen: set<Offer>, assignment: RankAssignment) {
    && (forall o :: o in chosen ==> o.nodeName == assignment.nodeName)
    && StableIDs(chosen) == AssignedIDs(assignment.devices)
    && ChosenNames(chosen) == AssignedNames(assignment.devices)
  }

  /**
   * Of everything the cluster publishes, only the assigned devices satisfy the request, even where another node repeats
   * an identity.
   */
  lemma ExactRequestPins(published: map<string, seq<InventoryDevice>>, assignment: RankAssignment, r: ExactRequest,
                         chosen: set<Offer>, naming: string -> string)
    requires WellPublished(published, naming) && (forall d :: d in assignment.devices ==> d.name == naming(d.stableID))
    requires r.count == |assignment.devices| && r.nodeName == assignment.nodeName
    requires forall id :: id in r.deviceIDs <==> id in AssignedIDs(assignment.devices)
    requires Satisfies(published, r, chosen)
    ensures IsAssigned(chosen, assignment)
  {
    AssignedIDsBound(assignment.devices);
    if chosen == {} {
      assert assignment.devices == [];
    } else {
      var o :| o in chosen;
      assert Offered(published, o);
      ChosenDistinct(r.nodeName, published[r.nodeName], chosen);
      SubsetCard(StableIDs(chosen), AssignedIDs(assignment.devices));
      SameIDsSameNames(chosen, assignment.devices, naming);
    }
  }

  /** The assigned identities are distinct, and the assigned node publishes each of them. */
  ghost predicate AssignedPublished(published: map<string, seq<InventoryDevice>>, a: RankAssignment) {
    && (forall i, j :: 0 <= i < j < |a.devices| ==> a.devices[i].stableID != a.devices[j].stableID)
    && a.nodeName in published
    && forall d :: d in a.devices ==> exists item :: item in published[a.nodeName] && item.stableID == d.stableID
  }

  /** What the assigned node publishes of the assigned identities. */
  ghost function AssignedOffers(published: map<string, seq<InventoryDevice>>, a: RankAssignment): set<Offer> {
    if a.nodeName !in published then {}
    else set d | d in published[a.nodeName] && d.stableID in AssignedIDs(a.devices) :: Offer(a.nodeName, d)
  }

  lemma {:induction false} AssignedIDsCard(devices: seq<AssignedDevice>)
    requires forall i, j :: 0 <= i < j < |devices| ==> devices[i].stableID != devices[j].stableID
    ensures |AssignedIDs(devices)| == |devices|
  {
    if devices != [] {
      var init, last := devices[..|devices| - 1], devices[|devices| - 1];
      AssignedIDsCard(init);
      assert devices == init + [last];
      assert AssignedIDs(devices) == AssignedIDs(init) + {last.stableID};
      assert last.stableID !in AssignedIDs(init);
    }
  }

  /** The request can be met: by the assigned devices, when their node publishes them. */
  lemma AssignedSatisfy(published: map<string, seq<InventoryDevice>>, a: RankAssignment, r: ExactRequest,
                        naming: string -> string)
    requires WellPublished(published, naming) && AssignedPublished(published, a)
    requires r.count == |a.devices| && r.nodeName == a.nodeName
    requires forall id :: id in r.deviceIDs <==> id in AssignedIDs(a.devices)
    ensures Satisfies(published, r, AssignedOffers(published, a))
  {
    var offers := AssignedOffers(published, a);
    forall d | d in a.devices ensures d.stableID in StableIDs(offers) {
      var item :| item in published[a.nodeName] && item.stableID == d.stableID;
      assert Offer(a.nodeName, item) in offers;
    }
    assert StableIDs(offers) == AssignedIDs(a.devices);
    ChosenDistinct(a.nodeName, published[a.nodeName], offers);
    AssignedIDsCard(a.devices);
  }

  // ---- From observations to the choice ----

  /** Quarantine only takes eligibility away. */
  lemma FilterDistinct(s: Snapshot, q: map<string, QuarantineRecord>)
    requires DistinctEligible(s.devices)
    ensures DistinctEligible(Filter(s, q).devices)
    ensures forall d :: d in Filter(s, q).devices && d.eligible ==> d in s.devices && d.name !in q
  {
    var filtered := Filter(s, q).devices;
    assert forall i :: 0 <= i < |filtered| ==> filtered[i] == FilterDevice(s.devices[i], q);
    forall d | d in filtered && d.eligible ensures d in s.devices && d.name !in q {
      var i :| 0 <= i < |filtered| && filtered[i] == d;
      assert filtered[i] == s.devices[i];
    }
  }

  /** Publication keeps only eligible devices, so published identities are distinct. */
  lemma {:induction false} PublishedDistinct(devices: seq<InventoryDevice>)
    requires DistinctEligible(devices)
    ensures DistinctEligible(Published(devices))
    ensures forall d :: d in Published(devices) ==> d in devices && d.eligible
  {
    if devices != [] {
      var init, last := devices[..|devices| - 1], devices[|devices| - 1];
      PublishedDistinct(init);
      assert devices == init + [last];
      forall d | d in Published(init) ensures last.eligible ==> d.stableID != last.stableID {
        var i :| 0 <= i < |init| && init[i] == d;
        assert devices[i] == d && devices[|devices| - 1] == last;
      }
    }
  }

  /** What one node observed, and what it holds in quarantine. */
  datatype NodeView = NodeView(observed: seq<InventoryDevice>, at: int, quarantined: map<string, QuarantineRecord>)

  /** One node from observation to its published pool. */
  method PublishNode(view: NodeView, maxAge: int, now: int) returns (devices: seq<InventoryDevice>)
    ensures DistinctEligible(devices)
    ensures forall d :: d in devices ==> d.eligible && d in view.observed && d.name !in view.quarantined
  {
    var snapshot, sorted := FinishSnapshot(view.observed, view.at);
    var filtered := Filter(snapshot, view.quarantined);
    var slices := DriverResourcesAt(filtered, maxAge, now);
    FilterDistinct(snapshot, view.quarantined);
    PublishedDistinct(filtered.devices);
    devices := Flatten(slices);
  }

  /** From the observations of every node to a claim: whoever meets it has chosen exactly the assigned devices. */
  method ClaimPinsCluster(nodes: map<string, NodeView>, maxAge: int, now: int, rank: WorkloadRank,
                          assignment: RankAssignment, ghost naming: string -> string)
    returns (published: map<string, seq<InventoryDevice>>, r: ExactRequest)
    requires forall node, d :: node in nodes && d in nodes[node].observed && d.eligible ==> d.name == naming(d.stableID)
    requires forall d :: d in assignment.devices ==> d.name == naming(d.stableID)
    ensures published.Keys == nodes.Keys && WellPublished(published, naming)
    ensures forall chosen :: Satisfies(published, r, chosen) ==> IsAssigned(chosen, assignment)
    ensures AssignedPublished(published, assignment) ==>
              Satisfies(published, r, AssignedOffers(published, assignment))
  {
    published := map[];
    var rest := nodes.Keys;
    while rest != {}
      invariant rest <= nodes.Keys && published.Keys == nodes.Keys - rest && WellPublished(published, naming)
      decreases rest
    {
      var node :| node in rest;
      var devices := PublishNode(nodes[node], maxAge, now);
      published, rest := published[node := devices], rest - {node};
    }
    r := BuildClaim(rank, assignment);
    forall chosen | Satisfies(published, r, chosen) ensures IsAssigned(chosen, assignment) {
      ExactRequestPins(published, assignment, r, chosen, naming);
    }
    if AssignedPublished(published, assignment) {
      AssignedSatisfy(published, assignment, r, naming);
    }
  }
}
