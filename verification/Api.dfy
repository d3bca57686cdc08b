/** The records the packages exchange. */
module Api {
  import opened Ordering

  datatype Option<+T> = None | Some(value: T)

  datatype Link = Link(name: string, state: string, speedGbps: nat, remoteEndpointID: string)

  datatype FabricEndpoint = FabricEndpoint(
    nodeName: string, pool: string, deviceName: string, stableID: string, chipSeries: string,
    fabricID: string, ringID: string, endpointID: string, links: seq<Link>)

  datatype WorkloadRank = WorkloadRank(name: string, deviceClassName: string, count: int, chipSeries: string)

  datatype WorkloadTopology = WorkloadTopology(fabricID: string, ringID: string)

  datatype Workload = Workload(namespace: string, name: string, uid: string,
                               topology: WorkloadTopology, ranks: seq<WorkloadRank>)

  /** A child object's name; the digest in it is taken to be injective. */
  datatype ChildName = ChildName(workloadName: string, workloadUID: string, rankName: string)

  datatype AssignedDevice = AssignedDevice(pool: string, name: string, stableID: string, endpointID: string)

  datatype RankAssignment = RankAssignment(
    rank: string, nodeName: string, claimName: ChildName, podName: ChildName, devices: seq<AssignedDevice>)

  datatype DeviceID = DeviceID(pool: string, name: string)

  /** `matchesTopology`; an empty field asks for nothing. */
  predicate MatchesTopology(topology: WorkloadTopology, e: FabricEndpoint) {
    && (topology.fabricID != "" ==> e.fabricID == topology.fabricID)
    && (topology.ringID != "" ==> e.ringID == topology.ringID)
  }

  predicate ByEndpointID(a: FabricEndpoint, b: FabricEndpoint) { Less(a.endpointID, b.endpointID) }

  lemma ByEndpointIDIsStrictWeakOrder()
    ensures StrictWeakOrder(ByEndpointID)
  {
    LessIsStrictWeakOrder();
  }

  ghost predicate UniqueIDs(eps: seq<FabricEndpoint>) {
    forall i, j :: 0 <= i < j < |eps| ==> eps[i].endpointID != eps[j].endpointID
  }

  lemma UniqueIDsAreDistinct(eps: seq<FabricEndpoint>)
    requires UniqueIDs(eps)
    ensures DistinctBy(ByEndpointID, eps)
  {
    forall i, j | 0 <= i < j < |eps|
      ensures ByEndpointID(eps[i], eps[j]) || ByEndpointID(eps[j], eps[i])
    {
      LessTotal(eps[i].endpointID, eps[j].endpointID);
    }
  }
}
