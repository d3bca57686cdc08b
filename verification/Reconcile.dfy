/** Workload histories, the controller's lagging view of them, and exclusive assignment. */
module Reconcile {
  import opened Api
  import opened Connectivity
  import opened Topology
  import opened Generation

  datatype Phase = Unset | Pending | Assigned | Running | Degraded | Failed | Succeeded

  predicate Terminal(p: Phase) { p == Failed || p == Succeeded }

  /** The digest of a workload spec, taken to be injective; `template` stands for the rest of the spec. */
  datatype SpecHash = SpecHash(topology: WorkloadTopology, ranks: seq<WorkloadRank>, template: string)

  datatype Status = Status(
    phase: Phase, specHash: Option<SpecHash>, fabricGeneration: Option<Digest>,
    assignments: seq<RankAssignment>, reason: string)

  const NO_STATUS := Status(Unset, None, None, [], "")

  datatype Object = Object(workload: Workload, template: string, status: Status)

  function HashOf(o: Object): SpecHash { SpecHash(o.workload.topology, o.workload.ranks, o.template) }

  /** Every version of each workload the API server has held; None is a deleted one. */
  type History = map<string, seq<Option<Object>>>

  function Devices(assignments: seq<RankAssignment>): set<DeviceID> {
    set a, d | a in assignments && d in a.devices :: DeviceID(d.pool, d.name)
  }

  ghost function Current(h: History, key: string): Option<Object> {
    if key in h && h[key] != [] then h[key][|h[key]| - 1] else None
  }

  /** A workload that is not finished holds these assignments. */
  ghost predicate Holds(o: Option<Object>, assignments: seq<RankAssignment>) {
    o.Some? && !Terminal(o.value.status.phase) && o.value.status.assignments == assignments
  }

  ghost predicate Active(o: Option<Object>) {
    o.Some? && !Terminal(o.value.status.phase) && o.value.status.assignments != []
  }

  /** The assignments this process has written and not yet seen in the cache. */
  type Pending = map<string, seq<RankAssignment>>

  /** The index of the version the informer cache shows. */
  type Cache = map<string, nat>

  ghost predicate CacheOk(h: History, cache: Cache) {
    && cache.Keys == h.Keys
    && forall key :: key in h ==> cache[key] < |h[key]|
  }

  /** What a key holds is pending in this process, or is in every version the cache shows or will show. */
  ghost predicate Covered(h: History, cache: Cache, pending: Pending, key: string)
    requires CacheOk(h, cache) && key in h && Current(h, key).Some?
  {
    CoveredAs(h, cache, pending, key, Current(h, key).value.status.assignments)
  }

  ghost predicate CoveredAs(h: History, cache: Cache, pending: Pending, key: string, held: seq<RankAssignment>)
    requires CacheOk(h, cache) && key in h
  {
    (key in pending && pending[key] == held) || ShownSince(h, cache, key, held)
  }

  /** Every version the cache shows or will show holds these assignments. */
  ghost predicate ShownSince(h: History, cache: Cache, key: string, held: seq<RankAssignment>)
    requires CacheOk(h, cache) && key in h
  {
    forall v :: cache[key] <= v < |h[key]| ==> Holds(h[key][v], held)
  }

  ghost predicate AllCovered(h: History, cache: Cache, pending: Pending)
    requires CacheOk(h, cache)
  {
    forall key :: key in h && Active(Current(h, key)) ==> Covered(h, cache, pending, key)
  }

  /** No two unfinished workloads hold a common device. */
  ghost predicate ExclusiveAssignments(h: History) {
    forall k, l :: k in h && l in h && k != l && Active(Current(h, k)) && Active(Current(h, l)) ==>
      Devices(Current(h, k).value.status.assignments) !! Devices(Current(h, l).value.status.assignments)
  }

  ghost predicate Consistent(h: History, cache: Cache, pending: Pending) {
    CacheOk(h, cache) && AllCovered(h, cache, pending) && ExclusiveAssignments(h)
  }

  function Append(h: History, key: string, o: Option<Object>): History
    requires key in h
  {
    h[key := h[key] + [o]]
  }

  ghost predicate OthersSame(h: History, g: History, key: string) {
    g.Keys == h.Keys && forall k :: k != key ==> Current(g, k) == Current(h, k)
  }

  lemma CurrentAfterAppend(h: History, key: string, o: Option<Object>)
    requires key in h
    ensures Current(Append(h, key, o), key) == o
    ensures OthersSame(h, Append(h, key, o), key)
  {
  }

  function StatusAt(o: Option<Object>): Option<Status> { if o.Some? then Some(o.value.status) else None }

  /** The status has not changed since the version at `from`; the spec may have. */
  predicate SameStatusSince(versions: seq<Option<Object>>, from: nat) {
    from < |versions| && forall v :: from <= v < |versions| ==> StatusAt(versions[v]) == StatusAt(versions[from])
  }

  /** What the workload holds does not depend on what is pending for it. */
  ghost predicate ForgetOk(h: History, cache: Cache, key: string)
    requires CacheOk(h, cache)
  {
    key in h && Active(Current(h, key)) ==> ShownSince(h, cache, key, Current(h, key).value.status.assignments)
  }

  /** Forgetting a pending assignment is harmless if and only if every version still to come shows what is held. */
  lemma ForgetPendingIff(h: History, cache: Cache, pending: Pending, key: string)
    requires Consistent(h, cache, pending)
    ensures Consistent(h, cache, pending - {key}) <==> ForgetOk(h, cache, key)
  {
    if ForgetOk(h, cache, key) {
      forall k | k in h && Active(Current(h, k)) ensures Covered(h, cache, pending - {key}, k) {
        assert Covered(h, cache, pending, k);
      }
    }
  }

  /** Noting as pending what the workload holds, or anything if it holds nothing. */
  lemma PendHeld(h: History, cache: Cache, pending: Pending, key: string, a: seq<RankAssignment>)
    requires Consistent(h, cache, pending) && (Active(Current(h, key)) ==> Holds(Current(h, key), a))
    ensures Consistent(h, cache, pending[key := a])
  {
    forall k | k in h && Active(Current(h, k)) ensures Covered(h, cache, pending[key := a], k) {
      assert Covered(h, cache, pending, k);
    }
  }

  /** No other unfinished workload holds one of these devices. */
  ghost predicate FreeOfOthers(h: History, key: string, a: seq<RankAssignment>) {
    forall k :: k in h && k != key && Active(Current(h, k)) ==>
      Devices(Current(h, k).value.status.assignments) !! Devices(a)
  }

  /**
   * Writing these assignments for `key` is harmless: no one else holds the devices, and everyone else will see who
   * does.
   */
  ghost predicate WriteOk(h: History, cache: Cache, pending: Pending, key: string, a: seq<RankAssignment>)
    requires CacheOk(h, cache) && key in h
  {
    FreeOfOthers(h, key, a) && CoveredAs(h, cache, pending, key, a)
  }

  /** A write, from a status however old, keeps the invariant if and only if it gives everything up or is harmless. */
  lemma WriteConsistentIff(h: History, cache: Cache, pending: Pending, key: string, o: Object)
    requires Consistent(h, cache, pending) && key in h
    ensures Consistent(Append(h, key, Some(o)), cache, pending) <==>
              (Active(Some(o)) ==> WriteOk(h, cache, pending, key, o.status.assignments))
  {
    var g := Append(h, key, Some(o));
    CurrentAfterAppend(h, key, Some(o));
    if Active(Some(o)) {
      AppendShows(h, cache, key, o);
      if WriteOk(h, cache, pending, key, o.status.assignments) {
        AppendCovers(h, cache, pending, key, o);
        FreeIsExclusive(h, g, key);
      }
    } else {
      WriteKeeps(h, cache, pending, key, Some(o));
    }
  }

  lemma AppendShows(h: History, cache: Cache, key: string, o: Object)
    requires CacheOk(h, cache) && key in h && !Terminal(o.status.phase)
    ensures ShownSince(Append(h, key, Some(o)), cache, key, o.status.assignments) <==>
            ShownSince(h, cache, key, o.status.assignments)
  {
    var g := Append(h, key, Some(o));
    assert forall v :: 0 <= v < |h[key]| ==> g[key][v] == h[key][v];
  }

  lemma AppendCovers(h: History, cache: Cache, pending: Pending, key: string, o: Object)
    requires Consistent(h, cache, pending) && key in h && Active(Some(o))
    requires CoveredAs(Append(h, key, Some(o)), cache, pending, key, o.status.assignments)
    ensures AllCovered(Append(h, key, Some(o)), cache, pending)
  {
    var g := Append(h, key, Some(o));
    CurrentAfterAppend(h, key, Some(o));
    forall k | k in g && Active(Current(g, k)) ensures Covered(g, cache, pending, k) {
      if k != key {
        assert Covered(h, cache, pending, k);
      }
    }
  }

  lemma FreeIsExclusive(h: History, g: History, key: string)
    requires ExclusiveAssignments(h) && OthersSame(h, g, key) && key in h && Active(Current(g, key))
    requires FreeOfOthers(h, key, Current(g, key).value.status.assignments)
    ensures ExclusiveAssignments(g)
  {
  }

  /** Writing a status that keeps the assignments of the latest one, or gives them up. */
  lemma WriteKeeps(h: History, cache: Cache, pending: Pending, key: string, o: Option<Object>)
    requires Consistent(h, cache, pending) && key in h
    requires Active(o) ==> Active(Current(h, key)) && Holds(Current(h, key), o.value.status.assignments)
    ensures Consistent(Append(h, key, o), cache, pending)
  {
    var g := Append(h, key, o);
    CurrentAfterAppend(h, key, o);
    KeepsExclusive(h, g, key);
    forall k | k in g && Active(Current(g, k)) ensures Covered(g, cache, pending, k) {
      assert Active(Current(h, k)) && Covered(h, cache, pending, k);
    }
  }

  lemma KeepsExclusive(h: History, g: History, key: string)
    requires ExclusiveAssignments(h) && OthersSame(h, g, key)
    requires Active(Current(g, key)) ==>
               Active(Current(h, key)) && Holds(Current(h, key), Current(g, key).value.status.assignments)
    ensures ExclusiveAssignments(g)
  {
    forall k | k in g && Active(Current(g, k))
      ensures Active(Current(h, k)) && Current(h, k).value.status.assignments == Current(g, k).value.status.assignments
    {
    }
  }

  /** Writing a new assignment that touches no device another workload holds, and noting it as pending. */
  lemma WriteAssigns(h: History, cache: Cache, pending: Pending, key: string, o: Object)
    requires Consistent(h, cache, pending) && key in h && FreeOfOthers(h, key, o.status.assignments)
    ensures Consistent(Append(h, key, Some(o)), cache, pending[key := o.status.assignments])
  {
    var g := Append(h, key, Some(o));
    CurrentAfterAppend(h, key, Some(o));
    if Active(Some(o)) {
      FreeIsExclusive(h, g, key);
    } else {
      KeepsExclusive(h, g, key);
    }
    forall k | k in g && Active(Current(g, k)) ensures Covered(g, cache, pending[key := o.status.assignments], k) {
      if k != key {
        assert Covered(h, cache, pending, k);
      }
    }
  }

  /** The cache moves forward. */
  lemma CacheAdvances(h: History, cache: Cache, pending: Pending, key: string, to: nat)
    requires Consistent(h, cache, pending) && key in h && cache[key] <= to < |h[key]|
    ensures Consistent(h, cache[key := to], pending)
  {
  }

  /** A user edits the spec, deletes the workload or creates it again; the status is never theirs to write. */
  lemma UserWrites(h: History, cache: Cache, pending: Pending, key: string, o: Option<Object>)
    requires Consistent(h, cache, pending) && key in h
    requires o.Some? ==> o.value.status == if Current(h, key).Some? then Current(h, key).value.status else NO_STATUS
    ensures Consistent(Append(h, key, o), cache, pending)
  {
    WriteKeeps(h, cache, pending, key, o);
  }

  /** A key is created for the first time. */
  lemma UserCreates(h: History, cache: Cache, pending: Pending, key: string, o: Object)
    requires Consistent(h, cache, pending) && key !in h && o.status == NO_STATUS
    ensures Consistent(h[key := [Some(o)]], cache[key := 0], pending)
  {
  }

  /** A controller process that starts with no memory and a cache that shows the present. */
  lemma FreshProcess(h: History, cache: Cache)
    requires CacheOk(h, cache) && ExclusiveAssignments(h)
    requires forall key :: key in h ==> cache[key] == |h[key]| - 1
    ensures Consistent(h, cache, map[])
  {
  }

  // ---- Reconciling from a stale status ----

  ghost predicate Live(o: Option<Object>) { o.Some? && !Terminal(o.value.status.phase) }

  /**
   * A reconcile of `key` from the version the cache shows cannot break the invariant: it may forget what is pending and
   * write the assignments it saw, and both are harmless. A version without assignments is always safe to reconcile
   * from.
   */
  ghost predicate Reconcilable(h: History, cache: Cache, pending: Pending, key: string)
    requires CacheOk(h, cache)
  {
    key in h ==>
      var seen := h[key][cache[key]];
      && (seen.None? || seen.value.status.assignments != [] ==> ForgetOk(h, cache, key))
      && (seen.Some? && seen.value.status.assignments != [] && Live(Current(h, key)) ==>
            !Terminal(seen.value.status.phase) && WriteOk(h, cache, pending, key, seen.value.status.assignments))
  }

  /** The latest status is always one to reconcile from, whatever has happened to the spec. */
  lemma LatestIsReconcilable(h: History, cache: Cache, pending: Pending, key: string)
    requires Consistent(h, cache, pending) && (key in h ==> SameStatusSince(h[key], cache[key]))
    ensures Reconcilable(h, cache, pending, key)
  {
    if key in h && Current(h, key).Some? {
      assert StatusAt(h[key][|h[key]| - 1]) == StatusAt(h[key][cache[key]]);
      if Active(Current(h, key)) {
        var held := Current(h, key).value.status.assignments;
        forall v | cache[key] <= v < |h[key]| ensures Holds(h[key][v], held) {
          assert StatusAt(h[key][v]) == StatusAt(h[key][cache[key]]);
        }
      }
    }
  }

  /** Workload `b` was idle, held something and is idle again; `c` holds nothing. */
  function BackAndForth(b: string, c: string, idle: Object, held: Object, other: Object): History
    requires b != c
  {
    map[b := [Some(idle), Some(held), Some(idle)], c := [Some(other)]]
  }

  lemma BackAndForthIsConsistent(b: string, c: string, idle: Object, held: Object, other: Object)
    requires b != c && !Active(Some(idle)) && !Active(Some(other)) && Active(Some(held)) && Live(Some(idle))
    ensures var h, cache := BackAndForth(b, c, idle, held, other), map[b := 1, c := 0];
            Consistent(h, cache, map[]) && !Reconcilable(h, cache, map[], b)
  {
    var h, cache := BackAndForth(b, c, idle, held, other), map[b := 1, c := 0];
    assert h[b][2] == Some(idle) && !Holds(h[b][2], held.status.assignments);
  }

  /**
   * Why a stale status may not be written back. The cache still shows `b` holding devices it has given up. Writing that
   * status doubles nothing yet, but nobody will see it: once the cache moves on to the idle version nothing is
   * reserved, and `c` may be assigned the same devices.
   */
  lemma StaleWriteDoubles(b: string, c: string, idle: Object, held: Object, other: Object, mine: Object)
    requires b != c && !Active(Some(idle)) && !Active(Some(other)) && Active(Some(held)) && Active(Some(mine))
    requires Live(Some(idle)) && Devices(held.status.assignments) * Devices(mine.status.assignments) != {}
    ensures var h, cache := BackAndForth(b, c, idle, held, other), map[b := 1, c := 0];
            && Consistent(h, cache, map[]) && !Reconcilable(h, cache, map[], b)
            && var g := Append(h, b, Some(held));
               && ExclusiveAssignments(g) && !Consistent(g, cache, map[])
               && Reserves(g, cache[b := 2], map[], c, {})
               && !ExclusiveAssignments(Append(g, c, Some(mine)))
  {
    var h, cache := BackAndForth(b, c, idle, held, other), map[b := 1, c := 0];
    BackAndForthIsConsistent(b, c, idle, held, other);
    assert h.Keys == {b, c} && |h[b]| == 3 && h[b][2] == Some(idle);
    GivenUpAndWritten(h, cache, b, c, held);
    BothHold(Append(h, b, Some(held)), b, c, mine);
  }

  /** Writing back what `b` has given up: nothing doubles yet, and nothing is reserved once the cache moves on. */
  lemma GivenUpAndWritten(h: History, cache: Cache, b: string, c: string, held: Object)
    requires Consistent(h, cache, map[]) && h.Keys == {b, c} && b != c && cache[b] < |h[b]| - 1
    requires !Active(Current(h, b)) && Live(Current(h, b)) && !Active(Current(h, c)) && Active(Some(held))
    ensures var g := Append(h, b, Some(held));
            && Current(g, b) == Some(held) && ExclusiveAssignments(g) && !Consistent(g, cache, map[])
            && CacheOk(g, cache[b := |h[b]| - 1]) && Reserves(g, cache[b := |h[b]| - 1], map[], c, {})
  {
    var g, last := Append(h, b, Some(held)), |h[b]| - 1;
    CurrentAfterAppend(h, b, Some(held));
    FreeIsExclusive(h, g, b);
    assert !Holds(h[b][last], held.status.assignments);
    WriteConsistentIff(h, cache, map[], b, held);
    assert g[b][last] == h[b][last];
    NothingReserved(g, cache[b := last], b, c);
  }

  lemma NothingReserved(g: History, cache: Cache, b: string, c: string)
    requires CacheOk(g, cache) && g.Keys == {b, c} && !Active(g[b][cache[b]])
    ensures Reserves(g, cache, map[], c, {})
  {
  }

  lemma BothHold(g: History, b: string, c: string, mine: Object)
    requires b in g && c in g && b != c && Active(Current(g, b)) && Active(Some(mine))
    requires Devices(Current(g, b).value.status.assignments) * Devices(mine.status.assignments) != {}
    ensures !ExclusiveAssignments(Append(g, c, Some(mine)))
  {
    CurrentAfterAppend(g, c, Some(mine));
  }

  // ---- Pinned statuses ----

  ghost function PinnedGeneration(endpoints: seq<FabricEndpoint>, topology: WorkloadTopology,
                                  a: seq<RankAssignment>): Digest {
    Digest(Relevant(endpoints, RingOf(endpoints, topology, SelectedIDs(a))))
  }

  /** The assignment is connected in `endpoints`, and the status names the generation it has there. */
  ghost predicate PinnedTo(st: Status, endpoints: seq<FabricEndpoint>) {
    && st.specHash.Some? && UniqueIDs(endpoints)
    && Placed(endpoints, st.specHash.value.topology, SelectedIDs(st.assignments))
    && ConnectedSubgraph(IndexByID(endpoints), SelectedIDs(st.assignments))
    && st.fabricGeneration == Some(PinnedGeneration(endpoints, st.specHash.value.topology, st.assignments))
  }

  ghost predicate PinnedStatus(st: Status) { exists endpoints :: PinnedTo(st, endpoints) }

  /** Every unfinished assignment the cache shows or will show was connected in the fabric it is pinned to. */
  ghost predicate AllPinned(h: History, cache: Cache)
    requires CacheOk(h, cache)
  {
    forall key, v :: key in h && cache[key] <= v < |h[key]| && Active(h[key][v]) ==>
      PinnedStatus(h[key][v].value.status)
  }

  lemma AppendPinned(h: History, cache: Cache, key: string, o: Option<Object>)
    requires CacheOk(h, cache) && AllPinned(h, cache) && key in h && (Active(o) ==> PinnedStatus(o.value.status))
    ensures CacheOk(Append(h, key, o), cache) && AllPinned(Append(h, key, o), cache)
  {
    var g := Append(h, key, o);
    forall k, v | k in g && cache[k] <= v < |g[k]| && Active(g[k][v]) ensures PinnedStatus(g[k][v].value.status) {
      assert v < |h[k]| ==> g[k][v] == h[k][v];
    }
  }

  /** Changing phase and reason does not unpin a status. */
  lemma StaysPinned(st: Status, next: Status)
    requires PinnedStatus(st)
    requires next.assignments == st.assignments && next.specHash == st.specHash
    requires next.fabricGeneration == st.fabricGeneration
    ensures PinnedStatus(next)
  {
    var endpoints :| PinnedTo(st, endpoints);
    assert PinnedTo(next, endpoints);
  }

  /** The recorded spec and generation are those of this workload in the fabric at hand. */
  ghost predicate UpToDate(o: Object, endpoints: seq<FabricEndpoint>) {
    && o.status.specHash == Some(HashOf(o))
    && o.status.fabricGeneration == Some(PinnedGeneration(endpoints, o.workload.topology, o.status.assignments))
  }

  /**
   * As long as its recorded spec and generation are up to date, an unfinished assignment is connected in the fabric at
   * hand.
   */
  ghost predicate ConnectedWhilePinned(h: History, endpoints: seq<FabricEndpoint>) {
    forall key :: key in h && Active(Current(h, key)) && UpToDate(Current(h, key).value, endpoints) ==>
      ConnectedSubgraph(IndexByID(endpoints), SelectedIDs(Current(h, key).value.status.assignments))
  }

  lemma PinnedIsConnected(h: History, cache: Cache, endpoints: seq<FabricEndpoint>)
    requires CacheOk(h, cache) && AllPinned(h, cache) && UniqueIDs(endpoints)
    ensures ConnectedWhilePinned(h, endpoints)
  {
    forall key | key in h && Active(Current(h, key)) && UpToDate(Current(h, key).value, endpoints)
      ensures ConnectedSubgraph(IndexByID(endpoints), SelectedIDs(Current(h, key).value.status.assignments))
    {
      var o := Current(h, key).value;
      assert Active(h[key][|h[key]| - 1]);
      var before :| PinnedTo(o.status, before);
      GenerationPins(before, endpoints, o.workload.topology, SelectedIDs(o.status.assignments));
    }
  }

  // ---- What the reservations must contain ----

  /** The devices the controller sees as taken by workloads other than `key`. */
  ghost predicate Reserves(h: History, cache: Cache, pending: Pending, key: string, used: set<DeviceID>)
    requires CacheOk(h, cache)
  {
    && (forall k :: k in pending && k != key ==> Devices(pending[k]) <= used)
    && (forall k :: k in h && k != key && Active(h[k][cache[k]]) ==>
          Devices(h[k][cache[k]].value.status.assignments) <= used)
  }

  /** Even where the cache lags, everything another workload holds is reserved. */
  lemma ReservationsComplete(h: History, cache: Cache, pending: Pending, key: string, used: set<DeviceID>,
                             other: string)
    requires Consistent(h, cache, pending) && Reserves(h, cache, pending, key, used)
    requires other in h && other != key && Active(Current(h, other))
    ensures Devices(Current(h, other).value.status.assignments) <= used
  {
  }
}
