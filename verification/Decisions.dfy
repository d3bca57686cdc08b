/** What a reconcile decides for a workload, from what it sees. */
module Decisions {
  import opened Ordering
  import opened Api
  import opened Connectivity
  import opened Topology
  import opened Generation
  import opened Placement
  import opened Solver
  import opened PlacementTheorems
  import opened Reconcile
  import opened Pinning

  datatype PodPhase = PodPending | PodRunning | PodSucceeded | PodFailed

  /** `unschedulable`: some PodScheduled condition is false for that reason. */
  datatype Pod = Pod(phase: PodPhase, hasStartTime: bool, unschedulable: bool)

  type Pods = map<ChildName, Pod>

  /** A cached ResourceClaim: the workload key its labels name and the devices allocated to it. */
  datatype ClaimView = ClaimView(workloadKey: string, devices: seq<DeviceID>)

  const MAX_WORKLOADS := 1000

  // ---- What the rank Pods show ----

  ghost predicate FailedAt(a: seq<RankAssignment>, pods: Pods, i: nat)
    requires i < |a|
  {
    a[i].podName in pods && pods[a[i].podName].phase == PodFailed
  }

  ghost predicate StoppedAt(a: seq<RankAssignment>, pods: Pods, i: nat)
    requires i < |a|
  {
    a[i].podName in pods && (pods[a[i].podName].phase == PodFailed || pods[a[i].podName].unschedulable)
  }

  ghost predicate StartedAt(a: seq<RankAssignment>, pods: Pods, i: nat)
    requires i < |a|
  {
    && a[i].podName in pods && !FailedAt(a, pods, i)
    && (pods[a[i].podName].hasStartTime || pods[a[i].podName].phase == PodRunning)
  }

  ghost predicate SucceededAt(a: seq<RankAssignment>, pods: Pods, i: nat)
    requires i < |a|
  {
    a[i].podName in pods && pods[a[i].podName].phase == PodSucceeded
  }

  ghost predicate NoneStopped(a: seq<RankAssignment>, pods: Pods, before: nat)
    requires before <= |a|
  {
    forall i :: 0 <= i < before ==> !StoppedAt(a, pods, i)
  }

  /** A rank has started that the scan reaches: no earlier rank is failed or unschedulable. */
  ghost predicate RankStarted(a: seq<RankAssignment>, pods: Pods) {
    exists j :: 0 <= j < |a| && StartedAt(a, pods, j) && NoneStopped(a, pods, j)
  }

  ghost predicate AllSucceeded(a: seq<RankAssignment>, pods: Pods) {
    NoneStopped(a, pods, |a|) && forall i :: 0 <= i < |a| ==> SucceededAt(a, pods, i)
  }

  ghost predicate RankFailed(a: seq<RankAssignment>, pods: Pods) {
    exists j :: 0 <= j < |a| && FailedAt(a, pods, j) && NoneStopped(a, pods, j)
  }

  ghost predicate RankUnschedulable(a: seq<RankAssignment>, pods: Pods) {
    exists j :: 0 <= j < |a| && StoppedAt(a, pods, j) && !FailedAt(a, pods, j) && NoneStopped(a, pods, j)
  }

  lemma {:induction false} StoppersAgree(a: seq<RankAssignment>, pods: Pods, i: nat, j: nat)
    requires i < |a| && j < |a| && StoppedAt(a, pods, i) && StoppedAt(a, pods, j)
    requires NoneStopped(a, pods, i) && NoneStopped(a, pods, j)
    ensures i == j
  {
  }

  // ---- What other workloads hold ----

  /** The version of a workload that the cache shows. */
  ghost function Shown(h: History, cache: Cache, key: string): Option<Object> {
    if key in h && key in cache && cache[key] < |h[key]| then h[key][cache[key]] else None
  }

  /** Everything that is pending, claimed or held in the cache for others than `key`. */
  ghost function TakenByOthers(h: History, cache: Cache, pending: Pending, claims: seq<ClaimView>,
                               key: string): set<DeviceID> {
    (set k, d | k in pending && k != key && d in Devices(pending[k]) :: d) +
    (set i, d | 0 <= i < |claims| && claims[i].workloadKey != key && d in claims[i].devices :: d) +
    (set k, d | k in h && k != key && Active(Shown(h, cache, k))
                && d in Devices(Shown(h, cache, k).value.status.assignments) :: d)
  }

  /** More workloads are shown than the controller supports. */
  ghost predicate Oversized(h: History, cache: Cache) { |set k | k in h && Shown(h, cache, k).Some?| > 1000 }

  // ---- Requests to the API server ----

  /** The objects created for a rank; the names carry the workload's UID. */
  datatype Child = RankClaim(name: ChildName) | RankPod(name: ChildName)

  /** A request with its outcome, or a search with whether it was stopped. */
  datatype Request =
    | Deleted(child: Child, ok: bool)
    | Ensured(child: Child, ok: bool)
    | Updated(key: string, ok: bool)
    | Searched(stopped: bool)

  ghost predicate Granted(r: Request) {
    match r
    case Deleted(child, ok) => ok
    case Ensured(child, ok) => ok
    case Updated(key, ok) => ok
    case Searched(stopped) => !stopped
  }

  /** Every request from `from` on was granted. */
  ghost predicate AllGranted(requests: seq<Request>, from: nat) {
    forall i :: from <= i < |requests| ==> Granted(requests[i])
  }

  lemma GrantedBefore(requests: seq<Request>, later: seq<Request>, from: nat)
    requires requests <= later && AllGranted(later, from)
    ensures AllGranted(requests, from)
  {
    forall i | from <= i < |requests| ensures Granted(requests[i]) { assert later[i] == requests[i]; }
  }

  /** The status was written, if anything was; and it holds unless a request was refused or the workload is finished. */
  ghost predicate Written(h: History, g: History, key: string, status: Status, calm: bool) {
    g != h || (calm && Live(Current(h, key))) ==>
      Current(g, key).Some? && Current(g, key).value.status == status
  }

  // ---- The decision ----

  /** What a reconcile looks at; `calm` says that every request it made was granted. */
  datatype View = View(taken: set<DeviceID>, fabric: FabricStatus, oversized: bool, specValid: bool, pods: Pods,
                       calm: bool)

  ghost predicate Started(o: Object, v: View) {
    RankStarted(o.status.assignments, v.pods) || AllSucceeded(o.status.assignments, v.pods)
  }

  /** Something else holds an assigned device. */
  ghost predicate Robbed(o: Object, v: View) {
    exists a, d :: a in o.status.assignments && d in a.devices && DeviceID(d.pool, d.name) in v.taken
  }

  ghost predicate SpecChanged(o: Object) {
    o.status.specHash.Some? && o.status.specHash.value != SpecHash(o.workload.topology, o.workload.ranks, o.template)
  }

  /** The recorded spec or the recorded generation is not the one at hand. */
  ghost predicate Outdated(o: Object, v: View) {
    || SpecChanged(o)
    || o.status.fabricGeneration !=
       Some(PinnedGeneration(v.fabric.endpoints, o.workload.topology, o.status.assignments))
  }

  /**
   * The phase written for a workload that is seen with assignments and is not finished, from the Pods, the
   * reservations, the recorded spec and the recorded generation.
   */
  ghost predicate PhaseDecided(o: Object, v: View, phase: Phase) {
    var a, pods := o.status.assignments, v.pods;
    && (phase == Succeeded <==> AllSucceeded(a, pods) && !Robbed(o, v))
    && (phase == Failed <==> RankFailed(a, pods) && !Robbed(o, v))
    && (phase == Degraded <==>
          Started(o, v) && (Robbed(o, v) || (!RankFailed(a, pods) && !AllSucceeded(a, pods) && Outdated(o, v))))
    && (phase == Pending <==>
          !Started(o, v) && (Robbed(o, v) || RankUnschedulable(a, pods) || (!RankFailed(a, pods) && Outdated(o, v))))
    && (phase == Running <==>
          RankStarted(a, pods) && !RankUnschedulable(a, pods) && !RankFailed(a, pods) && !AllSucceeded(a, pods)
          && !Robbed(o, v) && !Outdated(o, v))
    && phase in {Succeeded, Failed, Degraded, Pending, Running, Assigned}
  }

  /** What `observedPhase` makes of the Pods. */
  ghost predicate Observed(a: seq<RankAssignment>, pods: Pods, phase: Phase, reason: string, started: bool) {
    && (phase == Failed <==> RankFailed(a, pods)) && (phase == Succeeded <==> AllSucceeded(a, pods))
    && (started <==> RankStarted(a, pods) || AllSucceeded(a, pods))
    && (phase == Running <==>
          RankStarted(a, pods) && !RankFailed(a, pods) && !RankUnschedulable(a, pods) && !AllSucceeded(a, pods))
    && phase in {Assigned, Running, Failed, Succeeded}
    && (reason == "Unschedulable" <==> RankUnschedulable(a, pods))
    && (phase == Assigned && reason != "Unschedulable" ==> reason == "ChildrenPending")
    && (phase == Failed ==> reason == "RankFailed") && (phase == Succeeded ==> reason == "RanksSucceeded")
    && (phase == Running ==> reason == "RanksRunning")
  }

  /** The reason that goes with the phase. */
  ghost predicate ReasonDecided(o: Object, v: View, phase: Phase, reason: string) {
    reason == match phase
      case Succeeded => "RanksSucceeded"
      case Failed => "RankFailed"
      case Degraded =>
        if Robbed(o, v) then "DeviceClaimed" else if SpecChanged(o) then "SpecChanged" else "FabricChanged"
      case Pending => if Robbed(o, v) || RankUnschedulable(o.status.assignments, v.pods) then "Replanning" else ""
      case Running => "RanksRunning"
      case _ => if RankUnschedulable(o.status.assignments, v.pods) then "Unschedulable" else "ChildrenPending"
  }

  /** Assignments are given up only on the way back to Pending; the spec is recorded when they are kept as they are. */
  ghost predicate AssignedDecided(o: Object, v: View, now: Status) {
    && PhaseDecided(o, v, now.phase) && ReasonDecided(o, v, now.phase, now.reason)
    && (if now.phase == Pending then now.assignments == [] && now.fabricGeneration.None?
        else now.assignments == o.status.assignments && now.fabricGeneration == o.status.fabricGeneration)
    && now.specHash == if now.phase in {Pending, Running, Assigned} then Some(HashOf(o)) else o.status.specHash
  }

  /** No choice of free, fit devices for the ranks is connected. */
  ghost predicate NoChoiceFits(w: Workload, endpoints: seq<FabricEndpoint>, taken: set<DeviceID>) {
    forall c :: IsChoice(Problem(w, endpoints, taken), c) ==>
      !ConnectedSubgraph(IndexByID(endpoints), ChoiceIDs(c))
  }

  /** The assignment is the solver's for the spec that was reconciled, and pinned to the ring it lies in. */
  ghost predicate SolvedOn(o: Object, v: View, now: Status) {
    && Solved(o.workload, v.fabric.endpoints, v.taken, now.assignments)
    && now.fabricGeneration == Some(PinnedGeneration(v.fabric.endpoints, o.workload.topology, now.assignments))
  }

  /**
   * What is written for a workload that is seen without assignments: the solver's answer on a valid fabric, if there is
   * one. "Unsatisfied" means that there is none, and an error that the workload is too large or the search was stopped.
   */
  ghost predicate PlacingDecided(o: Object, v: View, now: Status) {
    if now.phase == Assigned then
      && v.fabric.valid && SolvedOn(o, v, now) && now.reason == "Assigned" && now.specHash == Some(HashOf(o))
      && WithinLimits(o.workload, v.fabric.endpoints, DEFAULT_LIMITS)
    else
      && now.phase == Pending && now.assignments == []
      && (now.reason == "FabricInvalid" <==> !v.fabric.valid)
      && (now.reason == "Unsatisfied" ==>
            NoChoiceFits(o.workload, v.fabric.endpoints, v.taken)
            && WithinLimits(o.workload, v.fabric.endpoints, DEFAULT_LIMITS))
      && (now.reason == "PlacementError" ==>
            !WithinLimits(o.workload, v.fabric.endpoints, DEFAULT_LIMITS) || !v.calm)
      && now.reason in {"FabricInvalid", "Unsatisfied", "PlacementError"}
      && now.specHash == (if now.reason == "PlacementError" then o.status.specHash else Some(HashOf(o)))
      && now.fabricGeneration ==
         if now.reason == "Unsatisfied" then Some(PinnedGeneration(v.fabric.endpoints, o.workload.topology, []))
         else o.status.fabricGeneration
  }

  /** The status that reconciling from `o` writes. */
  ghost predicate Decided(o: Object, v: View, now: Status) {
    if v.oversized then
      now == o.status.(phase := if o.status.assignments != [] then Degraded else Pending,
                       reason := "ClusterScaleExceeded")
    else if !v.specValid then
      now == o.status.(phase := Failed, reason := "InvalidSpec", specHash := Some(HashOf(o)))
    else if o.status.assignments == [] then PlacingDecided(o, v, now)
    else AssignedDecided(o, v, now)
  }

  /** A finished workload is only cleaned up. */
  ghost predicate Finished(o: Object, v: View) {
    !v.oversized && v.specValid && o.status.assignments != [] && Terminal(o.status.phase)
  }

  /** The assignments are kept as they are, so a child is wanted for each rank. */
  ghost predicate Keeps(o: Object, v: View) {
    && !v.oversized && v.specValid && o.status.assignments != []
    && exists phase :: phase in {Running, Assigned} && PhaseDecided(o, v, phase)
  }

  /**
   * Whatever a reconcile writes is what was decided. If every request was granted and the workload is not finished, it
   * is written or already there; only the children of assignments that do not match the ranks cannot be made.
   */
  ghost predicate PhaseLaw(h: History, g: History, key: string, seen: Option<Object>, v: View) {
    if seen.None? || Finished(seen.value, v) then g == h
    else
      g != h || (v.calm && Live(Current(h, key)) && (Keeps(seen.value, v) ==> RanksMatch(seen.value))) ==>
        Current(g, key).Some? && Decided(seen.value, v, Current(g, key).value.status)
  }

  function ChildrenOf(a: seq<RankAssignment>): set<Child> {
    (set x | x in a :: RankClaim(x.claimName)) + (set x | x in a :: RankPod(x.podName))
  }

  /** If every request was granted, an assignment that is kept or new has a claim and a Pod for each rank. */
  ghost predicate ChildrenMade(h: History, g: History, key: string, seen: Option<Object>, v: View, left: set<Child>) {
    && seen.Some? && !v.oversized && v.specValid && !Finished(seen.value, v) && v.calm && Live(Current(h, key))
    && (Keeps(seen.value, v) ==> RanksMatch(seen.value))
    && Current(g, key).Some? && Current(g, key).value.status.phase in {Running, Assigned}
    ==> ChildrenOf(Current(g, key).value.status.assignments) <= left
  }

  ghost predicate RanksMatch(o: Object) { |o.status.assignments| == |o.workload.ranks| }

  // ---- Each branch of `reconcileWorkload` writes what is decided ----

  lemma RobbedIsReserved(o: Object, v: View)
    ensures Robbed(o, v) <==> Devices(o.status.assignments) * v.taken != {}
  {
    if Robbed(o, v) {
      var a, d :| a in o.status.assignments && d in a.devices && DeviceID(d.pool, d.name) in v.taken;
      assert DeviceID(d.pool, d.name) in Devices(o.status.assignments) * v.taken;
    }
  }

  /** Whether every request was granted is nothing a decision about an assignment looks at. */
  lemma CalmAside(o: Object, v: View, calm: bool)
    ensures forall now :: AssignedDecided(o, v, now) ==> AssignedDecided(o, v.(calm := calm), now)
    ensures Keeps(o, v) <==> Keeps(o, v.(calm := calm))
  {
    var w := v.(calm := calm);
    assert Robbed(o, v) <==> Robbed(o, w);
    assert forall phase :: PhaseDecided(o, v, phase) <==> PhaseDecided(o, w, phase);
  }

  /** A decided status that ends or interrupts the assignment needs no children. */
  lemma WrittenIsLawful(h: History, g: History, key: string, o: Object, v: View, status: Status, calm: bool,
                        left: set<Child>)
    requires Written(h, g, key, status, calm) && o.status.assignments != [] && !Terminal(o.status.phase)
    requires !v.oversized && v.specValid && AssignedDecided(o, v, status) && status.phase !in {Running, Assigned}
    ensures PhaseLaw(h, g, key, Some(o), v.(calm := calm)) && ChildrenMade(h, g, key, Some(o), v.(calm := calm), left)
  {
    CalmAside(o, v, calm);
  }

  /** A decided status that keeps the assignment comes with its children. */
  lemma KeptIsLawful(h: History, g: History, key: string, o: Object, v: View, status: Status, calm: bool,
                     left: set<Child>)
    requires Written(h, g, key, status, calm && RanksMatch(o)) && Keeps(o, v) && !Terminal(o.status.phase)
    requires AssignedDecided(o, v, status) && status.assignments == o.status.assignments
    requires calm && RanksMatch(o) ==> ChildrenOf(o.status.assignments) <= left
    ensures PhaseLaw(h, g, key, Some(o), v.(calm := calm)) && ChildrenMade(h, g, key, Some(o), v.(calm := calm), left)
  {
    CalmAside(o, v, calm);
  }

  /** A rank has started and the assignment is lost, or the spec or the fabric moved on. */
  lemma DegradedIsDecided(o: Object, v: View, phase: Phase, reason: string, why: string)
    requires Observed(o.status.assignments, v.pods, phase, reason, true)
    requires Robbed(o, v) || (!Terminal(phase) && Outdated(o, v))
    requires why == if Robbed(o, v) then "DeviceClaimed" else if SpecChanged(o) then "SpecChanged" else "FabricChanged"
    ensures AssignedDecided(o, v, o.status.(phase := Degraded, reason := why))
  {
    FailedNotSucceeded(o.status.assignments, v.pods);
  }

  lemma FailedNotSucceeded(a: seq<RankAssignment>, pods: Pods)
    ensures !(RankFailed(a, pods) && AllSucceeded(a, pods)) && !(RankUnschedulable(a, pods) && AllSucceeded(a, pods))
    ensures !(RankFailed(a, pods) && RankUnschedulable(a, pods))
  {
    if RankFailed(a, pods) {
      var j :| 0 <= j < |a| && FailedAt(a, pods, j) && NoneStopped(a, pods, j);
      assert StoppedAt(a, pods, j);
      forall i | 0 <= i < |a| && StoppedAt(a, pods, i) && NoneStopped(a, pods, i) ensures i == j {
        StoppersAgree(a, pods, i, j);
      }
    }
  }

  /** No rank has started and the assignment is lost or cannot be used. */
  lemma ReplanIsDecided(o: Object, v: View, phase: Phase, reason: string, early: bool)
    requires Observed(o.status.assignments, v.pods, phase, reason, false)
    requires early <==> Robbed(o, v) || RankUnschedulable(o.status.assignments, v.pods)
    requires early || (!Terminal(phase) && Outdated(o, v))
    ensures AssignedDecided(o, v, Status(Pending, Some(HashOf(o)), None, [], if early then "Replanning" else ""))
  {
    FailedNotSucceeded(o.status.assignments, v.pods);
  }

  lemma FinishIsDecided(o: Object, v: View, phase: Phase, reason: string, started: bool)
    requires Observed(o.status.assignments, v.pods, phase, reason, started) && Terminal(phase) && !Robbed(o, v)
    ensures AssignedDecided(o, v, o.status.(phase := phase, reason := reason))
  {
    FailedNotSucceeded(o.status.assignments, v.pods);
  }

  lemma KeepIsDecided(o: Object, v: View, phase: Phase, reason: string, started: bool)
    requires Observed(o.status.assignments, v.pods, phase, reason, started) && !Terminal(phase)
    requires !Robbed(o, v) && !Outdated(o, v) && (reason == "Unschedulable" ==> started)
    requires !v.oversized && v.specValid && o.status.assignments != []
    ensures AssignedDecided(o, v, o.status.(phase := phase, reason := reason, specHash := Some(HashOf(o))))
    ensures Keeps(o, v)
  {
    FailedNotSucceeded(o.status.assignments, v.pods);
    assert PhaseDecided(o, v, phase);
  }

  /** A workload that is not placed needs no children. */
  lemma UnplacedIsLawful(h: History, g: History, key: string, o: Object, v: View, status: Status, failed: bool,
                         left: set<Child>)
    requires !v.oversized && v.specValid && o.status.assignments == [] && v.fabric.valid
    requires if failed then !WithinLimits(o.workload, v.fabric.endpoints, DEFAULT_LIMITS) || !v.calm
             else && NoChoiceFits(o.workload, v.fabric.endpoints, v.taken)
                  && WithinLimits(o.workload, v.fabric.endpoints, DEFAULT_LIMITS)
    requires var generation := PinnedGeneration(v.fabric.endpoints, o.workload.topology, []);
             status == if failed then o.status.(phase := Pending, reason := "PlacementError")
                       else o.status.(phase := Pending, reason := "Unsatisfied", specHash := Some(HashOf(o)),
                                      fabricGeneration := Some(generation))
    requires Written(h, g, key, status, v.calm)
    ensures PhaseLaw(h, g, key, Some(o), v) && ChildrenMade(h, g, key, Some(o), v, left)
  {
    assert Decided(o, v, status);
  }

  /** A solved assignment has an entry for each rank. */
  lemma SolvedMatches(w: Workload, endpoints: seq<FabricEndpoint>, used: set<DeviceID>, a: seq<RankAssignment>)
    requires Solved(w, endpoints, used, a)
    ensures |a| == |w.ranks|
  {
    var candidates :| SolvedOver(w, endpoints, used, a, candidates);
    var p := Problem(w, candidates, used);
    var plan :| First(p, [], plan) && a == Assignments(p, plan);
    PlacementSound(p, plan);
  }

  /** A solved assignment, once written, comes with its children. */
  lemma SolvedIsLawful(h: History, g: History, key: string, o: Object, v: View, status: Status, calm: bool,
                       left: set<Child>)
    requires !v.oversized && v.specValid && o.status.assignments == [] && v.fabric.valid
    requires WithinLimits(o.workload, v.fabric.endpoints, DEFAULT_LIMITS) && SolvedOn(o, v, status)
    requires status.phase == Assigned && status.reason == "Assigned" && status.specHash == Some(HashOf(o))
    requires Written(h, g, key, status, calm)
    requires calm && |status.assignments| == |o.workload.ranks| ==>
               Live(Current(h, key)) ==> ChildrenOf(status.assignments) <= left
    ensures PhaseLaw(h, g, key, Some(o), v.(calm := calm)) && ChildrenMade(h, g, key, Some(o), v.(calm := calm), left)
  {
    SolvedMatches(o.workload, v.fabric.endpoints, v.taken, status.assignments);
  }

  /** A plain "no" of the solver on a valid fabric rules out every choice. */
  lemma NoIsFinal(w: Workload, endpoints: seq<FabricEndpoint>, taken: set<DeviceID>, candidates: seq<FabricEndpoint>,
                  a: seq<RankAssignment>)
    requires FromValidFabric(endpoints, candidates) && Answer(Problem(w, candidates, taken), false, a)
    ensures NoChoiceFits(w, endpoints, taken)
  {
    var p, q := Problem(w, endpoints, taken), Problem(w, candidates, taken);
    IndexPermutation(endpoints, candidates);
    forall c | IsChoice(p, c) ensures !ConnectedSubgraph(IndexByID(endpoints), ChoiceIDs(c)) {
      SameChoice(p, q, c);
      NoConnectedChoice(q, endpoints, a, c);
    }
  }

  lemma SameChoice(p: Problem, q: Problem, c: Choice)
    requires p.workload == q.workload && p.reserved == q.reserved && multiset(p.candidates) == multiset(q.candidates)
    requires IsChoice(p, c)
    ensures IsChoice(q, c)
  {
    forall r | 0 <= r < |c| ensures RankChoice(q, q.workload.ranks[r], c[r]) {
      forall e | e in c[r] ensures Fits(q, q.workload.ranks[r], e) {
        assert Fits(p, p.workload.ranks[r], e);
        MultisetMember(p.candidates, q.candidates, e);
      }
    }
  }
}
