/** The workload controller: reserving, assigning, freezing and cleaning up. */
module Controller {
  import opened Ordering
  import opened Api
  import opened Connectivity
  import opened Topology
  import opened Generation
  import opened Placement
  import opened Solver
  import opened PlacementTheorems
  import opened Reconcile
  import opened Pinning
  import opened Decisions

  // ---- What the rank Pods show ----

  /** `observedPhase`: the first failed or unschedulable rank decides; otherwise all ranks together. */
  method ObservedPhase(a: seq<RankAssignment>, pods: Pods) returns (phase: Phase, reason: string, started: bool)
    ensures phase == Failed <==> RankFailed(a, pods)
    ensures reason == "Unschedulable" <==> RankUnschedulable(a, pods)
    ensures phase == Succeeded <==> AllSucceeded(a, pods)
    ensures started <==> RankStarted(a, pods) || AllSucceeded(a, pods)
    ensures phase == Running <==>
              RankStarted(a, pods) && !RankFailed(a, pods) && !RankUnschedulable(a, pods) && !AllSucceeded(a, pods)
    ensures phase in {Assigned, Running, Failed, Succeeded}
    ensures Observed(a, pods, phase, reason, started)
  {
    started := false;
    var succeeded := 0;
    for i := 0 to |a|
      invariant NoneStopped(a, pods, i)
      invariant started <==> exists j :: 0 <= j < i && StartedAt(a, pods, j)
      invariant succeeded <= i && (succeeded == i <==> forall j :: 0 <= j < i ==> SucceededAt(a, pods, j))
    {
      assert (forall j :: 0 <= j < i + 1 ==> SucceededAt(a, pods, j)) <==>
             (forall j :: 0 <= j < i ==> SucceededAt(a, pods, j)) && SucceededAt(a, pods, i);
      if a[i].podName !in pods {
        continue;
      }
      var pod := pods[a[i].podName];
      if pod.phase == PodFailed {
        assert FailedAt(a, pods, i) && StoppedAt(a, pods, i);
        forall j | 0 <= j < |a| && StoppedAt(a, pods, j) && NoneStopped(a, pods, j)
          ensures j == i
        {
          StoppersAgree(a, pods, i, j);
        }
        return Failed, "RankFailed", started;
      }
      if pod.phase == PodSucceeded {
        succeeded := succeeded + 1;
      }
      if pod.hasStartTime || pod.phase == PodRunning {
        assert StartedAt(a, pods, i);
        started := true;
      }
      if pod.unschedulable {
        assert StoppedAt(a, pods, i);
        forall j | 0 <= j < |a| && StoppedAt(a, pods, j) && NoneStopped(a, pods, j)
          ensures j == i
        {
          StoppersAgree(a, pods, i, j);
        }
        return Assigned, "Unschedulable", started;
      }
    }
    forall j | 0 <= j < |a| ensures !FailedAt(a, pods, j) { assert !StoppedAt(a, pods, j); }
    if succeeded == |a| {
      return Succeeded, "RanksSucceeded", true;
    }
    if started {
      return Running, "RanksRunning", true;
    }
    return Assigned, "ChildrenPending", false;
  }

  /** `assignmentsReserved`. */
  method AssignmentsReserved(a: seq<RankAssignment>, used: set<DeviceID>) returns (found: bool)
    ensures found <==> Devices(a) * used != {}
  {
    for i := 0 to |a|
      invariant Devices(a[..i]) !! used
    {
      for j := 0 to |a[i].devices|
        invariant forall k :: 0 <= k < j ==> DeviceID(a[i].devices[k].pool, a[i].devices[k].name) !in used
      {
        var id := DeviceID(a[i].devices[j].pool, a[i].devices[j].name);
        if id in used {
          assert a[i] in a && a[i].devices[j] in a[i].devices;
          assert id in Devices(a) * used;
          return true;
        }
      }
      assert a[..i + 1] == a[..i] + [a[i]];
    }
    assert a[..|a|] == a;
    found := false;
  }

  /** An assignment that avoids everything reserved conflicts with no other workload. */
  lemma AssignmentFits(h: History, cache: Cache, pending: Pending, key: string, o: Object, used: set<DeviceID>)
    requires Consistent(h, cache, pending) && key in h && Reserves(h, cache, pending, key, used)
    requires Devices(o.status.assignments) !! used
    ensures Consistent(Append(h, key, Some(o)), cache, pending[key := o.status.assignments])
  {
    forall k | k in h && k != key && Active(Current(h, k))
      ensures Devices(Current(h, k).value.status.assignments) !! Devices(o.status.assignments)
    {
      ReservationsComplete(h, cache, pending, key, used, k);
    }
    WriteAssigns(h, cache, pending, key, o);
  }

  // ---- Children ----

  lemma ChildrenOfNext(a: seq<RankAssignment>, i: nat)
    requires i < |a|
    ensures ChildrenOf(a[..i + 1]) == ChildrenOf(a[..i]) + {RankClaim(a[i].claimName), RankPod(a[i].podName)}
    ensures ChildrenOf(a[..i + 1]) <= ChildrenOf(a)
  {
    assert a[..i + 1] == a[..i] + [a[i]];
  }

  /** The fabric is one `BuildFabric` can report. */
  ghost predicate FabricOk(f: FabricStatus) { Canonical(f.endpoints) && (f.valid ==> LinksSound(f.endpoints)) }

  /** The fabric before the first observation, and after one that could not be decoded. */
  const NO_FABRIC := FabricStatus(Digest([]), 0, false, [], [])

  /** No device is held twice, everything held is covered, and every assignment is pinned. */
  ghost predicate Sound(h: History, cache: Cache, pending: Pending) {
    Consistent(h, cache, pending) && AllPinned(h, cache)
  }

  // ---- What one reconcile may do ----

  /** At most the status of `key` was written; a terminal phase stayed. */
  ghost predicate Stepped(h: History, g: History, key: string) {
    && OthersSame(h, g, key)
    && match Current(h, key)
       case None => g == h
       case Some(o) =>
         && Current(g, key).Some?
         && (g == h || (key in h && g == Append(h, key, Some(o.(status := Current(g, key).value.status)))))
         && (Terminal(o.status.phase) ==> Current(g, key).value.status.phase == o.status.phase)
  }

  /**
   * Children go only from the assignment that was seen and, once a rank has started, only if the workload is or gets
   * finished.
   */
  ghost predicate ChildLaw(children: set<Child>, left: set<Child>, seen: Status, pods: Pods) {
    && children - left <= ChildrenOf(seen.assignments)
    && (RankStarted(seen.assignments, pods) && !(children <= left) ==>
          Terminal(seen.phase) || RankFailed(seen.assignments, pods) || AllSucceeded(seen.assignments, pods))
  }

  /** The assignment is kept or, before a rank has started, given up once none of its children is left. */
  ghost predicate AssignLaw(seen: Status, latest: Status, now: Status, left: set<Child>, pods: Pods) {
    || now.assignments == latest.assignments || now.assignments == seen.assignments
    || (now.assignments == [] && left !! ChildrenOf(seen.assignments) && !RankStarted(seen.assignments, pods))
  }

  /**
   * Children are created for an assignment that the status holds, or held when it was seen, unless the workload is
   * finished.
   */
  ghost predicate NewChildLaw(children: set<Child>, left: set<Child>, seen: Status, latest: Status, now: Status) {
    left - children <= ChildrenOf(seen.assignments) + ChildrenOf(now.assignments) || Terminal(latest.phase)
  }

  /** One reconcile of `key` that saw the version `seen`. */
  ghost predicate ReconcileLaw(h: History, children: set<Child>, g: History, left: set<Child>, key: string,
                               seen: Option<Object>, pods: Pods) {
    && Stepped(h, g, key)
    && (seen.None? ==> g == h && left == children)
    && (seen.Some? ==>
          && ChildLaw(children, left, seen.value.status, pods)
          && (Current(h, key).None? ==> left - children <= ChildrenOf(seen.value.status.assignments))
          && (Current(h, key).Some? ==>
                var latest, now := Current(h, key).value.status, Current(g, key).value.status;
                && NewChildLaw(children, left, seen.value.status, latest, now)
                && (seen.value.status.assignments != [] ==> AssignLaw(seen.value.status, latest, now, left, pods))))
  }

  /** Children were created for `a`, and the status holds it unless the workload was finished. */
  ghost predicate Created(children: set<Child>, left: set<Child>, latest: Status, now: Status, a: seq<RankAssignment>) {
    && children <= left && left - children <= ChildrenOf(a)
    && (left != children ==> (now.assignments == a <==> !Terminal(latest.phase) || latest.assignments == a))
  }

  class WorkloadController {
    var history: History
    var cache: Cache
    var pending: Pending
    var fabric: FabricStatus
    var children: set<Child>
    ghost var requests: seq<Request>

    /** A new process: nothing pending, informer caches in sync. */
    constructor (history: History, cache: Cache, children: set<Child>)
      requires CacheOk(history, cache) && ExclusiveAssignments(history) && AllPinned(history, cache)
      requires forall key :: key in history ==> cache[key] == |history[key]| - 1
      ensures Valid() && this.history == history && this.cache == cache && this.children == children
      ensures pending == map[] && fabric == NO_FABRIC && requests == []
    {
      this.history, this.cache, this.children, this.fabric := history, cache, children, NO_FABRIC;
      pending, requests := map[], [];
      FreshProcess(history, cache);
    }

    /** Holds of every controller, whatever it has reconciled from. */
    ghost predicate Base()
      reads this`history, this`cache, this`fabric
    {
      CacheOk(history, cache) && FabricOk(fabric)
    }

    ghost predicate IsSound()
      reads this`history, this`cache, this`pending
    {
      Sound(history, cache, pending)
    }

    ghost predicate Valid()
      reads this`history, this`cache, this`pending, this`fabric
    {
      Base() && IsSound()
    }

    /** The cache shows `o`; neither its status nor its spec need be the latest. */
    ghost predicate Shows(key: string, o: Object)
      reads this`history, this`cache
    {
      CacheOk(history, cache) && key in history && history[key][cache[key]] == Some(o)
    }

    /** A reconcile of `key` from what the cache shows cannot break the invariant. */
    ghost predicate SafeFrom(key: string)
      reads this`history, this`cache, this`pending
    {
      CacheOk(history, cache) && Reconcilable(history, cache, pending, key)
    }

    /** Something other than `exclude` holds the device: a pending or cached assignment, or a claim. */
    ghost predicate ReservedElsewhere(exclude: string, claims: seq<ClaimView>, d: DeviceID)
      reads this`history, this`cache, this`pending
      requires CacheOk(history, cache)
    {
      || (exists k :: k in pending && k != exclude && d in Devices(pending[k]))
      || (exists i :: 0 <= i < |claims| && claims[i].workloadKey != exclude && d in claims[i].devices)
      || (exists k :: k in history && k != exclude && Active(history[k][cache[k]])
                      && d in Devices(history[k][cache[k]].value.status.assignments))
    }

    /** `reservations`. */
    method Reservations(exclude: string, claims: seq<ClaimView>) returns (used: set<DeviceID>)
      requires CacheOk(history, cache)
      ensures Reserves(history, cache, pending, exclude, used)
      ensures forall i, d :: 0 <= i < |claims| && claims[i].workloadKey != exclude && d in claims[i].devices ==>
                d in used
      ensures forall d :: d in used ==> ReservedElsewhere(exclude, claims, d)
      ensures used == TakenByOthers(history, cache, pending, claims, exclude)
    {
      used := {};
      var rest := pending.Keys;
      while rest != {}
        invariant rest <= pending.Keys
        invariant forall k :: k in pending && k !in rest && k != exclude ==> Devices(pending[k]) <= used
        invariant forall d :: d in used ==> ReservedElsewhere(exclude, claims, d)
        decreases rest
      {
        var k :| k in rest;
        rest := rest - {k};
        if k != exclude {
          used := used + Devices(pending[k]);
        }
      }
      for i := 0 to |claims|
        invariant forall k :: k in pending && k != exclude ==> Devices(pending[k]) <= used
        invariant forall d :: d in used ==> ReservedElsewhere(exclude, claims, d)
        invariant forall j, d :: 0 <= j < i && claims[j].workloadKey != exclude && d in claims[j].devices ==> d in used
      {
        if claims[i].workloadKey != exclude {
          used := used + set d | d in claims[i].devices;
        }
      }
      rest := history.Keys;
      while rest != {}
        invariant rest <= history.Keys
        invariant forall k :: k in pending && k != exclude ==> Devices(pending[k]) <= used
        invariant forall d :: d in used ==> ReservedElsewhere(exclude, claims, d)
        invariant forall j, d :: 0 <= j < |claims| && claims[j].workloadKey != exclude && d in claims[j].devices ==>
                    d in used
        invariant forall k :: k in history && k !in rest && k != exclude && Active(history[k][cache[k]]) ==>
                    Devices(history[k][cache[k]].value.status.assignments) <= used
        decreases rest
      {
        var k :| k in rest;
        rest := rest - {k};
        var seen := history[k][cache[k]];
        if k != exclude && seen.Some? && !Terminal(seen.value.status.phase) {
          used := used + Devices(seen.value.status.assignments);
        }
      }
      forall d ensures d in used <==> d in TakenByOthers(history, cache, pending, claims, exclude) {
        TakenIsReserved(exclude, claims, d);
      }
    }

    lemma TakenIsReserved(exclude: string, claims: seq<ClaimView>, d: DeviceID)
      requires CacheOk(history, cache)
      ensures d in TakenByOthers(history, cache, pending, claims, exclude) <==> ReservedElsewhere(exclude, claims, d)
    {
      if k :| k in pending && k != exclude && d in Devices(pending[k]) {
        assert d in TakenByOthers(history, cache, pending, claims, exclude);
      }
      if i :| 0 <= i < |claims| && claims[i].workloadKey != exclude && d in claims[i].devices {
        assert d in TakenByOthers(history, cache, pending, claims, exclude);
      }
      if k :| k in history && k != exclude && Active(history[k][cache[k]])
              && d in Devices(history[k][cache[k]].value.status.assignments) {
        assert Shown(history, cache, k) == history[k][cache[k]];
        assert d in TakenByOthers(history, cache, pending, claims, exclude);
      }
    }

    /** A request to read or write a status, which the API server may refuse. */
    method AskForStatus(key: string) returns (ok: bool)
      modifies this`requests
      ensures requests == old(requests) + [Updated(key, ok)]
    {
      ok := *;
      requests := requests + [Updated(key, ok)];
    }

    /** `updateWorkloadStatus`: a failed write is not applied, and a terminal phase is never replaced by another. */
    method UpdateStatus(key: string, status: Status) returns (ok: bool)
      requires CacheOk(history, cache) && key in history
      modifies this`history, this`requests
      ensures CacheOk(history, cache) && Stepped(old(history), history, key) && old(requests) <= requests
      ensures AllGranted(requests, |old(requests)|) && Live(old(Current(history, key))) ==> ok
      ensures !ok ==> history == old(history)
      ensures history != old(history) ==> Current(history, key).Some? && Current(history, key).value.status == status
      ensures ok ==> old(Current(history, key)).Some?
      ensures ok && !Terminal(old(Current(history, key)).value.status.phase) ==>
                Current(history, key).value.status == status
    {
      ok := AskForStatus(key);
      if !ok {
        assert !Granted(requests[|old(requests)|]);
        return;
      }
      var latest := history[key][|history[key]| - 1];
      if latest.None? {
        return false;
      }
      if Terminal(latest.value.status.phase) && latest.value.status.phase != status.phase {
        return true;
      }
      if latest.value.status == status {
        return true;
      }
      ok := AskForStatus(key);
      assert !ok ==> !Granted(requests[|old(requests)| + 1]);
      if ok {
        CurrentAfterAppend(history, key, Some(latest.value.(status := status)));
        history := Append(history, key, Some(latest.value.(status := status)));
      }
    }

    /**
     * Writing `status` from the version `o` keeps the invariant: it gives the assignments up, or writes back harmless
     * ones.
     */
    ghost predicate Harmless(key: string, o: Object, status: Status)
      reads this`history, this`cache, this`pending
      requires CacheOk(history, cache) && key in history
    {
      Active(Some(o.(status := status))) && Live(Current(history, key)) ==>
        && Active(Some(o)) && status == o.status.(phase := status.phase, reason := status.reason)
        && WriteOk(history, cache, pending, key, status.assignments)
    }

    /** A status written from the version `o`. */
    method Report(key: string, o: Object, status: Status) returns (ok: bool)
      requires Base() && Shows(key, o)
      modifies this`history, this`requests
      ensures Base() && Stepped(old(history), history, key) && old(requests) <= requests
      ensures Written(old(history), history, key, status, AllGranted(requests, |old(requests)|))
      ensures old(IsSound() && Harmless(key, o, status)) ==> IsSound()
    {
      ghost var latest := Current(history, key);
      ok := UpdateStatus(key, status);
      if history != old(history) && old(IsSound() && Harmless(key, o, status)) {
        ReportIsSound(old(history), history, cache, pending, key, o, status);
      }
    }

    /** Forgets what was pending for `key`. */
    method Unpend(key: string)
      requires CacheOk(history, cache)
      modifies this`pending
      ensures pending == old(pending) - {key}
      ensures old(IsSound()) && ForgetOk(history, cache, key) ==> IsSound()
    {
      if IsSound() {
        ForgetPendingIff(history, cache, pending, key);
      }
      pending := pending - {key};
    }

    // ---- children.go ----

    /** The API server may have applied a request that is reported as failed. */
    method DeleteChild(child: Child) returns (ok: bool)
      modifies this`children, this`requests
      ensures children == old(children) - {child} || (!ok && children == old(children))
      ensures requests == old(requests) + [Deleted(child, ok)]
    {
      ok := *;
      requests := requests + [Deleted(child, ok)];
      var applied: bool := *;
      if ok || applied {
        children := children - {child};
      }
    }

    method EnsureChild(child: Child) returns (ok: bool)
      modifies this`children, this`requests
      ensures children == old(children) + {child} || (!ok && children == old(children))
      ensures requests == old(requests) + [Ensured(child, ok)]
    {
      ok := *;
      requests := requests + [Ensured(child, ok)];
      var applied: bool := *;
      if ok || applied {
        children := children + {child};
      }
    }

    /** `deleteChildren`: in assignment order, up to the first failure. */
    method DeleteChildren(a: seq<RankAssignment>) returns (ok: bool, ghost reached: nat)
      modifies this`children, this`requests
      ensures children <= old(children) && reached <= |a| && old(children) - children <= ChildrenOf(a[..reached])
      ensures ok ==> reached == |a| && children !! ChildrenOf(a)
      ensures old(requests) <= requests && (AllGranted(requests, |old(requests)|) ==> ok)
    {
      reached := 0;
      for i := 0 to |a|
        invariant children <= old(children) && old(children) - children <= ChildrenOf(a[..i])
        invariant children !! ChildrenOf(a[..i]) && old(requests) <= requests
      {
        ChildrenOfNext(a, i);
        ok := DeleteChild(RankPod(a[i].podName));
        if !ok {
          assert !Granted(requests[|requests| - 1]);
          return ok, i + 1;
        }
        ok := DeleteChild(RankClaim(a[i].claimName));
        if !ok {
          assert !Granted(requests[|requests| - 1]);
          return ok, i + 1;
        }
      }
      assert a[..|a|] == a;
      return true, |a|;
    }

    /** `ensureChildren`: a claim and a Pod for each rank, in assignment order, up to the first failure. */
    method EnsureChildren(w: Workload, a: seq<RankAssignment>) returns (ok: bool)
      modifies this`children, this`requests
      ensures old(children) <= children && children - old(children) <= ChildrenOf(a)
      ensures ok ==> |a| == |w.ranks| && ChildrenOf(a) <= children
      ensures old(requests) <= requests
      ensures AllGranted(requests, |old(requests)|) && |a| == |w.ranks| ==> ok
    {
      if |a| != |w.ranks| {
        return false;
      }
      for i := 0 to |a|
        invariant old(children) <= children && children - old(children) <= ChildrenOf(a[..i])
        invariant ChildrenOf(a[..i]) <= children
        invariant ChildrenOf(a[..i]) <= ChildrenOf(a) && old(requests) <= requests
      {
        ChildrenOfNext(a, i);
        ok := EnsureChild(RankClaim(a[i].claimName));
        if !ok {
          assert !Granted(requests[|requests| - 1]);
          return;
        }
        ok := EnsureChild(RankPod(a[i].podName));
        if !ok {
          assert !Granted(requests[|requests| - 1]);
          return;
        }
      }
      assert a[..|a|] == a;
      ok := true;
    }

    // ---- controller.go: a workload with assignments ----

    /** The part of `reconcileWorkload` for a workload that is seen with assignments. */
    method ReconcileAssigned(key: string, o: Object, used: set<DeviceID>, pods: Pods) returns (ok: bool)
      requires Base() && Shows(key, o) && o.status.assignments != []
      modifies this`history, this`pending, this`children, this`requests
      ensures Base() && ReconcileLaw(old(history), old(children), history, children, key, Some(o), pods)
      ensures old(requests) <= requests
      ensures var v := View(used, fabric, false, true, pods, AllGranted(requests, |old(requests)|));
              && PhaseLaw(old(history), history, key, Some(o), v)
              && ChildrenMade(old(history), history, key, Some(o), v, children)
      ensures old(IsSound() && SafeFrom(key)) ==> IsSound()
    {
      ghost var reached;
      if Terminal(o.status.phase) {
        Unpend(key);
        ok, reached := DeleteChildren(o.status.assignments);
        ChildrenOfPrefix(o.status.assignments, reached);
        return;
      }
      ok := ReconcileUnfinished(key, o, used, pods);
    }

    /** The same for a workload that is not finished. */
    method ReconcileUnfinished(key: string, o: Object, used: set<DeviceID>, pods: Pods) returns (ok: bool)
      requires Base() && Shows(key, o) && o.status.assignments != [] && !Terminal(o.status.phase)
      modifies this`history, this`pending, this`children, this`requests
      ensures Base() && ReconcileLaw(old(history), old(children), history, children, key, Some(o), pods)
      ensures old(requests) <= requests
      ensures var v := View(used, fabric, false, true, pods, AllGranted(requests, |old(requests)|));
              && PhaseLaw(old(history), history, key, Some(o), v)
              && ChildrenMade(old(history), history, key, Some(o), v, children)
      ensures old(IsSound() && SafeFrom(key)) ==> IsSound()
    {
      ghost var v := View(used, fabric, false, true, pods, true);
      var phase, reason, started := ObservedPhase(o.status.assignments, pods);
      var reserved := AssignmentsReserved(o.status.assignments, used);
      RobbedIsReserved(o, v);
      ghost var status := o.status;
      if reserved && started {
        DegradedIsDecided(o, v, phase, reason, "DeviceClaimed");
        status := o.status.(phase := Degraded, reason := "DeviceClaimed");
        ok := Report(key, o, o.status.(phase := Degraded, reason := "DeviceClaimed"));
      } else if reserved || (reason == "Unschedulable" && !started) {
        ReplanIsDecided(o, v, phase, reason, true);
        status := Status(Pending, Some(HashOf(o)), None, [], "Replanning");
        ok := Replan(key, o, HashOf(o), true, pods);
      } else if phase == Failed || phase == Succeeded {
        FinishIsDecided(o, v, phase, reason, started);
        status := o.status.(phase := phase, reason := reason);
        ok := Finish(key, o, phase, reason, pods);
      } else {
        ok := Maintain(key, o, phase, reason, started, v);
        return;
      }
      WrittenIsLawful(old(history), history, key, o, v, status, AllGranted(requests, |old(requests)|), children);
    }

    /** Compares spec and fabric with what the status was pinned to. */
    method Maintain(key: string, o: Object, phase: Phase, reason: string, started: bool, ghost v: View)
      returns (ok: bool)
      requires Base() && Shows(key, o) && o.status.assignments != [] && !Terminal(o.status.phase) && !Terminal(phase)
      requires Observed(o.status.assignments, v.pods, phase, reason, started) && v.fabric == fabric
      requires !v.oversized && v.specValid && !Robbed(o, v) && (reason == "Unschedulable" ==> started)
      modifies this`history, this`pending, this`children, this`requests
      ensures Base() && ReconcileLaw(old(history), old(children), history, children, key, Some(o), v.pods)
      ensures old(requests) <= requests
      ensures var w := v.(calm := AllGranted(requests, |old(requests)|));
              && PhaseLaw(old(history), history, key, Some(o), w)
              && ChildrenMade(old(history), history, key, Some(o), w, children)
      ensures old(IsSound() && SafeFrom(key)) ==> IsSound()
    {
      var hash := HashOf(o);
      var generation := WorkloadGeneration(fabric.endpoints, o.workload.topology, o.status.assignments);
      var changed := o.status.specHash.Some? && o.status.specHash != Some(hash);
      if changed || o.status.fabricGeneration != Some(generation) {
        var why := if changed then "SpecChanged" else "FabricChanged";
        ghost var status := Status(Pending, Some(hash), None, [], "");
        if started {
          DegradedIsDecided(o, v, phase, reason, why);
          status := o.status.(phase := Degraded, reason := why);
          ok := Report(key, o, o.status.(phase := Degraded, reason := why));
        } else {
          ReplanIsDecided(o, v, phase, reason, false);
          ok := Replan(key, o, hash, false, v.pods);
        }
        WrittenIsLawful(old(history), history, key, o, v, status, AllGranted(requests, |old(requests)|), children);
        return;
      }
      KeepIsDecided(o, v, phase, reason, started);
      ok := Keep(key, o, phase, reason, v.pods);
      KeptIsLawful(old(history), history, key, o, v,
                   o.status.(phase := phase, reason := reason, specHash := Some(HashOf(o))),
                   AllGranted(requests, |old(requests)|), children);
    }

    /** Makes the children of an assignment that stands, and reports what the Pods show. */
    method Keep(key: string, o: Object, phase: Phase, reason: string, ghost pods: Pods) returns (ok: bool)
      requires Base() && Shows(key, o) && o.status.assignments != [] && !Terminal(o.status.phase) && !Terminal(phase)
      requires !SpecChanged(o)
      modifies this`history, this`pending, this`children, this`requests
      ensures Base() && ReconcileLaw(old(history), old(children), history, children, key, Some(o), pods)
      ensures old(requests) <= requests
      ensures Written(old(history), history, key,
                      o.status.(phase := phase, reason := reason, specHash := Some(HashOf(o))),
                      AllGranted(requests, |old(requests)|) && RanksMatch(o))
      ensures RanksMatch(o) && AllGranted(requests, |old(requests)|) ==> ChildrenOf(o.status.assignments) <= children
      ensures old(IsSound() && SafeFrom(key)) ==> IsSound()
    {
      ok := EnsureChildren(o.workload, o.status.assignments);
      ghost var ensured := requests;
      if ok {
        if IsSound() {
          PinnedHasHash(history, cache, key, o);
        }
        ok := Report(key, o, o.status.(phase := phase, reason := reason, specHash := Some(HashOf(o))));
      }
      if AllGranted(requests, |old(requests)|) {
        GrantedBefore(ensured, requests, |old(requests)|);
      }
    }

    /** A failed or completed workload: the children go first, the status follows. */
    method Finish(key: string, o: Object, phase: Phase, reason: string, ghost pods: Pods) returns (ok: bool)
      requires Base() && Shows(key, o) && Terminal(phase) && o.status.assignments != []
      requires RankFailed(o.status.assignments, pods) || AllSucceeded(o.status.assignments, pods)
      modifies this`history, this`pending, this`children, this`requests
      ensures Base() && ReconcileLaw(old(history), old(children), history, children, key, Some(o), pods)
      ensures old(requests) <= requests
      ensures Written(old(history), history, key, o.status.(phase := phase, reason := reason),
                      AllGranted(requests, |old(requests)|))
      ensures old(IsSound() && SafeFrom(key)) ==> IsSound()
      ensures history != old(history) ==> children !! ChildrenOf(o.status.assignments)
    {
      Unpend(key);
      ghost var reached;
      ok, reached := DeleteChildren(o.status.assignments);
      ChildrenOfPrefix(o.status.assignments, reached);
      ghost var deleted := requests;
      if ok {
        ok := Report(key, o, o.status.(phase := phase, reason := reason));
      }
      if AllGranted(requests, |old(requests)|) {
        GrantedBefore(deleted, requests, |old(requests)|);
      }
    }

    /** Gives the assignments up: the children go first, the status follows. */
    method Replan(key: string, o: Object, hash: SpecHash, early: bool, ghost pods: Pods) returns (ok: bool)
      requires Base() && Shows(key, o) && o.status.assignments != [] && !RankStarted(o.status.assignments, pods)
      modifies this`history, this`pending, this`children, this`requests
      ensures Base() && ReconcileLaw(old(history), old(children), history, children, key, Some(o), pods)
      ensures old(requests) <= requests
      ensures Written(old(history), history, key,
                      Status(Pending, Some(hash), None, [], if early then "Replanning" else ""),
                      AllGranted(requests, |old(requests)|))
      ensures old(IsSound() && SafeFrom(key)) ==> IsSound()
    {
      if early {
        Unpend(key);
      }
      ghost var reached;
      ok, reached := DeleteChildren(o.status.assignments);
      ChildrenOfPrefix(o.status.assignments, reached);
      ghost var deleted := requests;
      if ok {
        if !early {
          Unpend(key);
        }
        ok := Report(key, o, Status(Pending, Some(hash), None, [], if early then "Replanning" else ""));
      }
      if AllGranted(requests, |old(requests)|) {
        GrantedBefore(deleted, requests, |old(requests)|);
      }
    }

    // ---- controller.go: a workload without assignments ----

    /**
     * The children that placing a workload created: none if it is gone, else for an assignment its status holds unless
     * it is finished.
     */
    ghost predicate CreatedOnce(before: History, was: set<Child>, key: string)
      reads this`history, this`children
    {
      if Current(before, key).None? then children == was
      else Current(history, key).Some? &&
           exists a :: Created(was, children, Current(before, key).value.status, Current(history, key).value.status, a)
    }

    /** Places a workload that is seen without assignments. */
    method Place(key: string, o: Object, used: set<DeviceID>, ghost pods: Pods, ctx: Context) returns (ok: bool)
      requires Base() && Shows(key, o) && o.status.assignments == []
      requires Reserves(history, cache, pending, key, used)
      modifies this`history, this`pending, this`children, this`requests, ctx
      ensures Base() && Stepped(old(history), history, key) && old(requests) <= requests
      ensures CreatedOnce(old(history), old(children), key)
      ensures var v := View(used, fabric, false, true, pods, AllGranted(requests, |old(requests)|));
              && PhaseLaw(old(history), history, key, Some(o), v)
              && ChildrenMade(old(history), history, key, Some(o), v, children)
      ensures old(IsSound()) ==> IsSound()
    {
      if fabric.valid {
        ok := PlaceOnFabric(key, o, used, View(used, fabric, false, true, pods, true), ctx);
      } else {
        ok := Report(key, o, o.status.(phase := Pending, reason := "FabricInvalid", specHash := Some(HashOf(o))));
        NothingCreated(key, children);
      }
    }

    /** Without new children there is nothing to hold. */
    lemma NothingCreated(key: string, was: set<Child>)
      requires was == children
      ensures forall before :: Stepped(before, history, key) ==> CreatedOnce(before, was, key)
    {
      forall before | Stepped(before, history, key) ensures CreatedOnce(before, was, key) {
        if Current(before, key).Some? {
          assert Created(was, children, Current(before, key).value.status, Current(history, key).value.status, []);
        }
      }
    }

    method PlaceOnFabric(key: string, o: Object, used: set<DeviceID>, ghost v: View, ctx: Context) returns (ok: bool)
      requires Base() && Shows(key, o) && o.status.assignments == [] && fabric.valid
      requires Reserves(history, cache, pending, key, used)
      requires v.fabric == fabric && v.taken == used && !v.oversized && v.specValid
      modifies this`history, this`pending, this`children, this`requests, ctx
      ensures Base() && Stepped(old(history), history, key) && old(requests) <= requests
      ensures CreatedOnce(old(history), old(children), key)
      ensures var w := v.(calm := AllGranted(requests, |old(requests)|));
              && PhaseLaw(old(history), history, key, Some(o), w)
              && ChildrenMade(old(history), history, key, Some(o), w, children)
      ensures old(IsSound()) ==> IsSound()
    {
      var assignments, found, failed := Solve(o.workload, used, ctx);
      requests := requests + [Searched(ctx.cancelled)];
      assert ctx.cancelled ==> !Granted(requests[|old(requests)|]);
      ok := UseAnswer(key, o, used, assignments, found, failed, v, |old(requests)|);
    }

    /** Assigns what the solver found, or reports why there is nothing. */
    method UseAnswer(key: string, o: Object, used: set<DeviceID>, assignments: seq<RankAssignment>, found: bool,
                     failed: bool, ghost v: View, ghost from: nat) returns (ok: bool)
      requires Base() && Shows(key, o) && o.status.assignments == [] && fabric.valid && from <= |requests|
      requires Reserves(history, cache, pending, key, used)
      requires v.fabric == fabric && v.taken == used && !v.oversized && v.specValid
      requires found && !failed ==> Solved(o.workload, fabric.endpoints, used, assignments)
      requires !found && !failed ==> NoChoiceFits(o.workload, fabric.endpoints, used)
      requires if failed
               then !WithinLimits(o.workload, fabric.endpoints, DEFAULT_LIMITS) || !AllGranted(requests, from)
               else WithinLimits(o.workload, fabric.endpoints, DEFAULT_LIMITS)
      modifies this`history, this`pending, this`children, this`requests
      ensures Base() && Stepped(old(history), history, key) && old(requests) <= requests
      ensures CreatedOnce(old(history), old(children), key)
      ensures var w := v.(calm := AllGranted(requests, from));
              && PhaseLaw(old(history), history, key, Some(o), w)
              && ChildrenMade(old(history), history, key, Some(o), w, children)
      ensures old(IsSound()) ==> IsSound()
    {
      if found && !failed {
        ok := PlaceSolved(key, o, used, assignments, v, from);
      } else {
        ok := ReportUnplaced(key, o, failed, v, from);
      }
    }

    method PlaceSolved(key: string, o: Object, used: set<DeviceID>, assignments: seq<RankAssignment>, ghost v: View,
                       ghost from: nat) returns (ok: bool)
      requires Base() && Shows(key, o) && o.status.assignments == [] && fabric.valid && from <= |requests|
      requires Reserves(history, cache, pending, key, used) && Solved(o.workload, fabric.endpoints, used, assignments)
      requires v.fabric == fabric && v.taken == used && !v.oversized && v.specValid
      requires WithinLimits(o.workload, fabric.endpoints, DEFAULT_LIMITS)
      modifies this`history, this`pending, this`children, this`requests
      ensures Base() && Stepped(old(history), history, key) && old(requests) <= requests
      ensures CreatedOnce(old(history), old(children), key)
      ensures var w := v.(calm := AllGranted(requests, from));
              && PhaseLaw(old(history), history, key, Some(o), w)
              && ChildrenMade(old(history), history, key, Some(o), w, children)
      ensures old(IsSound()) ==> IsSound()
    {
      ok := Assign(key, o, used, assignments);
      SolvedIsLawful(old(history), history, key, o, v, AssignedStatus(o, assignments), AllGranted(requests, from),
                     children);
    }

    /** A placement error says nothing about the fabric; a plain "no" is recorded against its generation. */
    method ReportUnplaced(key: string, o: Object, failed: bool, ghost v: View, ghost from: nat) returns (ok: bool)
      requires Base() && Shows(key, o) && o.status.assignments == [] && from <= |requests|
      requires v.fabric == fabric && fabric.valid && !v.oversized && v.specValid
      requires if failed
               then !WithinLimits(o.workload, fabric.endpoints, DEFAULT_LIMITS) || !AllGranted(requests, from)
               else && NoChoiceFits(o.workload, fabric.endpoints, v.taken)
                    && WithinLimits(o.workload, fabric.endpoints, DEFAULT_LIMITS)
      modifies this`history, this`requests
      ensures Base() && Stepped(old(history), history, key) && old(requests) <= requests
      ensures || history == old(history)
              || (Current(history, key).Some? && Current(history, key).value.status.assignments == [])
      ensures CreatedOnce(old(history), children, key)
      ensures var w := v.(calm := AllGranted(requests, from));
              && PhaseLaw(old(history), history, key, Some(o), w)
              && ChildrenMade(old(history), history, key, Some(o), w, children)
      ensures old(IsSound()) ==> IsSound()
    {
      var generation := WorkloadGeneration(fabric.endpoints, o.workload.topology, []);
      var status := if failed then o.status.(phase := Pending, reason := "PlacementError")
                    else o.status.(phase := Pending, reason := "Unsatisfied", specHash := Some(HashOf(o)),
                                   fabricGeneration := Some(generation));
      ok := Report(key, o, status);
      if AllGranted(requests, from) {
        GrantedBefore(old(requests), requests, from);
      }
      UnplacedIsLawful(old(history), history, key, o, v.(calm := AllGranted(requests, from)), status, failed, children);
      NothingCreated(key, children);
    }

    /** The search is stopped when its time is up. */
    method Solve(w: Workload, used: set<DeviceID>, ctx: Context)
      returns (assignments: seq<RankAssignment>, found: bool, failed: bool)
      requires FabricOk(fabric)
      modifies ctx
      ensures found && !failed ==> Solved(w, fabric.endpoints, used, assignments)
      ensures !found && !failed && fabric.valid ==> NoChoiceFits(w, fabric.endpoints, used)
      ensures if failed then !WithinLimits(w, fabric.endpoints, DEFAULT_LIMITS) || ctx.cancelled
              else WithinLimits(w, fabric.endpoints, DEFAULT_LIMITS)
    {
      var err;
      ghost var candidates;
      assignments, found, err, candidates := SolveContext(ctx, Some(w), fabric.endpoints, used, DEFAULT_LIMITS);
      failed := err.Some?;
      assert failed ==> err.value.NoWorkload? || err.value.ExceedsLimits? || err.value.Cancelled?;
      assert found && !failed ==> SolvedOver(w, fabric.endpoints, used, assignments, candidates);
      if !found && !failed && fabric.valid {
        NoIsFinal(w, fabric.endpoints, used, candidates, assignments);
      }
    }

    ghost function AssignedStatus(o: Object, a: seq<RankAssignment>): Status
      reads this`fabric
    {
      Status(Assigned, Some(HashOf(o)), Some(PinnedGeneration(fabric.endpoints, o.workload.topology, a)), a, "Assigned")
    }

    /** Writes a solved assignment; only then is it pending, and the children follow. */
    method Assign(key: string, o: Object, used: set<DeviceID>, assignments: seq<RankAssignment>) returns (ok: bool)
      requires Base() && Shows(key, o) && o.status.assignments == [] && fabric.valid
      requires Reserves(history, cache, pending, key, used) && Solved(o.workload, fabric.endpoints, used, assignments)
      modifies this`history, this`pending, this`children, this`requests
      ensures Base() && Stepped(old(history), history, key)
      ensures CreatedOnce(old(history), old(children), key)
      ensures old(requests) <= requests
      ensures Written(old(history), history, key, AssignedStatus(o, assignments),
                      AllGranted(requests, |old(requests)|))
      ensures AllGranted(requests, |old(requests)|) && |assignments| == |o.workload.ranks| ==>
                Live(old(Current(history, key))) ==> ChildrenOf(assignments) <= children
      ensures ok ==> ChildrenOf(assignments) <= children
      ensures old(IsSound()) ==> IsSound()
    {
      var generation := WorkloadGeneration(fabric.endpoints, o.workload.topology, assignments);
      var status := o.status.(phase := Assigned, reason := "Assigned", assignments := assignments,
                              specHash := Some(HashOf(o)), fabricGeneration := Some(generation));
      assert status == AssignedStatus(o, assignments);
      assert PinnedStatus(status) && Devices(status.assignments) !! used by {
        SolvedAvoidsUsed(o.workload, fabric.endpoints, used, assignments);
        SolvedIsPinned(o, status, fabric.endpoints, used);
      }
      ok := CommitAssignment(key, status, o.workload, used);
    }

    /**
     * The write reports success for a finished workload without changing it, so its children are created although no
     * status holds the assignment; otherwise what is created is held.
     */
    method CommitAssignment(key: string, status: Status, w: Workload, ghost used: set<DeviceID>) returns (ok: bool)
      requires Base() && key in history && PinnedStatus(status) && !Terminal(status.phase)
      requires Reserves(history, cache, pending, key, used) && Devices(status.assignments) !! used
      modifies this`history, this`pending, this`children, this`requests
      ensures Base() && Stepped(old(history), history, key)
      ensures Written(old(history), history, key, status, AllGranted(requests, |old(requests)|))
      ensures CreatedOnce(old(history), old(children), key) && old(requests) <= requests
      ensures AllGranted(requests, |old(requests)|) && |status.assignments| == |w.ranks| ==>
                Live(old(Current(history, key))) ==> ChildrenOf(status.assignments) <= children
      ensures ok ==> ChildrenOf(status.assignments) <= children && pending == old(pending)[key := status.assignments]
      ensures old(IsSound()) ==> IsSound()
    {
      ok := UpdateStatus(key, status);
      ghost var updated := requests;
      if ok {
        ok := Pend(key, status, w, old(history), used);
      } else {
        NothingCreated(key, children);
      }
      if AllGranted(requests, |old(requests)|) {
        GrantedBefore(updated, requests, |old(requests)|);
      }
    }

    /** Notes an assignment as pending after its write was reported as successful, and makes its children. */
    method Pend(key: string, status: Status, w: Workload, ghost before: History, ghost used: set<DeviceID>)
      returns (ok: bool)
      requires CacheOk(before, cache) && key in before && Stepped(before, history, key) && Current(before, key).Some?
      requires PinnedStatus(status) && !Terminal(status.phase) && Devices(status.assignments) !! used
      requires Reserves(before, cache, pending, key, used)
      requires history != before || !Terminal(Current(before, key).value.status.phase) ==>
                 Current(history, key).value.status == status
      modifies this`pending, this`children, this`requests
      ensures pending == old(pending)[key := status.assignments] && old(requests) <= requests
      ensures CreatedOnce(before, old(children), key)
      ensures AllGranted(requests, |old(requests)|) && |status.assignments| == |w.ranks| ==> ok
      ensures ok ==> ChildrenOf(status.assignments) <= children
      ensures old(Sound(before, cache, pending)) ==> IsSound()
    {
      ghost var sound := Sound(before, cache, pending);
      PendKeepsSound(before, history, cache, pending, key, status, used);
      pending := pending[key := status.assignments];
      assert sound ==> IsSound();
      ok := EnsureChildren(w, status.assignments);
      PendCreated(before, history, key, status, old(children), children);
    }

    /** `reconcileWorkload`; `specValid` is the verdict of the spec validation. */
    method ReconcileWorkload(key: string, o: Object, used: set<DeviceID>, specValid: bool, pods: Pods, ctx: Context)
      returns (ok: bool)
      requires Base() && Shows(key, o)
      requires Reserves(history, cache, pending, key, used)
      modifies this`history, this`pending, this`children, this`requests, ctx
      ensures Base() && ReconcileLaw(old(history), old(children), history, children, key, Some(o), pods)
      ensures old(requests) <= requests
      ensures var v := View(used, fabric, false, specValid, pods, AllGranted(requests, |old(requests)|));
              && PhaseLaw(old(history), history, key, Some(o), v)
              && ChildrenMade(old(history), history, key, Some(o), v, children)
      ensures old(IsSound() && SafeFrom(key)) ==> IsSound()
      ensures specValid && o.status.assignments == [] ==> CreatedOnce(old(history), old(children), key)
    {
      if !specValid {
        ok := Report(key, o, o.status.(phase := Failed, reason := "InvalidSpec", specHash := Some(HashOf(o))));
        return;
      }
      if |o.status.assignments| > 0 {
        ok := ReconcileAssigned(key, o, used, pods);
      } else {
        ok := Place(key, o, used, pods, ctx);
      }
    }

    /** `reconcileWorkloadKey`, from whatever version the cache shows. */
    method ReconcileKey(key: string, claims: seq<ClaimView>, specValid: bool, pods: Pods, ctx: Context)
      returns (ok: bool)
      requires Base()
      modifies this`history, this`pending, this`children, this`requests, ctx
      ensures Base()
      ensures ReconcileLaw(old(history), old(children), history, children, key,
                           if key in old(history) then old(history)[key][cache[key]] else None, pods)
      ensures old(requests) <= requests
      ensures var v := View(old(TakenByOthers(history, cache, pending, claims, key)), fabric,
                            old(Oversized(history, cache)), specValid, pods,
                            AllGranted(requests, |old(requests)|));
              && PhaseLaw(old(history), history, key, old(Shown(history, cache, key)), v)
              && ChildrenMade(old(history), history, key, old(Shown(history, cache, key)), v, children)
      ensures old(IsSound() && SafeFrom(key)) ==> IsSound()
    {
      if key !in history || history[key][cache[key]].None? {
        Unpend(key);
        return true;
      }
      ok := ReconcileSeen(key, history[key][cache[key]].value, claims, specValid, pods, ctx);
    }

    /** The part of `reconcileWorkloadKey` for a workload that the cache shows. */
    method ReconcileSeen(key: string, o: Object, claims: seq<ClaimView>, specValid: bool, pods: Pods, ctx: Context)
      returns (ok: bool)
      requires Base() && Shows(key, o)
      modifies this`history, this`pending, this`children, this`requests, ctx
      ensures Base() && ReconcileLaw(old(history), old(children), history, children, key, Some(o), pods)
      ensures old(requests) <= requests
      ensures var v := View(old(TakenByOthers(history, cache, pending, claims, key)), fabric,
                            old(Oversized(history, cache)), specValid, pods,
                            AllGranted(requests, |old(requests)|));
              && PhaseLaw(old(history), history, key, Some(o), v)
              && ChildrenMade(old(history), history, key, Some(o), v, children)
      ensures old(IsSound() && SafeFrom(key)) ==> IsSound()
    {
      assert (set k | k in history && history[k][cache[k]].Some?) ==
             (set k | k in history && Shown(history, cache, k).Some?);
      if |set k | k in history && history[k][cache[k]].Some?| > MAX_WORKLOADS {
        var phase := if |o.status.assignments| > 0 then Degraded else Pending;
        ok := Report(key, o, o.status.(phase := phase, reason := "ClusterScaleExceeded"));
        return;
      }
      var used := Reservations(key, claims);
      ok := ReconcileWorkload(key, o, used, specValid, pods, ctx);
    }
  }

  /** A harmless status, once written, leaves the invariant intact. */
  lemma ReportIsSound(h: History, g: History, cache: Cache, pending: Pending, key: string, o: Object, status: Status)
    requires Sound(h, cache, pending) && key in h && h[key][cache[key]] == Some(o) && Stepped(h, g, key) && g != h
    requires Current(g, key).Some? && Current(g, key).value.status == status
    requires Active(Some(o.(status := status))) && Live(Current(h, key)) ==>
               && Active(Some(o)) && status == o.status.(phase := status.phase, reason := status.reason)
               && WriteOk(h, cache, pending, key, status.assignments)
    ensures Sound(g, cache, pending)
  {
    var next := Current(h, key).value.(status := status);
    if Active(Some(next)) {
      assert Live(Current(h, key));
      StaysPinned(o.status, status);
    }
    WriteConsistentIff(h, cache, pending, key, next);
    AppendPinned(h, cache, key, Some(next));
  }

  /** Noting a solved assignment as pending once its write was reported as successful. */
  lemma PendIsSound(h: History, g: History, cache: Cache, pending: Pending, key: string, status: Status,
                    used: set<DeviceID>)
    requires Sound(h, cache, pending) && key in h && Reserves(h, cache, pending, key, used)
    requires Devices(status.assignments) !! used
    requires PinnedStatus(status) && Stepped(h, g, key) && Current(h, key).Some?
    requires g != h ==> Current(g, key).value.status == status
    requires !Terminal(Current(h, key).value.status.phase) ==> Current(g, key).value.status == status
    ensures Sound(g, cache, pending[key := status.assignments])
  {
    if g == h {
      PendHeld(h, cache, pending, key, status.assignments);
    } else {
      var next := Current(h, key).value.(status := status);
      AssignmentFits(h, cache, pending, key, next, used);
      AppendPinned(h, cache, key, Some(next));
    }
  }

  lemma PendKeepsSound(h: History, g: History, cache: Cache, pending: Pending, key: string, status: Status,
                       used: set<DeviceID>)
    requires CacheOk(h, cache) && key in h && Reserves(h, cache, pending, key, used)
    requires Devices(status.assignments) !! used
    requires PinnedStatus(status) && Stepped(h, g, key) && Current(h, key).Some?
    requires g != h || !Terminal(Current(h, key).value.status.phase) ==> Current(g, key).value.status == status
    ensures Sound(h, cache, pending) ==> Sound(g, cache, pending[key := status.assignments])
  {
    if Sound(h, cache, pending) {
      PendIsSound(h, g, cache, pending, key, status, used);
    }
  }

  /** What is created for a pending assignment is held, unless the workload is finished. */
  lemma PendCreated(before: History, h: History, key: string, status: Status, was: set<Child>, left: set<Child>)
    requires Stepped(before, h, key) && Current(before, key).Some? && !Terminal(status.phase)
    requires h != before || !Terminal(Current(before, key).value.status.phase) ==>
               Current(h, key).value.status == status
    requires was <= left && left - was <= ChildrenOf(status.assignments)
    ensures Current(h, key).Some?
    ensures Created(was, left, Current(before, key).value.status, Current(h, key).value.status, status.assignments)
  {
  }

  /** An unfinished assignment always has its spec hash. */
  lemma PinnedHasHash(h: History, cache: Cache, key: string, o: Object)
    requires CacheOk(h, cache) && AllPinned(h, cache) && key in h && h[key][cache[key]] == Some(o) && Active(Some(o))
    ensures o.status.specHash.Some?
  {
    var endpoints :| PinnedTo(o.status, endpoints);
  }

  lemma ChildrenOfPrefix(a: seq<RankAssignment>, n: nat)
    requires n <= |a|
    ensures ChildrenOf(a[..n]) <= ChildrenOf(a)
  {
  }

  /** What a solver's assignment on a valid fabric is pinned to. */
  lemma SolvedIsPinned(o: Object, st: Status, endpoints: seq<FabricEndpoint>, used: set<DeviceID>)
    requires Canonical(endpoints) && LinksSound(endpoints) && Solved(o.workload, endpoints, used, st.assignments)
    requires st.specHash == Some(HashOf(o))
    requires st.fabricGeneration == Some(PinnedGeneration(endpoints, o.workload.topology, st.assignments))
    ensures PinnedStatus(st)
  {
    SolvedIsPlaced(o.workload, endpoints, used, st.assignments);
    assert PinnedTo(st, endpoints);
  }

  // ---- Whole runs ----

  datatype Event =
    | ReconcileOne(key: string, claims: seq<ClaimView>, specValid: bool, pods: Pods)
    | CacheSync(key: string, to: nat)
    | UserEdit(key: string, edited: Option<Object>)
    | UserCreate(key: string, created: Object)
    | ChildrenCollected(gone: set<Child>)
    | FabricObserved(nodes: Option<seq<NodeTopology>>, ttl: int, now: int)

  /** The controller and everything it acts on, between two events. */
  datatype Moment = Moment(history: History, cache: Cache, pending: Pending, children: set<Child>, fabric: FabricStatus,
                           requests: seq<Request>)

  /** No device is held twice, and what is pinned to the fabric at hand is connected in it. */
  ghost predicate MomentLaw(m: Moment) {
    ExclusiveAssignments(m.history) && ConnectedWhilePinned(m.history, m.fabric.endpoints)
  }

  /** The version of `key` that the cache shows. */
  ghost function Seen(m: Moment, key: string): Option<Object> { Shown(m.history, m.cache, key) }

  /** What a reconcile between two moments looks at. */
  ghost function ViewOf(m: Moment, e: Event, n: Moment): View
    requires e.ReconcileOne?
  {
    View(TakenByOthers(m.history, m.cache, m.pending, e.claims, e.key), m.fabric, Oversized(m.history, m.cache),
         e.specValid, e.pods, AllGranted(n.requests, |m.requests|))
  }

  ghost predicate EventLaw(m: Moment, e: Event, n: Moment) {
    if e.ReconcileOne? then
      && ReconcileLaw(m.history, m.children, n.history, n.children, e.key, Seen(m, e.key), e.pods)
      && PhaseLaw(m.history, n.history, e.key, Seen(m, e.key), ViewOf(m, e, n))
      && ChildrenMade(m.history, n.history, e.key, Seen(m, e.key), ViewOf(m, e, n), n.children)
    else (!e.ChildrenCollected? ==> n.children == m.children) && StatusesKept(m.history, n.history)
  }

  ghost predicate StatusesKept(h: History, g: History) {
    forall k :: Current(h, k).Some? && Current(g, k).Some? ==> Current(g, k).value.status == Current(h, k).value.status
  }

  /** Every event but a reconcile from a status that is stale beyond use. */
  ghost predicate SafeEvent(m: Moment, e: Event) {
    e.ReconcileOne? ==> CacheOk(m.history, m.cache) && Reconcilable(m.history, m.cache, m.pending, e.key)
  }

  ghost predicate LawfulTrace(trace: seq<Moment>, events: seq<Event>) {
    |trace| == |events| + 1 && forall i :: LawfulEvent(trace, events, i)
  }

  ghost predicate LawfulEvent(trace: seq<Moment>, events: seq<Event>, i: int)
    requires |trace| == |events| + 1
  {
    0 <= i < |events| ==> EventLaw(trace[i], events[i], trace[i + 1])
  }

  /** None of the first `n` events was a reconcile from a status stale beyond use. */
  ghost predicate SafeUpTo(trace: seq<Moment>, events: seq<Event>, n: nat) {
    n <= |trace| && n <= |events| && forall j :: SafeAt(trace, events, n, j)
  }

  ghost predicate SafeAt(trace: seq<Moment>, events: seq<Event>, n: nat, j: int)
    requires n <= |trace| && n <= |events|
  {
    0 <= j < n ==> SafeEvent(trace[j], events[j])
  }

  /** Every moment before the first such reconcile is lawful. */
  ghost predicate LawfulWhileSafe(trace: seq<Moment>, events: seq<Event>) {
    forall i :: LawfulIfSafe(trace, events, i)
  }

  ghost predicate LawfulIfSafe(trace: seq<Moment>, events: seq<Event>, i: int) {
    0 <= i < |trace| && SafeUpTo(trace, events, i) ==> MomentLaw(trace[i])
  }

  lemma ExtendTrace(trace: seq<Moment>, events: seq<Event>, n: nat, next: Moment)
    requires n < |events| && |trace| == n + 1 && LawfulTrace(trace, events[..n]) && LawfulWhileSafe(trace, events)
    requires EventLaw(trace[n], events[n], next)
    requires SafeUpTo(trace, events, n) && SafeEvent(trace[n], events[n]) ==> MomentLaw(next)
    ensures LawfulTrace(trace + [next], events[..n + 1]) && LawfulWhileSafe(trace + [next], events)
    ensures SafeUpTo(trace + [next], events, n + 1) ==> SafeUpTo(trace, events, n) && SafeEvent(trace[n], events[n])
  {
    ExtendLaw(trace, events, n, next);
    ExtendSafety(trace, events, n, next);
    var longer := trace + [next];
    forall i ensures LawfulIfSafe(longer, events, i) {
      assert LawfulIfSafe(trace, events, i);
      if 0 <= i <= n && SafeUpTo(longer, events, i) {
        SafePrefix(trace, longer, events, i, i);
      }
    }
  }

  lemma ExtendLaw(trace: seq<Moment>, events: seq<Event>, n: nat, next: Moment)
    requires n < |events| && LawfulTrace(trace, events[..n]) && EventLaw(trace[n], events[n], next)
    ensures LawfulTrace(trace + [next], events[..n + 1])
  {
    var longer, more := trace + [next], events[..n + 1];
    forall i ensures LawfulEvent(longer, more, i) {
      assert LawfulEvent(trace, events[..n], i);
      assert 0 <= i < n ==> more[i] == events[..n][i] && longer[i] == trace[i] && longer[i + 1] == trace[i + 1];
    }
  }

  lemma ExtendSafety(trace: seq<Moment>, events: seq<Event>, n: nat, next: Moment)
    requires n < |events| && |trace| == n + 1
    ensures SafeUpTo(trace + [next], events, n + 1) ==> SafeUpTo(trace, events, n) && SafeEvent(trace[n], events[n])
  {
    var longer := trace + [next];
    if SafeUpTo(longer, events, n + 1) {
      assert SafeAt(longer, events, n + 1, n);
      SafePrefix(trace, longer, events, n, n + 1);
    }
  }

  lemma SafePrefix(trace: seq<Moment>, longer: seq<Moment>, events: seq<Event>, n: nat, more: nat)
    requires trace <= longer && n <= more && n <= |trace| && SafeUpTo(longer, events, more)
    ensures SafeUpTo(trace, events, n)
  {
    forall j ensures SafeAt(trace, events, n, j) {
      assert SafeAt(longer, events, more, j);
    }
  }

  ghost predicate ExistsThroughout(trace: seq<Moment>, key: string, i: nat, j: nat) {
    i <= j < |trace| && forall t :: i <= t <= j ==> Current(trace[t].history, key).Some?
  }

  ghost function StatusIn(m: Moment, key: string): Status
    requires Current(m.history, key).Some?
  {
    Current(m.history, key).value.status
  }

  lemma TerminalStays(m: Moment, e: Event, n: Moment, key: string)
    requires EventLaw(m, e, n) && Current(m.history, key).Some? && Current(n.history, key).Some?
    requires Terminal(StatusIn(m, key).phase)
    ensures StatusIn(n, key).phase == StatusIn(m, key).phase
  {
  }

  /** A workload that is finished stays so until it is deleted, whatever is reconciled from whatever version. */
  lemma {:induction false} FinishedForever(trace: seq<Moment>, events: seq<Event>, key: string, i: nat, j: nat)
    requires LawfulTrace(trace, events) && ExistsThroughout(trace, key, i, j) && Terminal(StatusIn(trace[i], key).phase)
    ensures StatusIn(trace[j], key).phase == StatusIn(trace[i], key).phase
    decreases j
  {
    if i < j {
      FinishedForever(trace, events, key, i, j - 1);
      assert LawfulEvent(trace, events, j - 1);
      TerminalStays(trace[j - 1], events[j - 1], trace[j], key);
    }
  }

  /** The event wrote this phase for `key`. */
  ghost predicate Enters(m: Moment, n: Moment, key: string, phase: Phase) {
    && Current(n.history, key).Some? && StatusIn(n, key).phase == phase
    && Current(m.history, key).Some? && StatusIn(m, key).phase != phase
  }

  /** Over any run a workload gets Succeeded only by a reconcile that saw every rank of its assignment succeed. */
  lemma SucceededSaw(trace: seq<Moment>, events: seq<Event>, key: string, i: nat)
    requires LawfulTrace(trace, events) && i < |events| && Enters(trace[i], trace[i + 1], key, Succeeded)
    ensures events[i].ReconcileOne? && events[i].key == key && events[i].specValid && Seen(trace[i], key).Some?
    ensures AllSucceeded(Seen(trace[i], key).value.status.assignments, events[i].pods)
  {
    assert LawfulEvent(trace, events, i);
  }

  /** ... and Failed only by one that saw a rank fail, or for an invalid spec. */
  lemma FailedSaw(trace: seq<Moment>, events: seq<Event>, key: string, i: nat)
    requires LawfulTrace(trace, events) && i < |events| && Enters(trace[i], trace[i + 1], key, Failed)
    ensures events[i].ReconcileOne? && events[i].key == key && Seen(trace[i], key).Some?
    ensures !events[i].specValid || RankFailed(Seen(trace[i], key).value.status.assignments, events[i].pods)
  {
    assert LawfulEvent(trace, events, i);
  }

  /**
   * If every request of a reconcile is granted, a workload that holds nothing and is not finished is assigned whenever
   * the fabric is valid, the workload is small enough and some choice of free, fit devices for its ranks is connected.
   */
  lemma PlacedIfPossible(trace: seq<Moment>, events: seq<Event>, i: nat, c: Choice)
    requires LawfulTrace(trace, events) && i < |events| && events[i].ReconcileOne? && events[i].specValid
    requires !Oversized(trace[i].history, trace[i].cache) && Live(Current(trace[i].history, events[i].key))
    requires AllGranted(trace[i + 1].requests, |trace[i].requests|) && trace[i].fabric.valid
    requires var seen := Seen(trace[i], events[i].key);
             && seen.Some? && seen.value.status.assignments == []
             && WithinLimits(seen.value.workload, trace[i].fabric.endpoints, DEFAULT_LIMITS)
             && IsChoice(Problem(seen.value.workload, trace[i].fabric.endpoints,
                                 TakenByOthers(trace[i].history, trace[i].cache, trace[i].pending, events[i].claims,
                                               events[i].key)), c)
             && ConnectedSubgraph(IndexByID(trace[i].fabric.endpoints), ChoiceIDs(c))
    ensures Current(trace[i + 1].history, events[i].key).Some?
    ensures var now := StatusIn(trace[i + 1], events[i].key);
            && now.phase == Assigned && |now.assignments| == |Seen(trace[i], events[i].key).value.workload.ranks|
            && ChildrenOf(now.assignments) <= trace[i + 1].children
  {
    var m, e, n := trace[i], events[i], trace[i + 1];
    assert LawfulEvent(trace, events, i);
    var o, v := Seen(m, e.key).value, ViewOf(m, e, n);
    assert !Keeps(o, v) && Decided(o, v, StatusIn(n, e.key));
    assert StatusIn(n, e.key).phase == Assigned;
    SolvedMatches(o.workload, v.fabric.endpoints, v.taken, StatusIn(n, e.key).assignments);
  }

  /** The reconcile saw these assignments, and a started rank of them. */
  ghost predicate SawStarted(m: Moment, e: Event, a: seq<RankAssignment>) {
    e.ReconcileOne? && Seen(m, e.key).Some? && Seen(m, e.key).value.status.assignments == a && RankStarted(a, e.pods)
  }

  /** While every reconcile of a workload sees its assignments and a started rank, they do not change. */
  lemma {:induction false} FrozenWhileStarted(trace: seq<Moment>, events: seq<Event>, key: string, i: nat, j: nat)
    requires LawfulTrace(trace, events) && ExistsThroughout(trace, key, i, j)
    requires forall t :: i <= t < j && events[t].ReconcileOne? && events[t].key == key ==>
               SawStarted(trace[t], events[t], StatusIn(trace[i], key).assignments)
    ensures StatusIn(trace[j], key).assignments == StatusIn(trace[i], key).assignments
    decreases j
  {
    if i < j {
      FrozenWhileStarted(trace, events, key, i, j - 1);
      assert LawfulEvent(trace, events, j - 1);
    }
  }

  /** A user edits or deletes a workload, or creates it again; the status is not theirs to write. */
  method EditWorkload(c: WorkloadController, key: string, edited: Option<Object>)
    requires c.Base() && key in c.history
    modifies c`history
    ensures c.Base() && StatusesKept(old(c.history), c.history)
    ensures old(c.IsSound()) ==> c.IsSound()
  {
    var latest := c.history[key][|c.history[key]| - 1];
    var status := if latest.Some? then latest.value.status else NO_STATUS;
    var written := if edited.Some? then Some(edited.value.(status := status)) else None;
    EditedKeeps(c.history, c.cache, c.pending, key, written);
    c.history := Append(c.history, key, written);
  }

  method CreateWorkload(c: WorkloadController, key: string, created: Object)
    requires c.Base() && key !in c.history && created.status == NO_STATUS
    modifies c`history, c`cache
    ensures c.Base() && StatusesKept(old(c.history), c.history)
    ensures old(c.IsSound()) ==> c.IsSound()
  {
    if c.IsSound() {
      CreatedIsSound(c.history, c.cache, c.pending, key, created);
    }
    CreatedKeepsStatuses(c.history, key, created);
    c.history := c.history[key := [Some(created)]];
    c.cache := c.cache[key := 0];
  }

  lemma CreatedIsSound(h: History, cache: Cache, pending: Pending, key: string, o: Object)
    requires Sound(h, cache, pending) && key !in h && o.status == NO_STATUS
    ensures Sound(h[key := [Some(o)]], cache[key := 0], pending)
  {
    UserCreates(h, cache, pending, key, o);
  }

  lemma EditedKeepsStatuses(h: History, key: string, o: Option<Object>)
    requires key in h && (o.Some? && Current(h, key).Some? ==> o.value.status == Current(h, key).value.status)
    ensures StatusesKept(h, Append(h, key, o))
  {
    CurrentAfterAppend(h, key, o);
  }

  lemma CreatedKeepsStatuses(h: History, key: string, o: Object)
    requires key !in h
    ensures StatusesKept(h, h[key := [Some(o)]])
  {
  }

  lemma EditedIsSound(h: History, cache: Cache, pending: Pending, key: string, o: Option<Object>)
    requires Sound(h, cache, pending) && key in h
    requires o.Some? ==> o.value.status == if Current(h, key).Some? then Current(h, key).value.status else NO_STATUS
    ensures Sound(Append(h, key, o), cache, pending)
  {
    UserWrites(h, cache, pending, key, o);
    assert Active(o) ==> Active(h[key][|h[key]| - 1]);
    AppendPinned(h, cache, key, o);
  }

  lemma EditedKeeps(h: History, cache: Cache, pending: Pending, key: string, o: Option<Object>)
    requires CacheOk(h, cache) && key in h
    requires o.Some? ==> o.value.status == if Current(h, key).Some? then Current(h, key).value.status else NO_STATUS
    ensures CacheOk(Append(h, key, o), cache) && StatusesKept(h, Append(h, key, o))
    ensures Sound(h, cache, pending) ==> Sound(Append(h, key, o), cache, pending)
  {
    EditedKeepsStatuses(h, key, o);
    if Sound(h, cache, pending) {
      EditedIsSound(h, cache, pending, key, o);
    }
  }

  /** The cache shows a later version. */
  method SyncCache(c: WorkloadController, key: string, to: nat)
    requires c.Base() && key in c.history && c.cache[key] <= to < |c.history[key]|
    modifies c`cache
    ensures c.Base() && (old(c.IsSound()) ==> c.IsSound())
  {
    if c.IsSound() {
      CacheAdvances(c.history, c.cache, c.pending, key, to);
    }
    c.cache := c.cache[key := to];
  }

  ghost function MomentOf(c: WorkloadController): Moment
    reads c
  {
    Moment(c.history, c.cache, c.pending, c.children, c.fabric, c.requests)
  }

  /** One event of a run. */
  method Perform(c: WorkloadController, e: Event)
    requires c.Base()
    modifies c
    ensures c.Base() && EventLaw(old(MomentOf(c)), e, MomentOf(c))
    ensures old(c.IsSound() && SafeEvent(MomentOf(c), e)) ==> c.IsSound()
  {
    match e {
      case ReconcileOne(key, claims, specValid, pods) =>
        var ctx := new Context();
        var ok := c.ReconcileKey(key, claims, specValid, pods, ctx);
      case CacheSync(key, to) =>
        if key in c.history && c.cache[key] <= to < |c.history[key]| {
          SyncCache(c, key, to);
        }
      case UserEdit(key, edited) =>
        if key in c.history {
          EditWorkload(c, key, edited);
        }
      case UserCreate(key, created) =>
        if key !in c.history {
          CreateWorkload(c, key, created.(status := NO_STATUS));
        }
      case ChildrenCollected(gone) =>
        c.children := c.children - gone;
      case FabricObserved(nodes, ttl, now) =>
        if nodes.Some? {
          var fabric := BuildFabric(nodes.value, ttl, now);
          c.fabric := fabric;
        } else {
          c.fabric := NO_FABRIC;
        }
    }
  }

  /**
   * Any interleaving of reconciliations, cache movement, user writes, garbage collection and fabric observations, with
   * any write failures, and with reconciles from whatever version the cache shows. Every event obeys its law; and as
   * long as no reconcile was from a status stale beyond use, no device is held twice and what is pinned is connected.
   */
  method Run(c: WorkloadController, events: seq<Event>) returns (ghost trace: seq<Moment>)
    requires c.Valid()
    modifies c
    ensures LawfulTrace(trace, events) && LawfulWhileSafe(trace, events)
    ensures trace[0] == old(MomentOf(c)) && trace[|events|] == MomentOf(c)
    ensures c.Base() && (SafeUpTo(trace, events, |events|) ==> c.Valid())
  {
    trace := [MomentOf(c)];
    SoundMoment(c);
    for i := 0 to |events|
      invariant InRun(c, trace, events, i) && trace[0] == old(MomentOf(c))
    {
      trace := PerformNext(c, trace, events, i);
    }
    assert events[..|events|] == events;
  }

  /** The run so far, with the first `n` events done. */
  ghost predicate InRun(c: WorkloadController, trace: seq<Moment>, events: seq<Event>, n: nat)
    reads c
  {
    && n <= |events| && c.Base() && |trace| == n + 1 && trace[n] == MomentOf(c)
    && LawfulTrace(trace, events[..n]) && LawfulWhileSafe(trace, events)
    && (SafeUpTo(trace, events, n) ==> c.IsSound())
  }

  method PerformNext(c: WorkloadController, ghost trace: seq<Moment>, events: seq<Event>, i: nat)
    returns (ghost longer: seq<Moment>)
    requires i < |events| && InRun(c, trace, events, i)
    modifies c
    ensures InRun(c, longer, events, i + 1) && trace <= longer
  {
    Perform(c, events[i]);
    ghost var next := MomentOf(c);
    if SafeUpTo(trace, events, i) && SafeEvent(trace[i], events[i]) {
      SoundMoment(c);
    }
    ExtendTrace(trace, events, i, next);
    longer := trace + [next];
  }

  lemma SoundMoment(c: WorkloadController)
    requires c.Valid()
    ensures MomentLaw(MomentOf(c))
  {
    PinnedIsConnected(c.history, c.cache, c.fabric.endpoints);
  }
}
