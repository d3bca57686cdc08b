/** The node agent's claim manager: prepare, release, monitor and startup over a failing environment. */
module Manager {
  import opened Api
  import opened Inventory
  import opened Lifecycle
  import opened Batches
  import opened Screening
  import opened Causes
  import opened Answers

  /** The phase changes neither the CDI file nor the devices handed out. */
  lemma SameDelivery(a: PreparedClaim, b: PreparedClaim)
    requires a.devices == b.devices
    ensures SpecOf(a) == SpecOf(b) && Results(a) == Results(b)
  {
  }

  /** The device is there again, eligible, healthy and with the recorded identity. */
  ghost predicate Returned(byName: map<string, InventoryDevice>, d: ClaimDevice) {
    && d.device in byName && byName[d.device].eligible && byName[d.device].health == Healthy
    && byName[d.device].stableID == d.stableID
  }

  /** A device that is back is returned by the observation, if it was out of quarantine. */
  lemma BackIsReturned(c: Config, s: State, t: State, snapshot: Snapshot, call: Call, d: ClaimDevice)
    requires PassState(c, s, t, snapshot, false) && d.device !in s.quarantined && Back(c, call, snapshot, d)
    requires KnownLogged(s.known, call) && LookedAt(call, snapshot)
    ensures Returned(ByName(Filter(snapshot, t.quarantined).devices), d)
  {
    BackIsUnblamed(c, s, t, snapshot, call, d);
    var filtered := Filter(snapshot, t.quarantined).devices;
    ByNameMembers(filtered);
    var e :| e in snapshot.devices && e.name == d.device;
    var j :| 0 <= j < |snapshot.devices| && snapshot.devices[j] == e;
    assert filtered[j] in filtered && filtered[j].name == d.device;
    FilteredSame(snapshot, t.quarantined, ByName(filtered)[d.device]);
    assert BackAs(c, call, ByName(filtered)[d.device], d);
  }

  lemma FilteredSame(snapshot: Snapshot, q: Quarantine, e: InventoryDevice)
    requires e in Filter(snapshot, q).devices && e.name !in q
    ensures e in snapshot.devices
  {
    var filtered := Filter(snapshot, q).devices;
    var k :| 0 <= k < |filtered| && filtered[k] == e;
    assert filtered[k] == FilterDevice(snapshot.devices[k], q);
  }

  /** A device that the second observation does not return is away. */
  lemma MissingIsAway(c: Config, s: State, t: State, snapshot: Snapshot, call: Call, later: Call, uid: string,
                      devices: seq<ClaimDevice>)
    requires PassState(c, s, t, snapshot, false) && DeviceNames(devices) !! s.quarantined.Keys
    requires JustLooked(call, snapshot, uid) && call <= later && KnownLogged(s.known, call)
    requires exists d :: d in devices && !Returned(ByName(Filter(snapshot, t.quarantined).devices), d)
    ensures Away(c, later, uid, devices)
  {
    var d :| d in devices && !Returned(ByName(Filter(snapshot, t.quarantined).devices), d);
    var v := |call| - 1;
    KnownStaysLogged(s.known, call, later);
    assert later[v] == call[v] && later[v - 1] == call[v - 1] && LookedAt(later, snapshot);
    if Back(c, later, snapshot, d) {
      BackIsReturned(c, s, t, snapshot, later, d);
    }
    assert LookAfterReset(later, v, uid);
    assert AwayAt(c, later, v, uid, d);
  }

  /** The last step was a look at the inventory, right after a reset for this claim. */
  ghost predicate JustLooked(call: Call, snapshot: Snapshot, uid: string) {
    && |call| >= 2 && IsPreflight(call[|call| - 2].step, uid)
    && call[|call| - 1].step.Looked? && call[|call| - 1].step.seen == Some(snapshot)
  }

  /** This call observed every one of these devices at its path. */
  ghost predicate PathsSeen(call: Call, byName: map<string, InventoryDevice>) {
    forall n :: n in byName ==> PathSeen(call, |call|, n, byName[n].path)
  }

  lemma PathsSeenMonotone(call: Call, later: Call, byName: map<string, InventoryDevice>)
    requires call <= later && PathsSeen(call, byName)
    ensures PathsSeen(later, byName)
  {
    forall n | n in byName ensures PathSeen(later, |later|, n, byName[n].path) {
      PathSeenMonotone(call, later, |call|, |later|, n, byName[n].path);
    }
  }

  lemma ObservedPathsSeen(call: Call, s: Snapshot, q: map<string, QuarantineRecord>)
    requires call != [] && call[|call| - 1].step == Observed(Filter(s, q))
    ensures PathsSeen(call, ByName(s.devices))
  {
    ByNameMembers(s.devices);
    forall n | n in ByName(s.devices) ensures PathSeen(call, |call|, n, ByName(s.devices)[n].path) {
      var k: nat :| k < |s.devices| && s.devices[k] == ByName(s.devices)[n];
      assert PathSeenAt(call, |call|, n, s.devices[k].path, |call| - 1, k);
    }
  }

  class Agent {
    const config: Config
    var state: State
    var world: World
    var lastSnapshot: Snapshot
    ghost var call: Call
    ghost var past: seq<Call>

    /**
     * Every call of the run so far kept the laws, the last one left this world, and the state is ready for the next.
     */
    ghost predicate Valid()
      reads this`state, this`world, this`call, this`past
    {
      Settled(state, world) && LawfulCall(call) && EndsAt(call, world) && LawfulPast(past) && Follows(past, call)
    }

    /** A process that has not started up yet, over whatever world its predecessor left. */
    constructor (config: Config, world: World)
      ensures this.config == config && this.world == world
      ensures state == State(STATE_VERSION, map[], map[], map[]) && call == [] && past == []
    {
      this.config, this.world := config, world;
      state := State(STATE_VERSION, map[], map[], map[]);
      lastSnapshot := Snapshot([], None);
      call, past := [], [];
    }

    ghost predicate InCall()
      reads this`state, this`world, this`call
    {
      Open(state, world, call)
    }

    // ---- The environment: each effect may fail ----

    /** The state file is replaced as a whole; a reported failure leaves it old or new. */
    method WriteStateFile() returns (ok: bool)
      modifies this`world
      ensures world == old(world).(disk := Some(state)) || (!ok && world == old(world))
    {
      ok := *;
      var written: bool := *;
      if ok || written {
        world := world.(disk := Some(state));
      }
    }

    method WriteSpecFile(claim: PreparedClaim) returns (ok: bool)
      modifies this`world
      ensures world == old(world).(cdi := old(world.cdi)[claim.uid := SpecOf(claim)]) || (!ok && world == old(world))
    {
      ok := *;
      var written: bool := *;
      if ok || written {
        world := world.(cdi := world.cdi[claim.uid := SpecOf(claim)]);
      }
    }

    method RemoveSpecFile(uid: string) returns (ok: bool)
      modifies this`world
      ensures world == old(world).(cdi := old(world.cdi) - {uid}) || (!ok && world == old(world))
    {
      ok := *;
      var removed: bool := *;
      if ok || removed {
        world := world.(cdi := world.cdi - {uid});
      }
    }

    method Persist() returns (ok: bool)
      requires Savable(state, world, call)
      modifies this`world, this`call
      ensures call == old(call) + [Entry(Persisted(ok), old(world), world)]
      ensures world == old(world).(disk := Some(state)) || (!ok && world == old(world))
      ensures Safe(world) && LawfulCall(call)
      ensures !ok ==> Rough(config, call, |old(call)|)
    {
      ok := WriteStateFile();
      ghost var e := Entry(Persisted(ok), old(world), world);
      LawfulAppend(call, e);
      call := call + [e];
    }

    /** Persisting a state that accounts for everything on disk. */
    method Save() returns (ok: bool)
      requires InCall()
      modifies this`world, this`call
      ensures InCall()
      ensures call == old(call) + [Entry(Persisted(ok), old(world), world)]
      ensures world == old(world).(disk := Some(state)) || (!ok && world == old(world))
      ensures !ok ==> Rough(config, call, |old(call)|)
    {
      OpenIsSavable(state, world, call);
      ok := Persist();
      OpenPersist(state, old(world), world, old(call), call);
    }

    method WriteCDI(claim: PreparedClaim) returns (ok: bool)
      requires Safe(world) && WellFormed(world) && LawfulCall(call) && EndsAt(call, world)
      requires claim.uid in DiskClaims(world)
      modifies this`world, this`call
      ensures call == old(call) + [Entry(WroteCDI(claim, ok), old(world), world)]
      ensures world == old(world).(cdi := old(world.cdi)[claim.uid := SpecOf(claim)]) || (!ok && world == old(world))
      ensures Safe(world) && LawfulCall(call)
      ensures !ok ==> Rough(config, call, |old(call)|)
    {
      ok := WriteSpecFile(claim);
      ghost var e := Entry(WroteCDI(claim, ok), old(world), world);
      LawfulAppend(call, e);
      call := call + [e];
    }

    method RemoveCDI(uid: string) returns (ok: bool)
      requires Safe(world) && WellFormed(world) && LawfulCall(call) && EndsAt(call, world)
      modifies this`world, this`call
      ensures call == old(call) + [Entry(RemovedCDI(uid, ok), old(world), world)]
      ensures world == old(world).(cdi := old(world.cdi) - {uid}) || (!ok && world == old(world))
      ensures Safe(world) && LawfulCall(call)
      ensures !ok ==> Rough(config, call, |old(call)|)
    {
      ok := RemoveSpecFile(uid);
      ghost var e := Entry(RemovedCDI(uid, ok), old(world), world);
      LawfulAppend(call, e);
      call := call + [e];
    }

    method Audit(event: AuditEvent) returns (ok: bool)
      modifies this`call
      ensures call == old(call) + [Entry(Audited(event, ok), world, world)]
    {
      ok := *;
      call := call + [Entry(Audited(event, ok), world, world)];
    }

    method ResetDevice(device: string, path: string) returns (ok: bool)
      modifies this`call
      ensures call == old(call) + [Entry(Reset(device, path, ok), world, world)]
    {
      ok := *;
      call := call + [Entry(Reset(device, path, ok), world, world)];
    }

    method Discover() returns (s: Option<Snapshot>, now: int)
      modifies this`call
      ensures call == old(call) + [Entry(Looked(s, now), world, world)]
    {
      s := *;
      now := Clock();
      call := call + [Entry(Looked(s, now), world, world)];
    }

    method Clock() returns (now: int)
    {
      now := *;
    }

    // ---- state.go ----

    /** `lockAndReload`: decodes the state file over the live maps, so entries only in memory stay. */
    method Reload() returns (ok: bool)
      requires Valid()
      modifies this
      ensures lastSnapshot == old(lastSnapshot) && world == old(world)
      ensures past == old(past) + [old(call)]
      ensures call == [Entry(Reloaded(ok, state.quarantined, state.known), world, world)]
      ensures ok ==> InCall() && state == old(Loaded())
      ensures ok ==> DiskClaims(world).Keys <= state.claims.Keys
      ensures ok ==> state.claims == old(state.claims) + DiskClaims(world)
      ensures ok ==> state.quarantined == old(state.quarantined) + DiskQuarantine(world)
      ensures ok && world.disk.Some? ==> state.known == old(state.known) + world.disk.value.known
      ensures !ok || world.disk.None? ==> state == old(state)
      ensures Valid()
    {
      AfterReloadMerges(state, world);
      SettledReload(state, world);
      ok := *;
      ghost var loaded := if ok then AfterReload(state, world) else state;
      NextCall(past, call, world, Reloaded(ok, loaded.quarantined, loaded.known));
      if ok {
        OpenReloaded(state, world, [Entry(Reloaded(true, loaded.quarantined, loaded.known), world, world)]);
      }
      past := past + [call];
      if ok && world.disk.Some? {
        state := Migrate(Merge(state, world.disk.value));
        ok := state.version == STATE_VERSION;
      }
      call := [Entry(Reloaded(ok, state.quarantined, state.known), world, world)];
      assert state == loaded;
    }

    // ---- janitor.go ----

    /** Not older than configured, and at most five seconds ahead of the clock. */
    method IsRecent(s: Snapshot, now: int) returns (recent: bool)
      ensures recent <==> FreshAt(s, config.maxInventoryAge, now)
      ensures recent <==> s.observedAt.Some? && -5_000_000_000 <= now - s.observedAt.value <= config.maxInventoryAge
    {
      recent := && s.observedAt.Some? && now - s.observedAt.value >= -FUTURE_TOLERANCE
                && now - s.observedAt.value <= config.maxInventoryAge;
    }

    method Fresh(s: Snapshot) returns (recent: bool, ghost now: int)
      ensures recent <==> FreshAt(s, config.maxInventoryAge, now)
    {
      var t := Clock();
      now := t;
      recent := IsRecent(s, t);
    }

    /** What discovery reports, if it is recent. */
    method Look() returns (r: Option<Snapshot>)
      modifies this`call
      ensures |call| == |old(call)| + 1 && Quiet(old(call), call, world) && call[|old(call)|].step.Looked?
      ensures r.Some? ==> call[|old(call)|].step.seen == r
      ensures r.None? <==> Failed(config, call[|old(call)|].step)
    {
      var now;
      r, now := Discover();
      if r.Some? {
        var recent := IsRecent(r.value, now);
        if !recent {
          r := None;
        }
      }
    }

    /** `quarantineLocked`. */
    method Quarantine(name: string, path: string, reason: string, claimUID: string, action: Action) returns (ok: bool)
      requires reason != ""
      modifies this`state, this`call
      ensures state == old(state).(quarantined := state.quarantined)
      ensures state.quarantined.Keys == old(state.quarantined.Keys) + {name}
      ensures MarkOf(state.quarantined, name) == Marked(old(MarkOf(state.quarantined, name)), reason)
      ensures Grows(old(state.quarantined), state.quarantined)
      ensures forall n :: n in old(state.quarantined) && n != name ==> state.quarantined[n] == old(state.quarantined)[n]
      ensures old(ReasonsGiven(state.quarantined)) ==> ReasonsGiven(state.quarantined)
      ensures Quiet(old(call), call, world)
      ensures forall i :: |old(call)| <= i < |call| ==> call[i].step.Audited? && call[i].step.event.action == action
      ensures !ok ==> Rough(config, call, |old(call)|)
    {
      if name in state.quarantined && state.quarantined[name].reason == reason {
        return true;
      }
      var since := Clock();
      if name in state.quarantined {
        since := state.quarantined[name].since;
      }
      state := state.(quarantined := state.quarantined[name := QuarantineRecord(reason, since, false)]);
      ok := Audit(AuditEvent(action, "quarantined", name, path, claimUID, reason));
      assert !ok ==> Failed(config, call[|old(call)|].step);
    }

    /** `sanitizeLocked`: a device leaves quarantine only by a reset that succeeded and was audited. */
    method Sanitize(action: Action, name: string, path: string, claimUID: string) returns (ok: bool)
      requires ReasonsGiven(state.quarantined)
      modifies this`state, this`call
      ensures state == old(state).(quarantined := state.quarantined)
      ensures ok ==> state.quarantined == old(state.quarantined) - {name}
      ensures !ok ==> state.quarantined.Keys == old(state.quarantined.Keys) + {name}
      ensures !ok && name in old(state.quarantined) ==>
                state.quarantined[name] == old(state.quarantined)[name].(reason := state.quarantined[name].reason)
      ensures !ok ==> forall n :: n in old(state.quarantined) && n != name ==>
                state.quarantined[n] == old(state.quarantined)[n]
      ensures ReasonsGiven(state.quarantined)
      ensures Quiet(old(call), call, world) && |call| == |old(call)| + 2
      ensures call[|old(call)|].step.Reset? && call[|old(call)|].step.device == name
      ensures call[|old(call)|].step.path == path
      ensures call[|old(call)| + 1].step.Audited? && call[|old(call)| + 1].step.event.action == action
      ensures call[|old(call)| + 1].step.event.device == name
      ensures call[|old(call)| + 1].step.event.claimUID == claimUID
      ensures ok <==> call[|old(call)|].step.ok && call[|old(call)| + 1].step.ok
      ensures Moves(old(state.quarantined), state.quarantined, call, |old(call)|)
      ensures !ok ==> Rough(config, call, |old(call)|)
    {
      var reset, audited := ResetAndAudit(action, name, path, claimUID);
      if reset && audited {
        assert CleanlyResetAt(call, |old(call)|, name);
        state := state.(quarantined := state.quarantined - {name});
        return true;
      }
      MarkUnsanitized(name, if !reset then RESET_FAILED else AUDIT_FAILED);
      ok := false;
    }

    method ResetAndAudit(action: Action, name: string, path: string, claimUID: string)
      returns (reset: bool, audited: bool)
      modifies this`call
      ensures Quiet(old(call), call, world) && |call| == |old(call)| + 2
      ensures call[|old(call)|].step == Reset(name, path, reset)
      ensures call[|old(call)| + 1].step.Audited? && call[|old(call)| + 1].step.ok == audited
      ensures call[|old(call)| + 1].step.event.action == action && call[|old(call)| + 1].step.event.device == name
      ensures call[|old(call)| + 1].step.event.claimUID == claimUID
    {
      reset := ResetDevice(name, path);
      audited := Audit(AuditEvent(action, if reset then "success" else "failure", name, path, claimUID, ""));
    }

    method MarkUnsanitized(name: string, reason: string)
      requires ReasonsGiven(state.quarantined) && reason != ""
      modifies this`state
      ensures state == old(state).(quarantined := state.quarantined)
      ensures state.quarantined.Keys == old(state.quarantined.Keys) + {name} && ReasonsGiven(state.quarantined)
      ensures name in old(state.quarantined) ==>
                state.quarantined[name] == old(state.quarantined)[name].(reason := reason)
      ensures Grows(old(state.quarantined), state.quarantined)
      ensures forall n :: n in old(state.quarantined) && n != name ==> state.quarantined[n] == old(state.quarantined)[n]
    {
      var since := Clock();
      var current := if name in state.quarantined then state.quarantined[name] else QuarantineRecord("", since, false);
      state := state.(quarantined := state.quarantined[name := current.(reason := reason)]);
    }

    /** `deviceOwners`; with a doubly recorded device the map order decides. */
    method DeviceOwners() returns (owners: map<string, string>)
      ensures owners.Keys == OwnedNames(state.claims)
      ensures forall d :: d in owners ==> owners[d] in state.claims && d in Names(state.claims[owners[d]])
      ensures IsOwners(owners, Recorded(state.claims))
    {
      owners := map[];
      var rest := state.claims.Keys;
      while rest != {}
        invariant rest <= state.claims.Keys
        invariant forall d :: d in owners ==> owners[d] in state.claims && d in Names(state.claims[owners[d]])
        invariant forall uid, d :: uid in state.claims && uid !in rest && d in state.claims[uid].devices ==>
                    d.device in owners
        decreases rest
      {
        var uid :| uid in rest;
        rest := rest - {uid};
        owners := AddOwner(owners, uid, state.claims[uid].devices);
      }
    }

    static method AddOwner(owners: map<string, string>, uid: string, devices: seq<ClaimDevice>)
      returns (result: map<string, string>)
      ensures result == WithOwner(owners, uid, DeviceNames(devices))
    {
      result := owners;
      for i := 0 to |devices|
        invariant result == WithOwner(owners, uid, DeviceNames(devices[..i]))
      {
        WithOneMore(owners, uid, DeviceNames(devices[..i]), devices[i].device);
        result := result[devices[i].device := uid];
        assert DeviceNames(devices[..i + 1]) == DeviceNames(devices[..i]) + {devices[i].device} by {
          assert devices[..i + 1] == devices[..i] + [devices[i]];
        }
      }
      assert devices[..|devices|] == devices;
    }

    /** `filterLocked`. */
    method FilterSnapshot(snapshot: Snapshot) returns (filtered: Snapshot)
      ensures filtered == Filter(snapshot, state.quarantined)
    {
      var devices := snapshot.devices;
      for i := 0 to |devices|
        invariant |devices| == |snapshot.devices|
        invariant forall k :: 0 <= k < |devices| ==>
                    devices[k] == if k < i then FilterDevice(snapshot.devices[k], state.quarantined)
                                  else snapshot.devices[k]
      {
        var name := devices[i].name;
        if name in state.quarantined {
          devices := devices[i := devices[i].(eligible := false,
                                              rejectionReason := "quarantined: " + state.quarantined[name].reason)];
        }
      }
      filtered := snapshot.(devices := devices);
    }

    /** `safetyFor`. */
    method SafetyFor(snapshot: Snapshot) returns (safety: Safety)
      ensures safety.total == |state.known|
      ensures safety.healthy == CountAvailable(snapshot.devices, state.quarantined)
      ensures safety.isUnsafe <==> safety.healthy == 0
    {
      var healthy := 0;
      for i := 0 to |snapshot.devices|
        invariant healthy == CountAvailable(snapshot.devices[..i], state.quarantined)
      {
        assert snapshot.devices[..i + 1][..i] == snapshot.devices[..i];
        var item := snapshot.devices[i];
        if item.name !in state.quarantined && item.eligible && item.health == Healthy {
          healthy := healthy + 1;
        }
      }
      assert snapshot.devices[..|snapshot.devices|] == snapshot.devices;
      safety := Safety(healthy == 0, healthy, |state.known|);
    }

    /** A device on the path of another known device has changed its identity. */
    method QuarantineRehomed(item: InventoryDevice) returns (ok: bool)
      requires ReasonsGiven(state.quarantined)
      modifies this`state, this`call
      ensures state == old(state).(quarantined := state.quarantined)
      ensures Grows(old(state.quarantined), state.quarantined)
      ensures SameOutside(old(state.quarantined), state.quarantined, {item.name})
      ensures MarkOf(state.quarantined, item.name) ==
                if Rehomed(state.known, item) then Marked(old(MarkOf(state.quarantined, item.name)), MOVED_DEVICE)
                else old(MarkOf(state.quarantined, item.name))
      ensures ReasonsGiven(state.quarantined)
      ensures Quiet(old(call), call, world) && ResetsOnly(call, |old(call)|, {})
      ensures !ok ==> Rough(config, call, |old(call)|)
    {
      ok := true;
      ghost var moved := false;
      var rest := state.known.Keys;
      while rest != {}
        invariant !ok ==> Rough(config, call, |old(call)|)
        invariant state == old(state).(quarantined := state.quarantined) && rest <= state.known.Keys
        invariant Grows(old(state.quarantined), state.quarantined)
        invariant SameOutside(old(state.quarantined), state.quarantined, {item.name})
        invariant moved <==>
                    exists p :: p in state.known && p !in rest && p != item.name && state.known[p].path == item.path
        invariant MarkOf(state.quarantined, item.name) ==
                    if moved then Marked(old(MarkOf(state.quarantined, item.name)), MOVED_DEVICE)
                    else old(MarkOf(state.quarantined, item.name))
        invariant ReasonsGiven(state.quarantined)
        invariant Quiet(old(call), call, world) && ResetsOnly(call, |old(call)|, {})
        decreases rest
      {
        var prior :| prior in rest;
        rest := rest - {prior};
        if prior != item.name && state.known[prior].path == item.path {
          var step := Quarantine(item.name, item.path, MOVED_DEVICE, "", Hotplug);
          ok := ok && step;
          moved := true;
        }
      }
    }

    /** One observed device: unknown, re-homed or unsafe hardware is quarantined. */
    method ObserveDevice(item: InventoryDevice, at: Option<int>, recoverIdle: bool, owners: map<string, string>)
      returns (ok: bool)
      requires ReasonsGiven(state.quarantined)
      modifies this`state, this`call
      ensures ScanTurn(config, old(state), state, item, at, recoverIdle)
      ensures ReasonsGiven(state.quarantined)
      ensures Quiet(old(call), call, world) && ResetsOnly(call, |old(call)|, {})
      ensures !ok ==> Rough(config, call, |old(call)|)
    {
      ok := CheckHotplug(item, recoverIdle);
      ghost var before := call;
      state := state.(known := state.known[item.name := KnownDevice(item.path, at)]);
      var reason := UnsafeReason(config, item);
      SafeDeviceMeans(config, item);
      if reason != "" {
        var owner := if item.name in owners then owners[item.name] else "";
        var step := Quarantine(item.name, item.path, reason, owner, HealthAction(owner));
        ok := ok && step;
        QuietTrans(old(call), before, call, world);
      }
    }

    /** A device that is new, or took over another one's path. */
    method CheckHotplug(item: InventoryDevice, recoverIdle: bool) returns (ok: bool)
      requires ReasonsGiven(state.quarantined)
      modifies this`state, this`call
      ensures state == old(state).(quarantined := state.quarantined)
      ensures Grows(old(state.quarantined), state.quarantined)
      ensures SameOutside(old(state.quarantined), state.quarantined, {item.name})
      ensures MarkOf(state.quarantined, item.name) ==
                HotplugMark(state.known, old(MarkOf(state.quarantined, item.name)), item, recoverIdle)
      ensures ReasonsGiven(state.quarantined)
      ensures Quiet(old(call), call, world) && ResetsOnly(call, |old(call)|, {})
      ensures !ok ==> Rough(config, call, |old(call)|)
    {
      ok := true;
      if item.name !in state.known && recoverIdle {
        ok := Quarantine(item.name, item.path, NEW_DEVICE, "", Hotplug);
      }
      ghost var before := call;
      var step := QuarantineRehomed(item);
      ok := ok && step;
      QuietTrans(old(call), before, call, world);
    }

    static function HealthAction(owner: string): Action { if owner != "" then ActiveHealth else IdleHealth }

    /** Known devices that were not observed are quarantined. */
    method QuarantineMissing(observed: map<string, InventoryDevice>, owners: map<string, string>) returns (ok: bool)
      requires ReasonsGiven(state.quarantined)
      modifies this`state, this`call
      ensures state == old(state).(quarantined := state.quarantined)
      ensures forall n :: n in state.quarantined <==>
                n in old(state.quarantined) || (n in state.known && n !in observed)
      ensures Grows(old(state.quarantined), state.quarantined)
      ensures SameOutside(old(state.quarantined), state.quarantined, state.known.Keys - observed.Keys)
      ensures ReasonsGiven(state.quarantined)
      ensures Quiet(old(call), call, world) && ResetsOnly(call, |old(call)|, {})
      ensures !ok ==> Rough(config, call, |old(call)|)
    {
      ok := true;
      var rest := state.known.Keys;
      while rest != {}
        invariant !ok ==> Rough(config, call, |old(call)|)
        invariant state == old(state).(quarantined := state.quarantined) && rest <= state.known.Keys
        invariant forall n :: n in state.quarantined <==>
                    n in old(state.quarantined) || (n in state.known && n !in rest && n !in observed)
        invariant Grows(old(state.quarantined), state.quarantined)
        invariant SameOutside(old(state.quarantined), state.quarantined, state.known.Keys - observed.Keys)
        invariant ReasonsGiven(state.quarantined)
        invariant Quiet(old(call), call, world) && ResetsOnly(call, |old(call)|, {})
        decreases rest
      {
        var name :| name in rest;
        rest := rest - {name};
        if name !in observed {
          var owner := if name in owners then owners[name] else "";
          var step := Quarantine(name, state.known[name].path, "device is no longer observed", owner,
                                 HealthAction(owner));
          ok := ok && step;
        }
      }
    }

    /** One idle quarantined device: reset it, or release it after a healthy observation. */
    method RecoverOne(name: string, item: InventoryDevice) returns (ok: bool)
      requires ReasonsGiven(state.quarantined) && name in state.quarantined
      modifies this`state, this`call
      ensures state == old(state).(quarantined := state.quarantined)
      ensures SameOutside(old(state.quarantined), state.quarantined, {name})
      ensures !SafeDevice(config, item) ==> name in state.quarantined && (ok ==> state.quarantined[name].awaitingHealth)
      ensures SafeDevice(config, item) && name in state.quarantined ==> RecoveryFailed(call, |old(call)|, name)
      ensures SafeDevice(config, item) && old(state.quarantined)[name].awaitingHealth ==>
                ResetsOnly(call, |old(call)|, {})
      ensures !(SafeDevice(config, item) && old(state.quarantined)[name].awaitingHealth) ==>
                WasReset(call, |old(call)|, name)
      ensures forall i :: |old(call)| <= i < |call| && call[i].step.Reset? ==>
                call[i].step.device == name && call[i].step.path == item.path
      ensures Moves(old(state.quarantined), state.quarantined, call, |old(call)|)
      ensures ReasonsGiven(state.quarantined)
      ensures Quiet(old(call), call, world)
      ensures !ok ==> Rough(config, call, |old(call)|)
    {
      var record := state.quarantined[name];
      var hazardous := UnsafeReason(config, item) != "";
      SafeDeviceMeans(config, item);
      if record.awaitingHealth && !hazardous {
        ok := ReleaseHealthy(name, item.path);
      } else {
        ok := RecoverByReset(name, item.path, hazardous, record.since);
      }
    }

    /** A device that only waited for a healthy observation. */
    method ReleaseHealthy(name: string, path: string) returns (ok: bool)
      requires ReasonsGiven(state.quarantined) && name in state.quarantined && state.quarantined[name].awaitingHealth
      modifies this`state, this`call
      ensures state == if ok then old(state).(quarantined := old(state.quarantined) - {name}) else old(state)
      ensures ReasonsGiven(state.quarantined) && (!ok ==> RecoveryFailed(call, |old(call)|, name))
      ensures Moves(old(state.quarantined), state.quarantined, call, |old(call)|)
      ensures Quiet(old(call), call, world) && ResetsOnly(call, |old(call)|, {})
      ensures !ok ==> Rough(config, call, |old(call)|)
    {
      ok := Audit(AuditEvent(RecoveryHealth, "success", name, path, "", ""));
      assert !ok ==> FailedFor(call[|old(call)|].step, name);
      if ok {
        assert IsRecovery(call[|old(call)|].step.event, name);
        state := state.(quarantined := state.quarantined - {name});
      }
    }

    /** Any other device; one that is unsafe stays quarantined until it is seen healthy. */
    method RecoverByReset(name: string, path: string, hazardous: bool, since: int) returns (ok: bool)
      requires ReasonsGiven(state.quarantined) && name in state.quarantined
      modifies this`state, this`call
      ensures state == old(state).(quarantined := state.quarantined) && ReasonsGiven(state.quarantined)
      ensures SameOutside(old(state.quarantined), state.quarantined, {name})
      ensures hazardous ==> name in state.quarantined && (ok ==> state.quarantined[name].awaitingHealth)
      ensures !hazardous && name in state.quarantined ==> RecoveryFailed(call, |old(call)|, name)
      ensures WasReset(call, |old(call)|, name)
      ensures forall i :: |old(call)| <= i < |call| && call[i].step.Reset? ==>
                call[i].step.device == name && call[i].step.path == path
      ensures Moves(old(state.quarantined), state.quarantined, call, |old(call)|)
      ensures Quiet(old(call), call, world)
      ensures !ok ==> Rough(config, call, |old(call)|)
    {
      ok := Sanitize(RecoverySanitize, name, path, "");
      assert call[|old(call)|].step.Reset?;
      assert !ok ==> FailedFor(call[|old(call)|].step, name) || FailedFor(call[|old(call)| + 1].step, name);
      if ok && hazardous {
        assert CleanlyResetAt(call, |old(call)|, name);
        state := state.(quarantined := state.quarantined[name :=
          QuarantineRecord("awaiting healthy observation after sanitization", since, true)]);
        ResetMoves(old(state.quarantined), state.quarantined, call, |old(call)|, name);
      }
    }

    /** One turn of the recovery loop. */
    method RecoverIfIdle(name: string, item: InventoryDevice, owned: bool) returns (ok: bool)
      requires ReasonsGiven(state.quarantined)
      modifies this`state, this`call
      ensures state == old(state).(quarantined := state.quarantined)
      ensures Turn(config, old(state.quarantined), state.quarantined, old(call), call, name, item, owned)
      ensures ReasonsGiven(state.quarantined) && Quiet(old(call), call, world)
      ensures !ok ==> Rough(config, call, |old(call)|)
    {
      ok := true;
      if name in state.quarantined && !owned && item.present {
        ok := RecoverOne(name, item);
      }
    }

    /** The recovery loop, over the observed devices in no particular order. */
    method RecoverIdle(observed: map<string, InventoryDevice>, owners: map<string, string>) returns (ok: bool)
      requires ReasonsGiven(state.quarantined)
      requires forall n :: n in owners ==> owners[n] != ""
      modifies this`state, this`call
      ensures state == old(state).(quarantined := state.quarantined)
      ensures RecoveredTo(config, observed, owners.Keys, old(state.quarantined), state.quarantined, call, |old(call)|,
                          {})
      ensures ReasonsGiven(state.quarantined)
      ensures Quiet(old(call), call, world)
      ensures !ok ==> Rough(config, call, |old(call)|)
    {
      ok := true;
      var rest := observed.Keys;
      while rest != {}
        invariant !ok ==> Rough(config, call, |old(call)|)
        invariant state == old(state).(quarantined := state.quarantined) && rest <= observed.Keys
        invariant RecoveredTo(config, observed, owners.Keys, old(state.quarantined), state.quarantined, call,
                              |old(call)|, rest)
        invariant ReasonsGiven(state.quarantined)
        invariant Quiet(old(call), call, world)
        decreases rest
      {
        var name :| name in rest;
        ghost var before, q := call, state.quarantined;
        var step := RecoverIfIdle(name, observed[name], name in owners && owners[name] != "");
        ok := ok && step;
        RecoverTurn(config, observed, owners.Keys, old(state.quarantined), q, state.quarantined, before, call,
                    |old(call)|, rest, name);
        rest := rest - {name};
      }
    }

    /** The first loop of `observeLocked`: it only adds to the quarantine. */
    method ScanDevices(snapshot: Snapshot, recoverIdle: bool, owners: map<string, string>) returns (ok: bool)
      requires ReasonsGiven(state.quarantined)
      modifies this`state, this`call
      ensures ScanProgress(config, old(state), state, snapshot, recoverIdle, |snapshot.devices|)
      ensures ReasonsGiven(state.quarantined)
      ensures Quiet(old(call), call, world) && ResetsOnly(call, |old(call)|, {})
      ensures !ok ==> Rough(config, call, |old(call)|)
    {
      ok := true;
      for i := 0 to |snapshot.devices|
        invariant !ok ==> Rough(config, call, |old(call)|)
        invariant ScanProgress(config, old(state), state, snapshot, recoverIdle, i)
        invariant ReasonsGiven(state.quarantined)
        invariant Quiet(old(call), call, world) && ResetsOnly(call, |old(call)|, {})
      {
        ghost var s := state;
        var step := ObserveDevice(snapshot.devices[i], snapshot.observedAt, recoverIdle, owners);
        ok := ok && step;
        ScanProgresses(config, old(state), s, state, snapshot, recoverIdle, i);
      }
    }

    /** The first two loops of `observeLocked`. */
    method Scan(snapshot: Snapshot, recoverIdle: bool, owners: map<string, string>)
      returns (observed: map<string, InventoryDevice>, ok: bool)
      requires ReasonsGiven(state.quarantined)
      modifies this`state, this`call
      ensures observed == ByName(snapshot.devices) && observed.Keys == NamesOf(snapshot.devices)
      ensures Scanned(config, old(state), state, snapshot, recoverIdle)
      ensures Quiet(old(call), call, world) && ResetsOnly(call, |old(call)|, {})
      ensures !ok ==> Rough(config, call, |old(call)|)
    {
      ok := ScanDevices(snapshot, recoverIdle, owners);
      ByNameMembers(snapshot.devices);
      observed := ByName(snapshot.devices);
      assert observed.Keys == NamesOf(snapshot.devices);
      ghost var t := state;
      var step := QuarantineMissing(observed, owners);
      ok := ok && step;
      ScanThenMissing(config, old(state), t, state, snapshot, recoverIdle);
    }

    /** The recovery loop runs only on a monitoring pass. */
    method RecoverIf(recoverIdle: bool, snapshot: Snapshot, observed: map<string, InventoryDevice>,
                     owners: map<string, string>) returns (ok: bool)
      requires ReasonsGiven(state.quarantined) && forall n :: n in owners ==> owners[n] != ""
      requires observed == ByName(snapshot.devices) && observed.Keys == NamesOf(snapshot.devices)
      requires owners.Keys == OwnedNames(state.claims) && Screened(config, snapshot, state.quarantined.Keys)
      requires state.known.Keys - NamesOf(snapshot.devices) <= state.quarantined.Keys
      modifies this`state, this`call
      ensures Thinned(config, old(state), state, snapshot, recoverIdle, call, |old(call)|)
      ensures Quiet(old(call), call, world)
      ensures !ok ==> Rough(config, call, |old(call)|)
    {
      ok := true;
      if recoverIdle {
        ok := RecoverIdle(observed, owners);
        assert DueSet(config, old(state.quarantined), observed, owners.Keys) - {} == DueSet(config,
                      old(state.quarantined), observed, owners.Keys);
        if DistinctNames(snapshot) {
          forall d | d in snapshot.devices ensures observed[d.name] == d { ByNameDistinct(snapshot, d); }
        }
      }
    }

    /** `observeLocked`. */
    method Observe(snapshot: Snapshot, recoverIdle: bool) returns (filtered: Snapshot, safety: Safety, ok: bool)
      requires ReasonsGiven(state.quarantined) && KeysOk(state.claims)
      modifies this`state, this`call
      ensures Pass(config, old(state), state, snapshot, recoverIdle, call, |old(call)|)
      ensures Quiet(old(call), call, world) && |old(call)| < |call| && call[|call| - 1].step == Observed(filtered)
      ensures FreshView(snapshot, state, filtered, safety)
      ensures !ok ==> Rough(config, call, |old(call)|)
    {
      ok := Sweep(snapshot, recoverIdle);
      filtered := FilterSnapshot(snapshot);
      safety := SafetyFor(filtered);
      ghost var before := call;
      call := call + [Entry(Observed(filtered), world, world)];
      StillRough(config, old(call), before, call, ok, true);
      PassAppend(config, old(state), state, snapshot, recoverIdle, before, call[|before|], |old(call)|);
    }

    /** The loops of `observeLocked`. */
    method Sweep(snapshot: Snapshot, recoverIdle: bool) returns (ok: bool)
      requires ReasonsGiven(state.quarantined) && KeysOk(state.claims)
      modifies this`state, this`call
      ensures Pass(config, old(state), state, snapshot, recoverIdle, call, |old(call)|)
      ensures Quiet(old(call), call, world)
      ensures !ok ==> Rough(config, call, |old(call)|)
    {
      var owners := DeviceOwners();
      var observed, recovered;
      observed, ok := Scan(snapshot, recoverIdle, owners);
      ghost var scanned, t := call, state;
      recovered := RecoverIf(recoverIdle, snapshot, observed, owners);
      ok := ok && recovered;
      QuietTrans(old(call), scanned, call, world);
      PassInTwo(config, old(state), t, state, snapshot, recoverIdle, call, |scanned|);
      PassQuietly(config, old(state), state, snapshot, recoverIdle, call, call, |old(call)|, |scanned|);
    }

    /** What memory holds right after a successful reload. */
    ghost function Loaded(): State
      reads this`state, this`world
    {
      AfterReload(state, world)
    }

    /**
     * `inventoryFailedLocked`: the last observation if and only if it is still recent, else every known device is
     * quarantined.
     */
    method InventoryFailedLocked() returns (filtered: Snapshot, safety: Safety, ok: bool, ghost now: int)
      requires InCall()
      modifies this`state, this`world, this`call
      ensures InCall() && old(call) <= call
      ensures state == old(state).(quarantined := state.quarantined)
      ensures world == old(world) || world == old(world).(disk := Some(state))
      ensures old(state.quarantined.Keys) <= state.quarantined.Keys
      ensures ResetsOnly(call, |old(call)|, {})
      ensures if FreshAt(lastSnapshot, config.maxInventoryAge, now)
              then filtered == Filter(lastSnapshot, state.quarantined) && state == old(state) && world == old(world)
              else filtered.devices == [] && state.quarantined.Keys == old(state.quarantined.Keys) + state.known.Keys
      ensures !ok ==> Rough(config, call, |old(call)|)
    {
      var recent;
      recent, now := Fresh(lastSnapshot);
      if recent {
        filtered := FilterSnapshot(lastSnapshot);
        safety := SafetyFor(filtered);
        ok := AuditInCall(AuditEvent(InventoryDegraded, "degraded", "", "", "", "inventory unavailable"));
        return;
      }
      ok := FenceKnown();
      var t := Clock();
      filtered := Snapshot([], Some(t));
      safety := SafetyFor(filtered);
    }

    /** Quarantines every known device and saves the result. */
    method FenceKnown() returns (ok: bool)
      requires InCall()
      modifies this`state, this`world, this`call
      ensures InCall() && old(call) <= call && state == old(state).(quarantined := state.quarantined)
      ensures world == old(world) || world == old(world).(disk := Some(state))
      ensures state.quarantined.Keys == old(state.quarantined.Keys) + state.known.Keys
      ensures ResetsOnly(call, |old(call)|, {}) && (!ok ==> Rough(config, call, |old(call)|))
    {
      ok := QuarantineKnown();
      OpenQuiet(old(state), state, world, old(call), call);
      var persisted := Save();
      ok := ok && persisted;
    }

    method QuarantineKnown() returns (ok: bool)
      requires ReasonsGiven(state.quarantined)
      modifies this`state, this`call
      ensures state == old(state).(quarantined := state.quarantined)
      ensures state.quarantined.Keys == old(state.quarantined.Keys) + state.known.Keys
      ensures ReasonsGiven(state.quarantined) && Grows(old(state.quarantined), state.quarantined)
      ensures Quiet(old(call), call, world) && ResetsOnly(call, |old(call)|, {})
      ensures !ok ==> Rough(config, call, |old(call)|)
    {
      ok := true;
      var rest := state.known.Keys;
      while rest != {}
        invariant !ok ==> Rough(config, call, |old(call)|)
        invariant state == old(state).(quarantined := state.quarantined) && rest <= state.known.Keys
        invariant forall n :: n in state.quarantined <==>
                    n in old(state.quarantined) || (n in state.known && n !in rest)
        invariant ReasonsGiven(state.quarantined) && Grows(old(state.quarantined), state.quarantined)
        invariant Quiet(old(call), call, world) && ResetsOnly(call, |old(call)|, {})
        decreases rest
      {
        var name :| name in rest;
        rest := rest - {name};
        var step := Quarantine(name, state.known[name].path, "inventory unavailable", "", InventoryDegraded);
        ok := ok && step;
      }
    }

    /** `InventoryFailed`. */
    method InventoryFailed() returns (filtered: Snapshot, safety: Safety, ok: bool, ghost now: int)
      requires Valid()
      modifies this
      ensures Valid() && past == old(past) + [old(call)] && BeginsAt(call, old(world))
      ensures WasReloaded(call) ==> Moves(old(Loaded()).quarantined, state.quarantined, call, 0)
      ensures !WasReloaded(call) ==> state == old(state)
      ensures state.claims == old(state.claims) || state.claims == old(Loaded()).claims
      ensures RecordsKept(old(world), world) && old(state.claims.Keys) <= state.claims.Keys
      ensures world.cdi == old(world.cdi) && ResetsOnly(call, 0, {})
      ensures WasReloaded(call) ==>
                lastSnapshot == old(lastSnapshot) && DegradedView(config, lastSnapshot, state, filtered, now)
      ensures old(Exclusive(state, world)) ==> Exclusive(state, world)
      ensures !ok ==> Rough(config, call, 0)
    {
      now := 0;
      var reloaded := Reload();
      if !reloaded {
        return Snapshot([], None), Safety(false, 0, 0), false, 0;
      }
      ReloadKeepsExclusive(old(state), state, world);
      ghost var s, opening := state, call;
      filtered, safety, ok, now := InventoryFailedLocked();
      StillFollows(past, opening, call);
      SavedKeepsRecords(s, state, old(world), world);
      DroppingKeepsExclusive(s, old(world), state, world, "");
    }

    /** `Monitor`, with the snapshot judged at `now` and, if it is not recent, the last one at `later`. */
    method Monitor(snapshot: Snapshot)
      returns (filtered: Snapshot, safety: Safety, ok: bool, ghost now: int, ghost later: int)
      requires Valid()
      modifies this
      ensures Valid() && past == old(past) + [old(call)] && BeginsAt(call, old(world))
      ensures WasReloaded(call) ==> Moves(old(Loaded()).quarantined, state.quarantined, call, 0)
      ensures !WasReloaded(call) ==> state == old(state)
      ensures state.claims == old(state.claims) || state.claims == old(Loaded()).claims
      ensures RecordsKept(old(world), world) && old(state.claims.Keys) <= state.claims.Keys
      ensures world.cdi == old(world.cdi)
      ensures if WasReloaded(call) && FreshAt(snapshot, config.maxInventoryAge, now)
              then && Pass(config, old(Loaded()), state, snapshot, true, call, 0)
                   && lastSnapshot == snapshot && FreshView(snapshot, state, filtered, safety)
                   && (ok ==> world.disk == Some(state))
              else ResetsOnly(call, 0, {}) && lastSnapshot == old(lastSnapshot)
      ensures WasReloaded(call) && !FreshAt(snapshot, config.maxInventoryAge, now) ==>
                DegradedView(config, lastSnapshot, state, filtered, later)
      ensures old(Exclusive(state, world)) ==> Exclusive(state, world)
      ensures !ok ==> Rough(config, call, 0)
    {
      now, later := 0, 0;
      var reloaded := Reload();
      if !reloaded {
        return Snapshot([], None), Safety(false, 0, 0), false, 0, 0;
      }
      ReloadKeepsExclusive(old(state), state, world);
      ghost var opening := call;
      filtered, safety, ok, now, later := MonitorLoaded(snapshot);
      StillFollows(past, opening, call);
    }

    /** The part of `Monitor` after the reload. */
    method MonitorLoaded(snapshot: Snapshot)
      returns (filtered: Snapshot, safety: Safety, ok: bool, ghost now: int, ghost later: int)
      requires InCall() && ResetsOnly(call, 0, {}) && DiskClaims(world).Keys <= state.claims.Keys
      modifies this`state, this`world, this`call, this`lastSnapshot
      ensures InCall() && old(call) <= call && state.claims == old(state.claims)
      ensures RecordsKept(old(world), world) && world.cdi == old(world.cdi)
      ensures old(Exclusive(state, world)) ==> Exclusive(state, world)
      ensures if FreshAt(snapshot, config.maxInventoryAge, now)
              then && Pass(config, old(state), state, snapshot, true, call, 0)
                   && lastSnapshot == snapshot && FreshView(snapshot, state, filtered, safety)
                   && (ok ==> world.disk == Some(state))
              else && ResetsOnly(call, 0, {}) && lastSnapshot == old(lastSnapshot)
                   && DegradedView(config, lastSnapshot, state, filtered, later)
      ensures !ok ==> Rough(config, call, |old(call)|)
    {
      var recent;
      recent, now := Judge(snapshot);
      filtered, safety, ok, later := Respond(snapshot, recent);
      SaveKeeps(old(state), state, old(world), world);
    }

    /** A pass over a recent observation, else the degraded view. */
    method Respond(snapshot: Snapshot, recent: bool)
      returns (filtered: Snapshot, safety: Safety, ok: bool, ghost later: int)
      requires InCall() && ResetsOnly(call, 0, {}) && LookedAt(call, snapshot)
      modifies this`state, this`world, this`call, this`lastSnapshot
      ensures InCall() && old(call) <= call && state.claims == old(state.claims)
      ensures world == old(world) || world == old(world).(disk := Some(state))
      ensures if recent
              then && Pass(config, old(state), state, snapshot, true, call, 0)
                   && lastSnapshot == snapshot && FreshView(snapshot, state, filtered, safety)
                   && (ok ==> world.disk == Some(state))
              else && ResetsOnly(call, 0, {}) && lastSnapshot == old(lastSnapshot)
                   && DegradedView(config, lastSnapshot, state, filtered, later)
      ensures !ok ==> Rough(config, call, |old(call)|)
    {
      later := 0;
      if recent {
        filtered, safety, ok := Watch(snapshot);
      } else {
        filtered, safety, ok, later := InventoryFailedLocked();
      }
    }

    /** A given observation counts as a look at the inventory. */
    method Judge(snapshot: Snapshot) returns (recent: bool, ghost now: int)
      requires InCall()
      modifies this`call
      ensures InCall() && call == old(call) + [Entry(Looked(Some(snapshot), now), world, world)]
      ensures recent <==> FreshAt(snapshot, config.maxInventoryAge, now)
      ensures LookedAt(call, snapshot)
    {
      recent, now := Fresh(snapshot);
      call := call + [Entry(Looked(Some(snapshot), now), world, world)];
      assert call[|old(call)|].step.seen == Some(snapshot);
      OpenQuiet(state, state, world, old(call), call);
    }

    method ObserveInCall(snapshot: Snapshot) returns (filtered: Snapshot, safety: Safety, ok: bool)
      requires InCall() && ResetsOnly(call, 0, {}) && LookedAt(call, snapshot)
      modifies this`state, this`call, this`lastSnapshot
      ensures InCall() && old(call) <= call
      ensures Pass(config, old(state), state, snapshot, true, call, 0)
      ensures lastSnapshot == snapshot && FreshView(snapshot, state, filtered, safety)
      ensures !ok ==> Rough(config, call, |old(call)|)
    {
      filtered, safety, ok := Observe(snapshot, true);
      PassKnownLogged(config, old(state), state, snapshot, true, old(call), call);
      PassQuietly(config, old(state), state, snapshot, true, call, call, 0, |old(call)|);
      OpenQuiet(old(state), state, world, old(call), call);
      lastSnapshot := snapshot;
    }

    method Watch(snapshot: Snapshot) returns (filtered: Snapshot, safety: Safety, ok: bool)
      requires InCall() && ResetsOnly(call, 0, {}) && LookedAt(call, snapshot)
      modifies this`state, this`world, this`call, this`lastSnapshot
      ensures InCall() && old(call) <= call
      ensures Pass(config, old(state), state, snapshot, true, call, 0)
      ensures world == old(world) || world == old(world).(disk := Some(state))
      ensures lastSnapshot == snapshot && FreshView(snapshot, state, filtered, safety)
      ensures ok ==> world.disk == Some(state)
      ensures !ok ==> Rough(config, call, |old(call)|)
    {
      filtered, safety, ok := ObserveInCall(snapshot);
      ghost var before := call;
      var persisted := Save();
      ok := ok && persisted;
      PassAppend(config, old(state), state, snapshot, true, before, call[|before|], 0);
    }

    // ---- manager.go: prepare ----

    /** `claimFromAllocation`: accepts exactly the acceptable allocations and captures their current identity. */
    method ClaimFromAllocation(claim: ResourceClaim, byName: map<string, InventoryDevice>, owners: map<string, string>)
      returns (r: Result<PreparedClaim>)
      requires claim.allocation.Some?
      ensures r.Ok? <==> ClaimAcceptable(config, claim, byName, owners)
      ensures r.Ok? ==> r.value.phase == Preparing && RecordOf(config, claim, byName, r.value)
    {
      var allocation := claim.allocation.value;
      if config.driver in allocation.configDrivers {
        return Err("driver configuration is not supported");
      }
      var collected := CollectDevices(claim.uid, allocation.results, byName, owners);
      if collected.Err? {
        return Err(collected.error);
      }
      if |collected.value| == 0 {
        return Err("claim allocation has no devices for this driver");
      }
      r := Ok(PreparedClaim(claim.uid, claim.namespace, claim.name, Preparing, collected.value));
    }

    /** The loop over the allocated devices: the current identity of each, or the first fault. */
    method CollectDevices(uid: string, results: seq<AllocatedDevice>, byName: map<string, InventoryDevice>,
                          owners: map<string, string>)
      returns (r: Result<seq<ClaimDevice>>)
      ensures r.Ok? <==> AllAcceptable(config, uid, OwnResults(config.driver, results), byName, owners)
      ensures r.Ok? ==> Identified(uid, OwnResults(config.driver, results), byName, r.value)
    {
      var devices := [];
      ghost var own := [];
      for i := 0 to |results|
        invariant own == OwnResults(config.driver, results[..i])
        invariant AllAcceptable(config, uid, own, byName, owners) && Identified(uid, own, byName, devices)
      {
        assert results[..i + 1][..i] == results[..i];
        var a := results[i];
        if a.driver == config.driver {
          var fault := AllocationFault(uid, a, byName, owners, devices, own);
          if fault != "" {
            OwnPrefixRejected(config, uid, results, i, byName, owners);
            return Err(fault);
          }
          own := own + [a];
          devices := devices + [ClaimedDevice(uid, a, byName[a.device])];
        }
      }
      assert results[..|results|] == results;
      r := Ok(devices);
    }

    /** The checks on one allocated device, in the source's order; empty if it passes. */
    method AllocationFault(uid: string, a: AllocatedDevice, byName: map<string, InventoryDevice>,
                           owners: map<string, string>, devices: seq<ClaimDevice>, ghost own: seq<AllocatedDevice>)
      returns (fault: string)
      requires AllAcceptable(config, uid, own, byName, owners) && Identified(uid, own, byName, devices)
      ensures fault == "" <==> AllAcceptable(config, uid, own + [a], byName, owners)
      ensures fault == "" ==> a.device in byName
    {
      ghost var all := own + [a];
      assert all[|own|] == a;
      assert forall k :: 0 <= k < |own| ==> all[k] == own[k];
      if a.adminAccess { return "administrative device access is not supported"; }
      if Blank(a.request) { return "allocation request name is empty"; }
      if a.pool != config.nodeName { return "allocation pool is not the local node"; }
      if a.device !in byName { return "allocated device is not healthy locally"; }
      SafeDeviceMeans(config, byName[a.device]);
      if !byName[a.device].eligible || UnsafeReason(config, byName[a.device]) != "" {
        return "allocated device is not healthy locally";
      }
      if config.requireIOMMU && (byName[a.device].iommuGroup < 0 || byName[a.device].iommuGroupSize != 1) {
        return "allocated device has no dedicated IOMMU group";
      }
      var duplicate := false;
      for k := 0 to |devices|
        invariant duplicate <==> exists j :: 0 <= j < k && own[j].device == a.device
      {
        duplicate := duplicate || devices[k].device == a.device;
      }
      if duplicate { return "device is allocated more than once"; }
      if a.device in owners && owners[a.device] != uid { return "device is already prepared for another claim"; }
      fault := "";
    }

    /** The write-ahead record of a new claim. */
    method RecordIntent(prepared: PreparedClaim) returns (ok: bool)
      requires InCall() && prepared.uid != "" && prepared.uid !in state.claims && prepared.phase == Preparing
      modifies this`state, this`world, this`call
      ensures InCall() && old(call) <= call
      ensures OnlyTouches(old(state), old(world), state, world, prepared.uid)
      ensures ok ==>
                && state == old(state).(claims := old(state.claims)[prepared.uid := prepared])
                && world == old(world).(disk := Some(state))
      ensures ok ==> NowRecorded(old(state), state, world, prepared)
      ensures !ok ==>
                && state == old(state) && world.cdi == old(world.cdi)
                && Unwritten(old(state), old(world), state, world, prepared)
      ensures !ok ==> Rough(config, call, |old(call)|)
    {
      IntentIsSavable(state, world, call, prepared);
      state := state.(claims := state.claims[prepared.uid := prepared]);
      ok := Persist();
      if !ok {
        OpenIntentFailed(old(state), state, old(world), world, old(call), call, prepared);
        state := state.(claims := state.claims - {prepared.uid});
        ForgetNew(old(state), prepared);
        return;
      }
      OpenRecorded(old(state), state, old(world), world, old(call), call, prepared);
    }

    /** Resets every device of a recorded claim. */
    method Preflight(prepared: PreparedClaim) returns (ok: bool)
      requires ReasonsGiven(state.quarantined) && prepared.uid in DiskClaims(world)
      modifies this`state, this`call
      ensures Quiet(old(call), call, world) && ReasonsGiven(state.quarantined)
      ensures state == old(state).(quarantined := state.quarantined)
      ensures Moves(old(state.quarantined), state.quarantined, call, |old(call)|)
      ensures ok ==> forall d :: d in prepared.devices ==> ResetBefore(call, |call|, d, prepared.uid)
      ensures ok ==> DeviceNames(prepared.devices) !! state.quarantined.Keys
      ensures ok && prepared.devices != [] ==> call != [] && IsPreflight(call[|call| - 1].step, prepared.uid)
      ensures !ok ==> Rough(config, call, |old(call)|)
    {
      ghost var entry := call;
      assert |call| == |entry|;
      for i := 0 to |prepared.devices|
        invariant state == old(state).(quarantined := state.quarantined) && ReasonsGiven(state.quarantined)
        invariant Quiet(entry, call, world) && Moves(old(state.quarantined), state.quarantined, call, |entry|)
        invariant forall k :: 0 <= k < i ==> ResetBefore(call, |call|, prepared.devices[k], prepared.uid)
        invariant forall k :: 0 <= k < i ==> prepared.devices[k].device !in state.quarantined
        invariant i > 0 ==> call != [] && IsPreflight(call[|call| - 1].step, prepared.uid)
      {
        var d := prepared.devices[i];
        ghost var before, q := call, state.quarantined;
        ok := Sanitize(PreflightSanitize, d.device, d.path, prepared.uid);
        QuietTrans(entry, before, call, world);
        MovesTrans(old(state.quarantined), q, state.quarantined, before, call, |entry|);
        if !ok {
          return;
        }
        forall k | 0 <= k < i ensures ResetBefore(call, |call|, prepared.devices[k], prepared.uid) {
          ResetBeforeMonotone(before, call, |before|, |call|, prepared.devices[k], prepared.uid);
        }
        assert QuietEntry(call[|before|], world);
        assert PreflightReset(call, |before|, d, prepared.uid);
      }
      ok := true;
    }

    /** A second observation must show every device eligible, healthy and with the recorded identity. */
    method Verify(prepared: PreparedClaim) returns (ok: bool)
      requires ReasonsGiven(state.quarantined) && KeysOk(state.claims) && KnownLogged(state.known, call)
      requires call != [] && IsPreflight(call[|call| - 1].step, prepared.uid)
      requires DeviceNames(prepared.devices) !! state.quarantined.Keys
      modifies this`state, this`call
      ensures ReasonsGiven(state.quarantined) && Quiet(old(call), call, world) && KnownLogged(state.known, call)
      ensures state == old(state).(quarantined := state.quarantined, known := state.known)
      ensures Moves(old(state.quarantined), state.quarantined, call, |old(call)|)
      ensures ok ==> |old(call)| < |call| && call[|call| - 1].step.Observed?
      ensures ok ==> forall d :: d in prepared.devices ==> SeenHealthy(call[|call| - 1].step.snapshot, d)
      ensures !ok ==> Hindered(config, call, |old(call)|, prepared.uid, prepared.devices)
    {
      var refreshed := Look();
      ghost var looked := call;
      KnownStaysLogged(state.known, old(call), looked);
      if refreshed.None? {
        return false;
      }
      ok := Examine(prepared, refreshed.value);
      QuietTrans(old(call), looked, call, world);
      MovesMonotone(old(state.quarantined), state.quarantined, call, call, |looked|, |old(call)|);
    }

    /** The part of the verification after the look at the inventory. */
    method Examine(prepared: PreparedClaim, snapshot: Snapshot) returns (ok: bool)
      requires ReasonsGiven(state.quarantined) && KeysOk(state.claims) && KnownLogged(state.known, call)
      requires JustLooked(call, snapshot, prepared.uid) && DeviceNames(prepared.devices) !! state.quarantined.Keys
      modifies this`state, this`call
      ensures ReasonsGiven(state.quarantined) && Quiet(old(call), call, world) && KnownLogged(state.known, call)
      ensures state == old(state).(quarantined := state.quarantined, known := state.known)
      ensures Moves(old(state.quarantined), state.quarantined, call, |old(call)|)
      ensures ok ==> |old(call)| < |call| && call[|call| - 1].step.Observed?
      ensures ok ==> forall d :: d in prepared.devices ==> SeenHealthy(call[|call| - 1].step.snapshot, d)
      ensures !ok ==> Hindered(config, call, |old(call)|, prepared.uid, prepared.devices)
    {
      var filtered;
      filtered, ok := GlanceBody(snapshot);
      ghost var t, seen := state, call;
      assert LookedAt(old(call), snapshot);
      PassKnownLogged(config, old(state), t, snapshot, false, old(call), seen);
      if ok {
        ok := CheckReturned(prepared, filtered);
        QuietTrans(old(call), seen, call, world);
        KnownStaysLogged(t.known, seen, call);
        MovesThenGrows(old(state.quarantined), t.quarantined, state.quarantined, seen, call, |old(call)|);
        if !ok {
          MissingIsAway(config, old(state), t, snapshot, old(call), call, prepared.uid, prepared.devices);
        }
      }
    }

    /** Compares the second observation with the record. */
    method CheckReturned(prepared: PreparedClaim, filtered: Snapshot) returns (ok: bool)
      requires ReasonsGiven(state.quarantined)
      modifies this`state, this`call
      ensures state == old(state).(quarantined := state.quarantined) && ReasonsGiven(state.quarantined)
      ensures Grows(old(state.quarantined), state.quarantined)
      ensures Quiet(old(call), call, world) && (ok ==> call == old(call))
      ensures ok <==> forall d :: d in prepared.devices ==> Returned(ByName(filtered.devices), d)
      ensures ok ==> forall d :: d in prepared.devices ==> SeenHealthy(filtered, d)
      ensures !ok ==>
                exists d ::
                  d in prepared.devices && d.device in state.quarantined && !Returned(ByName(filtered.devices), d)
    {
      ByNameMembers(filtered.devices);
      var verified := ByName(filtered.devices);
      for i := 0 to |prepared.devices|
        invariant call == old(call) && state == old(state)
        invariant forall k :: 0 <= k < i ==> Returned(verified, prepared.devices[k])
      {
        var d := prepared.devices[i];
        if || d.device !in verified || !verified[d.device].eligible
           || verified[d.device].health != Healthy || verified[d.device].stableID != d.stableID
        {
          assert d in prepared.devices && !Returned(ByName(filtered.devices), d);
          var quarantined := Quarantine(d.device, d.path, "device did not return with the same healthy identity",
                                        prepared.uid, PreflightVerify);
          return false;
        }
      }
      ok := true;
    }

    /** An observation that only adds to the quarantine. */
    method Glance(snapshot: Snapshot) returns (filtered: Snapshot, ok: bool)
      requires InCall() && LookedAt(call, snapshot)
      modifies this`state, this`call
      ensures InCall() && Quiet(old(call), call, world) && ResetsOnly(call, |old(call)|, {})
      ensures state == old(state).(quarantined := state.quarantined, known := state.known)
      ensures forall n :: n in old(state.quarantined) ==> n in state.quarantined
      ensures |old(call)| < |call| && call[|call| - 1].step == Observed(filtered)
      ensures filtered == Filter(snapshot, state.quarantined)
      ensures !ok ==> Rough(config, call, |old(call)|)
    {
      filtered, ok := GlanceBody(snapshot);
      PassKnownLogged(config, old(state), state, snapshot, false, old(call), call);
      OpenQuiet(old(state), state, world, old(call), call);
    }

    method GlanceBody(snapshot: Snapshot) returns (filtered: Snapshot, ok: bool)
      requires ReasonsGiven(state.quarantined) && KeysOk(state.claims)
      modifies this`state, this`call
      ensures ReasonsGiven(state.quarantined) && Quiet(old(call), call, world) && ResetsOnly(call, |old(call)|, {})
      ensures state == old(state).(quarantined := state.quarantined, known := state.known)
      ensures forall n :: n in old(state.quarantined) ==> n in state.quarantined
      ensures PassState(config, old(state), state, snapshot, false)
      ensures Moves(old(state.quarantined), state.quarantined, call, |old(call)|)
      ensures |old(call)| < |call| && call[|call| - 1].step == Observed(filtered)
      ensures filtered == Filter(snapshot, state.quarantined)
      ensures !ok ==> Rough(config, call, |old(call)|)
    {
      var safety;
      filtered, safety, ok := Observe(snapshot, false);
      forall n | n in old(state.quarantined) ensures n in state.quarantined {
        assert n !in old(state.quarantined.Keys) - state.quarantined.Keys;
      }
    }

    /** Writes the CDI file, has the preparation approved and commits it. */
    method Expose(prepared: PreparedClaim) returns (ok: bool)
      requires InCall() && prepared.uid in state.claims && state.claims[prepared.uid] == prepared
      requires prepared.phase == Preparing
      requires prepared.uid in DiskClaims(world)
      requires ReadyToExpose(call, prepared)
      modifies this`state, this`world, this`call
      ensures InCall() && old(call) <= call
      ensures OnlyTouches(old(state), old(world), state, world, prepared.uid)
      ensures SameRecords(old(state), old(world), state, world)
      ensures prepared.uid in state.claims
      ensures state.claims[prepared.uid] == prepared.(phase := if ok then Prepared else Preparing)
      ensures ok ==>
                world.disk == Some(state) && prepared.uid in world.cdi && world.cdi[prepared.uid] == SpecOf(prepared)
      ensures ok ==> Promoted(state.claims[prepared.uid]) in NewSteps(call, |old(call)|)
      ensures !ok ==> Rough(config, call, |old(call)|)
      ensures Grows(old(state.quarantined), state.quarantined)
    {
      ok := WriteCDI(prepared);
      OpenCDI(state, old(world), world, old(call), call, prepared.uid);
      if !ok {
        return;
      }
      ghost var written, w := call, world;
      AllResetBefore(old(call), call, |old(call)| - 1, |old(call)| - 1, prepared);
      ok := Approve(prepared, |old(call)| - 1);
      OnlyTouchesTrans(old(state), old(world), old(state), w, state, world, prepared.uid);
      NewStepsGrow(call, |written|, |old(call)|);
    }

    /** Without an audited approval the CDI file is withdrawn. */
    method Approve(prepared: PreparedClaim, ghost v: nat) returns (ok: bool)
      requires InCall() && prepared.uid in state.claims && state.claims[prepared.uid] == prepared
      requires prepared.phase == Preparing
      requires prepared.uid in DiskClaims(world) && v + 2 == |call| && call[v + 1].step == WroteCDI(prepared, true)
      requires call[v].step.Observed? && forall d :: d in prepared.devices ==> SeenHealthy(call[v].step.snapshot, d)
      requires forall d :: d in prepared.devices ==> ResetBefore(call, v, d, prepared.uid)
      modifies this`state, this`world, this`call
      ensures InCall() && old(call) <= call
      ensures OnlyTouches(old(state), old(world), state, world, prepared.uid)
      ensures SameRecords(old(state), old(world), state, world)
      ensures prepared.uid in state.claims
      ensures state.claims[prepared.uid] == prepared.(phase := if ok then Prepared else Preparing)
      ensures ok ==> world == old(world).(disk := Some(state))
      ensures ok ==> Promoted(state.claims[prepared.uid]) in NewSteps(call, |old(call)|)
      ensures !ok ==> Rough(config, call, |old(call)|)
      ensures Grows(old(state.quarantined), state.quarantined)
    {
      ok := Audit(AuditEvent(ClaimPrepare, "approved", "", "", prepared.uid, ""));
      OpenQuiet(state, state, world, old(call), call);
      if ok {
        AllResetBefore(old(call), call, v, v, prepared);
        assert ExposedVia(call, prepared, v, v + 1);
        ok := Commit(prepared);
      } else {
        Withdraw(prepared);
      }
    }

    /** An unapproved claim loses its CDI file, and its devices are quarantined. */
    method Withdraw(prepared: PreparedClaim)
      requires InCall() && prepared.uid in state.claims
      modifies this`state, this`world, this`call
      ensures InCall() && old(call) <= call && state.claims == old(state.claims)
      ensures OnlyTouches(old(state), old(world), state, world, prepared.uid)
      ensures SameRecords(old(state), old(world), state, world)
      ensures Names(prepared) <= state.quarantined.Keys
      ensures Grows(old(state.quarantined), state.quarantined)
    {
      var removed := RemoveCDI(prepared.uid);
      OpenCDI(state, old(world), world, old(call), call, prepared.uid);
      QuarantineDevices(prepared.devices, "claim preparation audit failed");
      OpenQuiet(old(state), state, world, call, call);
    }

    method QuarantineDevices(devices: seq<ClaimDevice>, reason: string)
      requires ReasonsGiven(state.quarantined) && reason != ""
      modifies this`state
      ensures state == old(state).(quarantined := state.quarantined)
      ensures Grows(old(state.quarantined), state.quarantined)
      ensures ReasonsGiven(state.quarantined)
      ensures state.quarantined.Keys == old(state.quarantined.Keys) + DeviceNames(devices)
    {
      for i := 0 to |devices|
        invariant state == old(state).(quarantined := state.quarantined) && ReasonsGiven(state.quarantined)
        invariant Grows(old(state.quarantined), state.quarantined)
        invariant state.quarantined.Keys == old(state.quarantined.Keys) + DeviceNames(devices[..i])
      {
        var since := Clock();
        GrowsBy(old(state.quarantined), state.quarantined, devices[i].device, QuarantineRecord(reason, since, false));
        state := state.(quarantined := state.quarantined[devices[i].device := QuarantineRecord(reason, since, false)]);
        assert DeviceNames(devices[..i + 1]) == DeviceNames(devices[..i]) + {devices[i].device} by {
          assert devices[..i + 1] == devices[..i] + [devices[i]];
        }
      }
      assert devices[..|devices|] == devices;
    }

    /** The step to Prepared, undone if it cannot be persisted. */
    method Commit(prepared: PreparedClaim) returns (ok: bool)
      requires InCall() && prepared.uid in state.claims && state.claims[prepared.uid] == prepared
      requires prepared.phase == Preparing
      requires prepared.uid in DiskClaims(world) && Exposable(call, prepared)
      modifies this`state, this`world, this`call
      ensures InCall() && old(call) <= call
      ensures OnlyTouches(old(state), old(world), state, world, prepared.uid)
      ensures SameRecords(old(state), old(world), state, world)
      ensures prepared.uid in state.claims
      ensures state.claims[prepared.uid] == prepared.(phase := if ok then Prepared else Preparing)
      ensures ok ==> world == old(world).(disk := Some(state))
      ensures ok ==> Promoted(state.claims[prepared.uid]) in NewSteps(call, |old(call)|)
      ensures !ok ==> Rough(config, call, |old(call)|)
      ensures state.quarantined == old(state.quarantined)
    {
      ok := PromoteDurably(prepared);
      if !ok {
        ghost var s, w := state, world;
        Demote(prepared.(phase := Prepared));
        OnlyTouchesTrans(old(state), old(world), s, w, state, world, prepared.uid);
      }
    }

    method PromoteDurably(prepared: PreparedClaim) returns (ok: bool)
      requires InCall() && prepared.uid in state.claims && state.claims[prepared.uid] == prepared
      requires prepared.uid in DiskClaims(world) && Exposable(call, prepared)
      modifies this`state, this`world, this`call
      ensures InCall() && old(call) <= call
      ensures OnlyTouches(old(state), old(world), state, world, prepared.uid)
      ensures SameRecords(old(state), old(world), state, world)
      ensures state == old(state).(claims := old(state.claims)[prepared.uid := prepared.(phase := Prepared)])
      ensures prepared.uid in DiskClaims(world) && (ok ==> world == old(world).(disk := Some(state)))
      ensures Promoted(prepared.(phase := Prepared)) in NewSteps(call, |old(call)|)
      ensures !ok ==> Rough(config, call, |old(call)|)
    {
      Promote(prepared);
      ghost var s, promoted := state, call;
      ok := Save();
      PersistTouchesNothing(s, old(world), world, prepared.uid);
      OnlyTouchesTrans(old(state), old(world), s, old(world), s, world, prepared.uid);
      StepIsNew(promoted, call, |old(call)|);
    }

    method Promote(prepared: PreparedClaim)
      requires InCall() && prepared.uid in state.claims && state.claims[prepared.uid] == prepared
      requires prepared.uid in DiskClaims(world) && Exposable(call, prepared)
      modifies this`state, this`call
      ensures InCall() && call == old(call) + [Entry(Promoted(prepared.(phase := Prepared)), world, world)]
      ensures state == old(state).(claims := old(state.claims)[prepared.uid := prepared.(phase := Prepared)])
      ensures OnlyTouches(old(state), world, state, world, prepared.uid) && SameRecords(old(state), world, state, world)
    {
      ghost var e := Entry(Promoted(prepared.(phase := Prepared)), world, world);
      LawfulPromotion(call, world, prepared);
      OpenPhase(state, world, call, call + [e], prepared.uid, Prepared);
      call := call + [e];
      state := state.(claims := state.claims[prepared.uid := prepared.(phase := Prepared)]);
    }

    method Demote(prepared: PreparedClaim)
      requires InCall() && prepared.uid in state.claims && state.claims[prepared.uid] == prepared
      requires prepared.uid in DiskClaims(world)
      modifies this`state, this`world, this`call
      ensures InCall() && old(call) <= call
      ensures state == old(state).(claims := old(state.claims)[prepared.uid := prepared.(phase := Preparing)])
      ensures OnlyTouches(old(state), old(world), state, world, prepared.uid)
      ensures SameRecords(old(state), old(world), state, world)
    {
      OpenPhase(state, world, call, call, prepared.uid, Preparing);
      state := state.(claims := state.claims[prepared.uid := prepared.(phase := Preparing)]);
      ghost var s := state;
      var removed := RemoveCDI(prepared.uid);
      OpenCDI(state, old(world), world, old(call), call, prepared.uid);
      OnlyTouchesTrans(old(state), old(world), s, old(world), state, world, prepared.uid);
    }

    /** From a recorded intent to a committed preparation. */
    method Finish(prepared: PreparedClaim) returns (ok: bool)
      requires InCall() && prepared.uid in state.claims && state.claims[prepared.uid] == prepared
      requires prepared.phase == Preparing && prepared.devices != []
      requires prepared.uid in DiskClaims(world)
      modifies this`state, this`world, this`call
      ensures InCall() && old(call) <= call
      ensures OnlyTouches(old(state), old(world), state, world, prepared.uid)
      ensures SameRecords(old(state), old(world), state, world)
      ensures prepared.uid in state.claims
      ensures state.claims[prepared.uid] == prepared.(phase := if ok then Prepared else Preparing)
      ensures ok ==> Delivered(state, world, prepared.uid, Results(prepared))
      ensures ok ==> Promoted(state.claims[prepared.uid]) in NewSteps(call, |old(call)|)
      ensures !ok ==> Hindered(config, call, |old(call)|, prepared.uid, prepared.devices)
      ensures Moves(old(state.quarantined), state.quarantined, call, |old(call)|)
    {
      ok := ResetAndVerify(prepared);
      SameClaimsTouchNothing(old(state), state, world, prepared.uid);
      if !ok {
        return;
      }
      ghost var s, verified := state, call;
      ok := Expose(prepared);
      OnlyTouchesTrans(old(state), old(world), s, old(world), state, world, prepared.uid);
      MovesThenGrows(old(state.quarantined), s.quarantined, state.quarantined, verified, call, |old(call)|);
      SameDelivery(prepared, state.claims[prepared.uid]);
      NewStepsGrow(call, |verified|, |old(call)|);
    }

    /** Resets the devices and observes them again. */
    method ResetAndVerify(prepared: PreparedClaim) returns (ok: bool)
      requires InCall() && prepared.uid in DiskClaims(world) && prepared.devices != []
      modifies this`state, this`call
      ensures InCall() && Quiet(old(call), call, world)
      ensures state == old(state).(quarantined := state.quarantined, known := state.known)
      ensures ok ==> ReadyToExpose(call, prepared)
      ensures !ok ==> Hindered(config, call, |old(call)|, prepared.uid, prepared.devices)
      ensures Moves(old(state.quarantined), state.quarantined, call, |old(call)|)
    {
      ok := ResetThenVerify(prepared);
      OpenQuiet(old(state), state, world, old(call), call);
    }

    method ResetThenVerify(prepared: PreparedClaim) returns (ok: bool)
      requires ReasonsGiven(state.quarantined) && KeysOk(state.claims) && prepared.uid in DiskClaims(world)
      requires call != [] && KnownLogged(state.known, call) && prepared.devices != []
      modifies this`state, this`call
      ensures ReasonsGiven(state.quarantined) && Quiet(old(call), call, world) && KnownLogged(state.known, call)
      ensures state == old(state).(quarantined := state.quarantined, known := state.known)
      ensures Moves(old(state.quarantined), state.quarantined, call, |old(call)|)
      ensures ok ==> ReadyToExpose(call, prepared)
      ensures !ok ==> Hindered(config, call, |old(call)|, prepared.uid, prepared.devices)
    {
      ok := Preflight(prepared);
      KnownStaysLogged(state.known, old(call), call);
      if !ok {
        return;
      }
      ghost var reset, q := call, state.quarantined;
      ok := Verify(prepared);
      QuietTrans(old(call), reset, call, world);
      MovesTrans(old(state.quarantined), q, state.quarantined, reset, call, |old(call)|);
      if ok {
        AllResetBefore(reset, call, |reset|, |call| - 1, prepared);
      }
    }

    /** A repeated prepare of a claim that already is Prepared: the CDI file is written again. */
    method Repair(existing: PreparedClaim) returns (ok: bool)
      requires InCall() && existing.uid in state.claims && state.claims[existing.uid] == existing
      requires existing.phase == Prepared
      modifies this`world, this`call
      ensures InCall() && old(call) <= call
      ensures OnlyTouches(state, old(world), state, world, existing.uid) && SameRecords(state, old(world), state, world)
      ensures ok ==> Delivered(state, world, existing.uid, Results(existing))
      ensures ok ==> Names(existing) !! state.quarantined.Keys
      ensures if exists d :: d in existing.devices && d.device in state.quarantined
              then !ok && call == old(call) && world == old(world)
              else !ok ==> Rough(config, call, |old(call)|)
    {
      for i := 0 to |existing.devices|
        invariant forall k :: 0 <= k < i ==> existing.devices[k].device !in state.quarantined
        invariant call == old(call) && world == old(world)
      {
        if existing.devices[i].device in state.quarantined {
          SameClaimsTouchNothing(state, state, world, existing.uid);
          return false;
        }
      }
      ok := WriteCDI(existing);
      OpenCDI(state, old(world), world, old(call), call, existing.uid);
    }

    /** A claim that is new, or was left in Preparing by an earlier attempt. */
    method PrepareAnew(prepared: PreparedClaim) returns (ok: bool)
      requires InCall() && prepared.uid != "" && prepared.phase == Preparing && prepared.devices != []
      requires prepared.uid in state.claims ==> state.claims[prepared.uid] == prepared
      modifies this`state, this`world, this`call
      ensures InCall() && old(call) <= call
      ensures OnlyTouches(old(state), old(world), state, world, prepared.uid)
      ensures Attempted(old(state), old(world), state, world, prepared)
      ensures ok <==> IsPrepared(state, prepared.uid)
      ensures ok ==>
                && Delivered(state, world, prepared.uid, Results(prepared))
                && state.claims[prepared.uid] == prepared.(phase := Prepared)
      ensures ok ==> Promoted(state.claims[prepared.uid]) in NewSteps(call, |old(call)|)
      ensures !ok ==> Hindered(config, call, |old(call)|, prepared.uid, prepared.devices)
      ensures Moves(old(state.quarantined), state.quarantined, call, |old(call)|)
    {
      SameClaimsTouchNothing(state, state, world, prepared.uid);
      if prepared.uid !in state.claims {
        ok := Announce(prepared);
        if !ok {
          return;
        }
      }
      ghost var s, w, mid := state, world, call;
      ok := Finish(prepared);
      OnlyTouchesTrans(old(state), old(world), s, w, state, world, prepared.uid);
      MovesMonotone(old(state.quarantined), state.quarantined, call, call, |mid|, |old(call)|);
      NewStepsGrow(call, |mid|, |old(call)|);
    }

    /** Records and audits the intent to prepare a new claim. */
    method Announce(prepared: PreparedClaim) returns (ok: bool)
      requires InCall() && prepared.uid != "" && prepared.phase == Preparing && prepared.uid !in state.claims
      modifies this`state, this`world, this`call
      ensures InCall() && old(call) <= call
      ensures OnlyTouches(old(state), old(world), state, world, prepared.uid)
      ensures Attempted(old(state), old(world), state, world, prepared)
      ensures prepared.uid in state.claims ==> state.claims[prepared.uid] == prepared
      ensures ok ==>
                && prepared.uid in state.claims && prepared.uid in DiskClaims(world)
                && NowRecorded(old(state), state, world, prepared)
      ensures !ok ==> Rough(config, call, |old(call)|)
      ensures state.quarantined == old(state.quarantined)
    {
      ok := RecordIntent(prepared);
      if !ok {
        return;
      }
      ghost var before := call;
      ok := Audit(AuditEvent(ClaimPrepareIntent, "recorded", "", "", prepared.uid, ""));
      OpenQuiet(state, state, world, before, call);
    }

    /** `prepareOne`. */
    method PrepareOne(claim: ResourceClaim, byName: map<string, InventoryDevice>, known: map<string, string>)
      returns (r: Delivery, owners: map<string, string>)
      requires InCall() && claim.uid != ""
      modifies this`state, this`world, this`call
      ensures InCall()
      ensures PrepareTurn(config, claim, byName, known, old(state), old(world), old(call), state, world, call, owners,
                          r)
    {
      owners := known;
      if claim.allocation.None? {
        r := Err("claim has no allocation");
        TurnRefused(config, claim, byName, known, state, world, call, r);
        return;
      }
      var made := ClaimFromAllocation(claim, byName, known);
      if made.Err? {
        r := Err(made.error);
        TurnRefused(config, claim, byName, known, state, world, call, r);
        return;
      }
      var prepared := made.value;
      assert |prepared.devices| == |OwnResults(config.driver, claim.allocation.value.results)|;
      var repeated := IsPrepared(state, claim.uid);
      r := PrepareAccepted(prepared);
      if r.Ok? && !repeated {
        owners := AddOwner(known, claim.uid, prepared.devices);
      }
      TurnTried(config, claim, byName, known, prepared, old(state), old(world), old(call), state, world, call, owners,
                r);
    }

    /** The rest of `prepareOne`, for an acceptable allocation: repeat, resume or begin. */
    method PrepareAccepted(wanted: PreparedClaim) returns (r: Delivery)
      requires InCall() && wanted.uid != "" && wanted.phase == Preparing && wanted.devices != []
      modifies this`state, this`world, this`call
      ensures InCall() && Tried(config, wanted, old(state), old(world), old(call), state, world, call, r)
    {
      var uid := wanted.uid;
      if uid !in state.claims {
        var finished := PrepareAnew(wanted);
        r := if finished then Ok(Results(wanted)) else Err("preparation failed");
        return;
      }
      r := PrepareAgain(wanted);
    }

    /** A claim that is on record already. */
    method PrepareAgain(wanted: PreparedClaim) returns (r: Delivery)
      requires InCall() && wanted.uid in state.claims && wanted.devices != []
      modifies this`state, this`world, this`call
      ensures InCall() && Tried(config, wanted, old(state), old(world), old(call), state, world, call, r)
    {
      var existing := state.claims[wanted.uid];
      SameClaimsTouchNothing(state, state, world, wanted.uid);
      if !SameClaim(existing, wanted) {
        return Err("repeated prepare does not match persisted allocation");
      }
      if existing.phase == Releasing || existing.phase == Recovered {
        return Err("claim is in recovery");
      }
      if existing.phase == Prepared {
        var repaired := Repair(existing);
        r := if repaired then Ok(Results(existing)) else Err("repair failed");
        return;
      }
      var finished := PrepareAnew(existing);
      r := if finished then Ok(Results(existing)) else Err("preparation failed");
    }

    /** The loop of `PrepareResourceClaims`; `owners` sees successes only. */
    method PrepareBatch(claims: seq<Option<ResourceClaim>>, byName: map<string, InventoryDevice>,
                        known: map<string, string>)
      returns (results: map<string, Delivery>, owners: map<string, string>)
      requires InCall() && IsOwners(known, Recorded(state.claims))
      requires forall c :: c in claims && c.Some? ==> c.value.uid != ""
      modifies this`state, this`world, this`call
      ensures InCall() && old(call) <= call
      ensures BatchProgress(config, claims, byName, |claims|, known, old(state), old(world), |old(call)|, state, world,
                            call, owners, results)
    {
      results := map[];
      owners := known;
      BatchBegins(config, claims, byName, known, state, world, call);
      for i := 0 to |claims|
        invariant InCall() && old(call) <= call
        invariant BatchProgress(config, claims, byName, i, known, old(state), old(world), |old(call)|, state, world,
                                call, owners, results)
      {
        if claims[i].None? {
          var r := Err("claim has no allocation");
          BatchSkips(config, claims, byName, i, known, old(state), old(world), |old(call)|, state, world, call,
                     owners, results, r);
          results := results["" := r];
        } else {
          ghost var s, w, before, earlier := state, world, call, owners;
          var r;
          r, owners := PrepareOne(claims[i].value, byName, owners);
          BatchTurn(config, claims, byName, i, known, old(state), old(world), |old(call)|, s, w, before, earlier,
                    results, state, world, call, owners, r);
          results := results[claims[i].value.uid := r];
        }
      }
    }

    /** `PrepareResourceClaims`. */
    method PrepareResourceClaims(claims: seq<Option<ResourceClaim>>)
      returns (r: Result<map<string, Delivery>>)
      requires Valid() && forall c :: c in claims && c.Some? ==> c.value.uid != ""
      modifies this
      ensures Valid() && past == old(past) + [old(call)] && BeginsAt(call, old(world))
      ensures WasReloaded(call) ==> Moves(old(Loaded()).quarantined, state.quarantined, call, 0)
      ensures !WasReloaded(call) ==> state == old(state)
      ensures RecordsKept(old(world), world) && old(state.claims.Keys) <= state.claims.Keys
      ensures || OnlyTouchesAll(old(state.claims), old(world), state.claims, world, BatchUIDs(claims))
              || OnlyTouchesAll(old(Loaded()).claims, old(world), state.claims, world, BatchUIDs(claims))
      ensures PromotedSince(old(state), state, call, 0) || PromotedSince(old(Loaded()), state, call, 0)
      ensures r.Ok? ==> WasReloaded(call) && world.disk == Some(state)
      ensures BatchAnswered(config, claims, old(Loaded()), state, world, call, r)
      ensures old(Exclusive(state, world)) && NeverContended(config, claims, old(Loaded()).claims) ==>
                Exclusive(state, world)
    {
      var reloaded := Reload();
      if !reloaded {
        return Err("reload failed");
      }
      ghost var opening := call;
      ReloadKeepsExclusive(old(state), state, world);
      r := PrepareLoaded(claims);
      StillFollows(past, opening, call);
    }

    /** The part of `PrepareResourceClaims` after the reload. */
    method PrepareLoaded(claims: seq<Option<ResourceClaim>>)
      returns (r: Result<map<string, Delivery>>)
      requires InCall() && forall c :: c in claims && c.Some? ==> c.value.uid != ""
      requires DiskClaims(world).Keys <= state.claims.Keys && |call| == 1
      modifies this`state, this`world, this`call
      ensures InCall() && old(call) <= call
      ensures RecordsKept(old(world), world) && old(state.claims.Keys) <= state.claims.Keys
      ensures OnlyTouchesAll(old(state.claims), old(world), state.claims, world, BatchUIDs(claims))
      ensures PromotedSince(old(state), state, call, 0)
      ensures r.Ok? ==> world.disk == Some(state)
      ensures BatchAnswered(config, claims, old(state), state, world, call, r)
      ensures old(Exclusive(state, world)) && NeverContended(config, claims, old(state.claims)) ==>
                Exclusive(state, world)
    {
      var seen := Refresh();
      SavedKeepsRecords(old(state), state, world, world);
      DroppingKeepsExclusive(old(state), world, state, world, "");
      if seen.Err? {
        return Err(seen.error);
      }
      ghost var before := call;
      ghost var refreshed := state;
      r := PrepareRefreshed(claims, seen.value);
      SameStart(config, claims, ByName(seen.value.devices), old(state), refreshed, state, world, call, |before|, r);
    }

    method PrepareRefreshed(claims: seq<Option<ResourceClaim>>, seen: Snapshot)
      returns (r: Result<map<string, Delivery>>)
      requires InCall() && forall c :: c in claims && c.Some? ==> c.value.uid != ""
      requires DiskClaims(world).Keys <= state.claims.Keys
      modifies this`state, this`world, this`call
      ensures InCall() && old(call) <= call
      ensures RecordsKept(old(world), world) && old(state.claims.Keys) <= state.claims.Keys
      ensures OnlyTouchesAll(old(state.claims), old(world), state.claims, world, BatchUIDs(claims))
      ensures PromotedSince(old(state), state, call, |old(call)|)
      ensures r.Ok? ==> world.disk == Some(state)
      ensures if r.Err? then Rough(config, call, |old(call)|)
              else Answered(config, claims, ByName(seen.devices), |claims|, old(state), state, world, call, r.value)
      ensures old(Exclusive(state, world)) && NeverContended(config, claims, old(state.claims)) ==>
                Exclusive(state, world)
    {
      var known := DeviceOwners();
      var results, owners := PrepareBatch(claims, ByName(seen.devices), known);
      ghost var w, committed := world, call;
      var persisted := Save();
      BatchSaved(config, claims, ByName(seen.devices), known, old(state), old(world), |old(call)|, state, w, committed,
                 owners, results, world, call);
      r := if persisted then Ok(results) else Err("persist failed");
    }

    /** The inventory check that opens prepare and release calls; it resets nothing. */
    method Refresh() returns (r: Result<Snapshot>)
      requires InCall()
      modifies this`state, this`call
      ensures InCall() && |old(call)| < |call| && old(call) <= call && ResetsOnly(call, |old(call)|, {})
      ensures state == old(state).(quarantined := state.quarantined, known := state.known)
      ensures old(state.quarantined.Keys) <= state.quarantined.Keys
      ensures r.Ok? ==> PathsSeen(call, ByName(r.value.devices)) && call[|call| - 1].step.Observed?
      ensures r.Ok? ==> call[|old(call)|].step.Looked? && call[|old(call)|].step.seen == Some(r.value)
      ensures r.Err? ==> Rough(config, call, |old(call)|)
    {
      var snapshot := Look();
      OpenQuiet(state, state, world, old(call), call);
      if snapshot.None? {
        return Err("no recent inventory observation");
      }
      assert LookedAt(call, snapshot.value);
      var filtered, ok := Glance(snapshot.value);
      ObservedPathsSeen(call, snapshot.value, state.quarantined);
      r := if ok then Ok(snapshot.value) else Err("monitor inventory failed");
    }

    // ---- manager.go: release ----

    /** Resets every device of a released claim; one that cannot be reset is quarantined. */
    method Postflight(prepared: PreparedClaim, byName: map<string, InventoryDevice>) returns (ok: bool)
      requires ReasonsGiven(state.quarantined) && PathsSeen(call, byName)
      modifies this`state, this`call
      ensures state == old(state).(quarantined := state.quarantined) && ReasonsGiven(state.quarantined)
      ensures Quiet(old(call), call, world) && IntentsWithin(call, |old(call)|, {})
      ensures Moves(old(state.quarantined), state.quarantined, call, |old(call)|)
      ensures AllHandled(call, state.quarantined.Keys, prepared.devices)
      ensures ok ==> forall d :: d in prepared.devices ==> ResetAfterUse(call, |call|, d)
      ensures StillHandled(old(call), old(state.quarantined.Keys), call, state.quarantined.Keys)
      ensures !ok ==> Rough(config, call, |old(call)|) || Unavailable(byName, prepared.devices)
    {
      ok := true;
      ghost var entry := call;
      for i := 0 to |prepared.devices|
        invariant state == old(state).(quarantined := state.quarantined) && ReasonsGiven(state.quarantined)
        invariant Quiet(entry, call, world) && IntentsWithin(call, |entry|, {})
        invariant Moves(old(state.quarantined), state.quarantined, call, |entry|)
        invariant AllHandled(call, state.quarantined.Keys, prepared.devices[..i])
        invariant ok ==> forall k :: 0 <= k < i ==> ResetAfterUse(call, |call|, prepared.devices[k])
        invariant StillHandled(entry, old(state.quarantined.Keys), call, state.quarantined.Keys)
        invariant !ok ==> Rough(config, call, |entry|) || Unavailable(byName, prepared.devices)
      {
        ghost var before, q := call, state.quarantined;
        PathsSeenMonotone(entry, call, byName);
        var step := ScrubDevice(prepared.devices[i], prepared.uid, byName);
        QuietTrans(entry, before, call, world);
        MovesTrans(old(state.quarantined), q, state.quarantined, before, call, |entry|);
        ScrubsStay(before, call, prepared.devices);
        IntentsSplit(before, call, |entry|, {}, {});
        if Rough(config, before, |entry|) {
          RoughStays(config, before, call, |entry|, |entry|);
        }
        ok := ok && step;
        assert prepared.devices[..i + 1] == prepared.devices[..i] + [prepared.devices[i]];
      }
      assert prepared.devices[..|prepared.devices|] == prepared.devices;
    }

    /** One device of a released claim. */
    method ScrubDevice(d: ClaimDevice, uid: string, byName: map<string, InventoryDevice>) returns (ok: bool)
      requires ReasonsGiven(state.quarantined) && PathsSeen(call, byName)
      modifies this`state, this`call
      ensures state == old(state).(quarantined := state.quarantined) && ReasonsGiven(state.quarantined)
      ensures Quiet(old(call), call, world) && IntentsWithin(call, |old(call)|, {})
      ensures Moves(old(state.quarantined), state.quarantined, call, |old(call)|)
      ensures StillHandled(old(call), old(state.quarantined.Keys), call, state.quarantined.Keys)
      ensures if ok then ResetAfterUse(call, |call|, d) else d.device in state.quarantined
      ensures !ok ==> Rough(config, call, |old(call)|) || d.device !in byName || !byName[d.device].present
    {
      if d.device !in byName || !byName[d.device].present {
        var step := Quarantine(d.device, d.path, "allocated device is unavailable during post-use sanitization", uid,
                               PostflightSanitize);
        QuarantineKeepsHandled(old(call), old(state.quarantined.Keys), call, state.quarantined.Keys);
        return false;
      }
      ok := ScrubPresent(d, uid, byName[d.device].path);
    }

    method ScrubPresent(d: ClaimDevice, uid: string, path: string) returns (ok: bool)
      requires ReasonsGiven(state.quarantined) && PathSeen(call, |call|, d.device, path)
      modifies this`state, this`call
      ensures state == old(state).(quarantined := state.quarantined) && ReasonsGiven(state.quarantined)
      ensures Quiet(old(call), call, world) && IntentsWithin(call, |old(call)|, {})
      ensures Moves(old(state.quarantined), state.quarantined, call, |old(call)|)
      ensures StillHandled(old(call), old(state.quarantined.Keys), call, state.quarantined.Keys)
      ensures if ok then ResetAfterUse(call, |call|, d) else d.device in state.quarantined
      ensures !ok ==> Rough(config, call, |old(call)|)
    {
      ok := Sanitize(PostflightSanitize, d.device, path, uid);
      PathSeenMonotone(old(call), call, |old(call)|, |old(call)|, d.device, path);
      ScrubbedIsHandled(old(call), old(state.quarantined.Keys), call, state.quarantined.Keys, d, ok);
    }

    /** Marks the claim Releasing, durably and in the audit log, before anything is touched. */
    method IntendRelease(uid: string) returns (ok: bool)
      requires InCall() && uid in state.claims
      modifies this`state, this`world, this`call
      ensures InCall() && old(call) <= call
      ensures OnlyTouches(old(state), old(world), state, world, uid)
      ensures SameRecords(old(state), old(world), state, world)
      ensures state == old(state).(claims := old(state.claims)[uid := old(state.claims)[uid].(phase := Releasing)])
      ensures IntentsWithin(call, |old(call)|, {uid})
      ensures ok <==> old(state.claims)[uid].phase == Releasing || Intended(call, |old(call)|, uid)
      ensures !ok ==> Rough(config, call, |old(call)|)
    {
      if state.claims[uid].phase == Releasing {
        assert state.claims[uid := state.claims[uid].(phase := Releasing)] == state.claims;
        SameClaimsTouchNothing(state, state, world, uid);
        return true;
      }
      ok := MarkReleasing(uid);
      ghost var marked := call;
      if ok {
        ok := AuditInCall(AuditEvent(ClaimReleaseIntent, "recorded", "", "", uid, ""));
      }
      IntentSteps(old(call), marked, call, uid);
    }

    method AuditInCall(event: AuditEvent) returns (ok: bool)
      requires InCall()
      modifies this`call
      ensures InCall() && call == old(call) + [Entry(Audited(event, ok), world, world)]
      ensures !ok ==> Rough(config, call, |old(call)|)
    {
      ok := Audit(event);
      assert !ok ==> Failed(config, call[|old(call)|].step);
      OpenQuiet(state, state, world, old(call), call);
    }

    method MarkReleasing(uid: string) returns (ok: bool)
      requires InCall() && uid in state.claims
      modifies this`state, this`world, this`call
      ensures InCall() && |call| == |old(call)| + 1 && old(call) <= call && call[|old(call)|].step.Persisted?
      ensures OnlyTouches(old(state), old(world), state, world, uid)
      ensures SameRecords(old(state), old(world), state, world)
      ensures state == old(state).(claims := old(state.claims)[uid := old(state.claims)[uid].(phase := Releasing)])
      ensures !ok ==> Rough(config, call, |old(call)|)
    {
      OpenPhase(state, world, call, call, uid, Releasing);
      state := state.(claims := state.claims[uid := state.claims[uid].(phase := Releasing)]);
      ghost var s := state;
      ok := Save();
      PersistTouchesNothing(s, old(world), world, uid);
      OnlyTouchesTrans(old(state), old(world), s, old(world), state, world, uid);
    }

    /** Has the release approved, removes the CDI file and forgets the claim. */
    method CommitRelease(prepared: PreparedClaim) returns (ok: bool)
      requires InCall() && prepared.uid in state.claims && state.claims[prepared.uid] == prepared
      requires prepared.phase == Releasing
      requires forall d :: d in prepared.devices ==> ResetAfterUse(call, |call|, d)
      modifies this`state, this`world, this`call
      ensures InCall() && old(call) <= call
      ensures old(state.quarantined.Keys) <= state.quarantined.Keys && IntentsWithin(call, |old(call)|, {})
      ensures OnlyTouches(old(state), old(world), state, world, prepared.uid)
      ensures OnlyDrops(old(state), old(world), state, world, prepared.uid)
      ensures ok ==>
                && state == old(state).(claims := old(state.claims) - {prepared.uid}) && world.disk == Some(state)
                && prepared.uid !in world.cdi
      ensures !ok ==> state.claims == old(state.claims)
      ensures !ok ==> Rough(config, call, |old(call)|)
    {
      ok := Audit(AuditEvent(ClaimRelease, "approved", "", "", prepared.uid, ""));
      OpenQuiet(state, state, world, old(call), call);
      if !ok {
        QuarantineDevices(prepared.devices, "claim release audit failed");
        OpenQuiet(old(state), state, world, call, call);
        SameClaimsTouchNothing(old(state), state, world, prepared.uid);
        return;
      }
      ghost var approved := call;
      AllResetAfterUse(old(call), call, |old(call)|, |approved|, prepared);
      ok := RemoveAndForget(prepared);
    }

    method RemoveAndForget(prepared: PreparedClaim) returns (ok: bool)
      requires InCall() && prepared.uid in state.claims && state.claims[prepared.uid] == prepared
      requires prepared.phase == Releasing
      requires forall d :: d in prepared.devices ==> ResetAfterUse(call, |call|, d)
      modifies this`state, this`world, this`call
      ensures InCall() && old(call) <= call
      ensures forall i :: |old(call)| <= i < |call| ==> !call[i].step.Audited?
      ensures OnlyTouches(old(state), old(world), state, world, prepared.uid)
      ensures OnlyDrops(old(state), old(world), state, world, prepared.uid)
      ensures ok ==>
                && state == old(state).(claims := old(state.claims) - {prepared.uid}) && world.disk == Some(state)
                && prepared.uid !in world.cdi
      ensures !ok ==> state == old(state)
      ensures !ok ==> Rough(config, call, |old(call)|)
    {
      ok := RemoveCDI(prepared.uid);
      OpenCDI(state, old(world), world, old(call), call, prepared.uid);
      if !ok {
        return;
      }
      ghost var w := world;
      AllResetAfterUse(old(call), call, |old(call)|, |old(call)|, prepared);
      ok := Forget(prepared);
      OnlyTouchesTrans(old(state), old(world), old(state), w, state, world, prepared.uid);
    }

    method Forget(prepared: PreparedClaim) returns (ok: bool)
      requires InCall() && prepared.uid in state.claims && state.claims[prepared.uid] == prepared
      requires prepared.phase == Releasing
      requires prepared.uid !in world.cdi && call != [] && call[|call| - 1].step == RemovedCDI(prepared.uid, true)
      requires forall d :: d in prepared.devices ==> ResetAfterUse(call, |call| - 1, d)
      modifies this`state, this`world, this`call
      ensures InCall() && old(call) <= call && world.cdi == old(world.cdi)
      ensures OnlyTouches(old(state), old(world), state, world, prepared.uid)
      ensures OnlyDrops(old(state), old(world), state, world, prepared.uid)
      ensures |call| == |old(call)| + 1 && call[|old(call)|].step.Persisted?
      ensures ok ==> state == old(state).(claims := old(state.claims) - {prepared.uid}) && world.disk == Some(state)
      ensures !ok ==> state == old(state)
      ensures !ok ==> Rough(config, call, |old(call)|)
    {
      ReleaseIsSavable(state, world, call, prepared.uid);
      state := state.(claims := state.claims - {prepared.uid});
      ok := Persist();
      OpenReleased(old(state), state, old(world), world, old(call), call, prepared.uid);
      if !ok {
        state := state.(claims := state.claims[prepared.uid := prepared]);
        PutBack(old(state), prepared.uid);
      }
    }

    /** One claim of `UnprepareResourceClaims`. */
    method ReleaseOne(uid: string, byName: map<string, InventoryDevice>) returns (ok: bool)
      requires InCall() && PathsSeen(call, byName)
      modifies this`state, this`world, this`call
      ensures InCall() && old(call) <= call
      ensures ReleaseTurn(old(state), old(world), old(call), state, world, call, uid, ok)
      ensures !ok ==> ReleaseHindered(config, byName, call, |old(call)|, state.claims, uid)
    {
      if uid !in state.claims {
        SameClaimsTouchNothing(state, state, world, uid);
        return true;
      }
      ok := IntendRelease(uid);
      QuarantineKeepsHandled(old(call), old(state.quarantined.Keys), call, state.quarantined.Keys);
      if !ok {
        return;
      }
      ghost var s, w, before := state, world, call;
      PathsSeenMonotone(old(call), call, byName);
      ok := ReleaseIntended(uid, byName);
      OnlyTouchesTrans(old(state), old(world), s, w, state, world, uid);
      IntentsSplit(before, call, |old(call)|, {uid}, {uid});
    }

    /** A claim whose release is under way: sanitize, then commit. */
    method ReleaseIntended(uid: string, byName: map<string, InventoryDevice>) returns (ok: bool)
      requires InCall() && PathsSeen(call, byName) && uid in state.claims && state.claims[uid].phase == Releasing
      modifies this`state, this`world, this`call
      ensures InCall() && old(call) <= call
      ensures OnlyTouches(old(state), old(world), state, world, uid)
      ensures OnlyDrops(old(state), old(world), state, world, uid)
      ensures if ok then uid !in state.claims && uid !in world.cdi else state.claims == old(state.claims)
      ensures IntentsWithin(call, |old(call)|, {uid})
      ensures StillHandled(old(call), old(state.quarantined.Keys), call, state.quarantined.Keys)
      ensures AllHandled(call, state.quarantined.Keys, old(state.claims)[uid].devices)
      ensures !ok ==> Rough(config, call, |old(call)|) || Unavailable(byName, old(state.claims)[uid].devices)
    {
      var prepared := state.claims[uid];
      ok := Postflight(prepared, byName);
      OpenQuiet(old(state), state, world, old(call), call);
      ghost var t, tried := state, call;
      if ok {
        ok := CommitRelease(prepared);
      } else {
        var saved := Save();
        PersistTouchesNothing(t, old(world), world, uid);
      }
      QuarantineKeepsHandled(tried, t.quarantined.Keys, call, state.quarantined.Keys);
      IntentsSplit(tried, call, |old(call)|, {}, {});
    }

    /** `UnprepareResourceClaims`. */
    method UnprepareResourceClaims(uids: seq<string>) returns (r: Result<map<string, bool>>)
      requires Valid()
      modifies this
      ensures Valid() && past == old(past) + [old(call)] && BeginsAt(call, old(world))
      ensures WasReloaded(call) ==> Moves(old(Loaded()).quarantined, state.quarantined, call, 0)
      ensures !WasReloaded(call) ==> state == old(state)
      ensures GoneAreReleased(call, old(world), world, UIDSet(uids))
      ensures || OnlyTouchesAll(old(state.claims), old(world), state.claims, world, UIDSet(uids))
              || OnlyTouchesAll(old(Loaded()).claims, old(world), state.claims, world, UIDSet(uids))
      ensures forall uid :: IsPrepared(state, uid) ==> old(IsPrepared(state, uid)) || old(IsPrepared(Loaded(), uid))
      ensures r.Ok? ==> world.disk == Some(state) && forall uid :: uid in r.value && r.value[uid] ==>
                uid !in state.claims && uid !in world.cdi
      ensures r.Ok? ==> forall uid :: uid in r.value && !r.value[uid] ==>
                uid in state.claims && state.claims[uid].phase == Releasing
      ensures ReleasesAnswered(config, UIDSet(uids), state.claims, call, r)
      ensures r.Ok? ==> FailuresHandled(old(Loaded()).claims, state.claims, call, state.quarantined.Keys, UIDSet(uids))
      ensures old(Exclusive(state, world)) ==> Exclusive(state, world)
    {
      var reloaded := Reload();
      if !reloaded {
        return Err("reload failed");
      }
      ghost var opening := call;
      ReloadKeepsExclusive(old(state), state, world);
      r := ReleaseLoaded(uids);
      StillFollows(past, opening, call);
      ReleasedIfGone(call, old(world), world);
    }

    /** The part of `UnprepareResourceClaims` after the reload. */
    method ReleaseLoaded(uids: seq<string>) returns (r: Result<map<string, bool>>)
      requires InCall() && DiskClaims(world).Keys <= state.claims.Keys && |call| == 1
      modifies this`state, this`world, this`call
      ensures InCall() && old(call) <= call
      ensures r.Ok? ==> FailuresHandled(old(state.claims), state.claims, call, state.quarantined.Keys, UIDSet(uids))
      ensures KeepsOnFile(old(world), world, UIDSet(uids))
      ensures OnlyTouchesAll(old(state.claims), old(world), state.claims, world, UIDSet(uids))
      ensures forall uid :: IsPrepared(state, uid) ==> old(IsPrepared(state, uid))
      ensures r.Ok? ==> world.disk == Some(state) && AllReleased(state, world, r.value)
      ensures ReleasesAnswered(config, UIDSet(uids), state.claims, call, r)
      ensures old(Exclusive(state, world)) ==> Exclusive(state, world)
    {
      var seen := Refresh();
      DroppingKeepsExclusive(old(state), world, state, world, "");
      if seen.Err? {
        return Err(seen.error);
      }
      ghost var opening := call;
      r := ReleaseRefreshed(uids, ByName(seen.value.devices));
      ReleasesAnswer(config, uids, seen.value, state, world, opening, call, r);
    }

    method ReleaseRefreshed(uids: seq<string>, byName: map<string, InventoryDevice>)
      returns (r: Result<map<string, bool>>)
      requires InCall() && PathsSeen(call, byName) && DiskClaims(world).Keys <= state.claims.Keys
      requires call[|call| - 1].step.Observed?
      modifies this`state, this`world, this`call
      ensures InCall() && old(call) <= call
      ensures r.Ok? ==> FailuresHandled(old(state.claims), state.claims, call, state.quarantined.Keys, UIDSet(uids))
      ensures KeepsOnFile(old(world), world, UIDSet(uids))
      ensures OnlyTouchesAll(old(state.claims), old(world), state.claims, world, UIDSet(uids))
      ensures forall uid :: IsPrepared(state, uid) ==> old(IsPrepared(state, uid))
      ensures r.Ok? ==> world.disk == Some(state) && AllReleased(state, world, r.value)
      ensures if r.Err? then Rough(config, call, |old(call)|)
              else && r.value.Keys == UIDSet(uids)
                   && FailuresExplained(config, byName, call, |old(call)|, state.claims, r.value)
      ensures old(Exclusive(state, world)) ==> Exclusive(state, world)
    {
      var results := ReleaseBatch(uids, byName);
      ghost var w, released := world, call;
      var persisted := Save();
      ReleaseSaved(old(state), old(world), old(call), state, w, released, world, call, results, UIDSet(uids));
      ExplainedStays(config, byName, released, call, |old(call)|, state.claims, results);
      r := if persisted then Ok(results) else Err("persist failed");
    }

    method ReleaseBatch(uids: seq<string>, byName: map<string, InventoryDevice>) returns (results: map<string, bool>)
      requires InCall() && PathsSeen(call, byName)
      modifies this`state, this`world, this`call
      ensures InCall() && old(call) <= call
      ensures ReleaseProgress(old(state), old(world), |old(call)|, state, world, call, results, UIDSet(uids))
      ensures results.Keys == UIDSet(uids)
      ensures FailuresExplained(config, byName, call, |old(call)|, state.claims, results)
    {
      results := map[];
      UIDSetSteps(uids);
      ReleaseBegins(state, world, call);
      for i := 0 to |uids|
        invariant InCall() && old(call) <= call
        invariant ReleaseProgress(old(state), old(world), |old(call)|, state, world, call, results, UIDSet(uids[..i]))
        invariant results.Keys == UIDSet(uids[..i])
        invariant FailuresExplained(config, byName, call, |old(call)|, state.claims, results)
      {
        ghost var s, w, before := state, world, call;
        PathsSeenMonotone(old(call), call, byName);
        var ok := ReleaseOne(uids[i], byName);
        ReleaseProgresses(old(state), old(world), |old(call)|, s, w, before, state, world, call, results,
                          UIDSet(uids[..i]), uids[i], ok);
        ReleaseExplained(config, byName, s, w, state, world, before, call, |old(call)|, results, uids[i], ok);
        results := results[uids[i] := ok];
      }
    }
  }

  function UIDSet(uids: seq<string>): set<string> { set u | u in uids }

  /** A record that was on file and is not any more, with its devices, is one of `uids` and was released by the call. */
  ghost predicate GoneAreReleased(call: Call, w: World, x: World, uids: set<string>) {
    forall uid :: uid in DiskClaims(w) && !OnFile(x, uid, DiskClaims(w)[uid].devices) ==>
      uid in uids && Released(call, uid, DiskClaims(w)[uid])
  }

  /** A record that a call has taken off the file was released by that call. */
  lemma ReleasedIfGone(call: Call, w: World, x: World)
    requires LawfulCall(call) && BeginsAt(call, w) && EndsAt(call, x)
    ensures forall uid :: uid in DiskClaims(w) && !OnFile(x, uid, DiskClaims(w)[uid].devices) ==>
              Released(call, uid, DiskClaims(w)[uid])
  {
    forall uid | uid in DiskClaims(w) && !OnFile(x, uid, DiskClaims(w)[uid].devices)
      ensures Released(call, uid, DiskClaims(w)[uid]) {
      KeptOrReleased(call, w, uid);
    }
  }

  /** What the outcome relation says of the agent's own state. */
  lemma BatchConsequences(c: Config, claims: seq<Option<ResourceClaim>>, byName: map<string, InventoryDevice>, s: State,
                          w: World, known: map<string, string>, t: State, x: World, owners: map<string, string>)
    requires BatchOutcome(c, claims, byName, |claims|, LedgerOf(s, w, known), LedgerOf(t, x, owners))
    requires DiskClaims(w).Keys <= s.claims.Keys && Agree(s.claims, DiskClaims(w))
    requires IsOwners(known, Recorded(s.claims))
    ensures forall uid :: uid in DiskClaims(w) ==> RecordedAs(t, x, uid, DiskClaims(w)[uid].devices)
    ensures s.claims.Keys <= t.claims.Keys
    ensures Exclusive(s, w) && NeverContended(c, claims, s.claims) ==> Exclusive(t, x)
  {
    var l, m := LedgerOf(s, w, known), LedgerOf(t, x, owners);
    OutcomeExplained(c, claims, byName, |claims|, l, m);
    forall uid | uid in s.claims ensures uid in t.claims { assert uid in l.memory && uid in m.memory; }
    forall uid | uid in DiskClaims(w) ensures RecordedAs(t, x, uid, DiskClaims(w)[uid].devices) {
      OutcomeKeeps(c, claims, byName, |claims|, l, m, uid, DiskClaims(w)[uid].devices);
    }
    if Exclusive(s, w) && NeverContended(c, claims, s.claims) {
      SingleIsExclusive(s, w, known);
      UncontendedStaysSingle(c, claims, byName, l, m);
      SingleIsExclusive(t, x, owners);
    }
  }

  /** What a batch and the write after it leave and answer. */
  lemma BatchSaved(c: Config, claims: seq<Option<ResourceClaim>>, byName: map<string, InventoryDevice>,
                   known: map<string, string>, s0: State, w0: World, from: nat, s: State, w: World, call: Call,
                   owners: map<string, string>, results: map<string, Delivery>, x: World, later: Call)
    requires from <= |call| && call != [] && call <= later && (x == w || x == w.(disk := Some(s)))
    requires BatchProgress(c, claims, byName, |claims|, known, s0, w0, from, s, w, call, owners, results)
    requires DiskClaims(w0).Keys <= s0.claims.Keys && Agree(s0.claims, DiskClaims(w0))
    requires IsOwners(known, Recorded(s0.claims)) && forall c :: c in claims && c.Some? ==> c.value.uid != ""
    ensures RecordsKept(w0, x) && s0.claims.Keys <= s.claims.Keys
    ensures OnlyTouchesAll(s0.claims, w0, s.claims, x, BatchUIDs(claims)) && PromotedSince(s0, s, later, from)
    ensures Answered(c, claims, byName, |claims|, s0, s, x, later, results)
    ensures Exclusive(s0, w0) && NeverContended(c, claims, s0.claims) ==> Exclusive(s, x)
  {
    assert claims[..|claims|] == claims;
    BatchConsequences(c, claims, byName, s0, w0, known, s, w, owners);
    ServedDisjoint(s, owners, results);
    AnswersSaved(c, claims, byName, s0, s, w, call, x, later, results);
    PromotedStays(s0, s, call, later, from);
    SavedAfterBatch(s, w0, w, x);
  }

  /** Saving a state with the same claims keeps what is on record, and whose it is. */
  lemma SaveKeeps(s: State, t: State, w: World, x: World)
    requires t.claims == s.claims && (x == w || x == w.(disk := Some(t)))
    requires DiskClaims(w).Keys <= s.claims.Keys && Agree(s.claims, DiskClaims(w))
    ensures RecordsKept(w, x) && x.cdi == w.cdi && (Exclusive(s, w) ==> Exclusive(t, x))
  {
    SavedKeepsRecords(s, t, w, x);
    DroppingKeepsExclusive(s, w, t, x, "");
  }

  lemma SavedAfterBatch(s: State, w0: World, w: World, x: World)
    requires x == w || x == w.(disk := Some(s))
    requires forall uid :: uid in DiskClaims(w0) ==> RecordedAs(s, w, uid, DiskClaims(w0)[uid].devices)
    ensures RecordsKept(w0, x) && (Exclusive(s, w) ==> Exclusive(s, x))
  {
    DroppingKeepsExclusive(s, w, s, x, "");
  }

  /** A device that was just reset after use need not stay in quarantine. */
  lemma ScrubbedIsHandled(call: Call, q: set<string>, later: Call, r: set<string>, d: ClaimDevice, ok: bool)
    requires call <= later && |call| + 1 < |later| && (ok ==> PostflightReset(later, |call|, d))
    requires if ok then r == q - {d.device} else r == q + {d.device}
    ensures StillHandled(call, q, later, r) && (ok ==> ResetAfterUse(later, |later|, d))
  {
    QuarantineKeepsHandled(call, q, later, q);
    assert ok ==> forall c: ClaimDevice :: c.device == d.device ==> PostflightReset(later, |call|, c);
  }

  lemma ScrubsStay(call: Call, later: Call, devices: seq<ClaimDevice>)
    requires call <= later
    ensures forall k :: 0 <= k < |devices| && ResetAfterUse(call, |call|, devices[k]) ==>
              ResetAfterUse(later, |later|, devices[k])
  {
    forall k | 0 <= k < |devices| && ResetAfterUse(call, |call|, devices[k])
      ensures ResetAfterUse(later, |later|, devices[k]) {
      ResetAfterUseMonotone(call, later, |call|, |later|, devices[k]);
    }
  }

  /** A claim reported as released is gone; one reported as failed is still on record, in Releasing. */
  ghost predicate AllReleased(s: State, w: World, results: map<string, bool>) {
    forall uid :: uid in results ==>
      if results[uid] then uid !in s.claims && uid !in w.cdi else uid in s.claims && s.claims[uid].phase == Releasing
  }

  /** An intent recorded after the call looked at the inventory was recorded by the batch. */
  lemma HandledAfterLook(loaded: Claims, s: State, opening: Call, released: Call, call: Call, uids: set<string>)
    requires opening <= released <= call && |call| == |released| + 1 && call[|released|].step.Persisted?
    requires opening != [] && opening[|opening| - 1].step.Observed?
    requires ReleasesHandled(loaded, s.claims, released, |opening|, s.quarantined.Keys, uids)
    ensures FailuresHandled(loaded, s.claims, call, s.quarantined.Keys, uids)
  {
    QuarantineKeepsHandled(released, s.quarantined.Keys, call, s.quarantined.Keys);
    forall u | IntendedAfterLook(call, u) ensures Intended(released, |opening|, u) {
      var i :| 0 <= i < |call| && IsIntent(call[i].step, u) && forall v :: i < v < |call| ==> !call[v].step.Observed?;
      assert call[|opening| - 1] == opening[|opening| - 1];
      assert |opening| <= i < |released| && released[i] == call[i];
    }
  }

  // ---- A batch of releases ----

  lemma ReleasesAnswer(c: Config, uids: seq<string>, seen: Snapshot, s: State, w: World, opening: Call, call: Call,
                       r: Result<map<string, bool>>)
    requires opening <= call && |opening| > 1 && opening[1].step.Looked? && opening[1].step.seen == Some(seen)
    requires if r.Err? then Rough(c, call, |opening|)
             else && r.value.Keys == UIDSet(uids) && AllReleased(s, w, r.value)
                  && FailuresExplained(c, ByName(seen.devices), call, |opening|, s.claims, r.value)
    ensures ReleasesAnswered(c, UIDSet(uids), s.claims, call, r)
  {
    assert call[1] == opening[1];
    if r.Err? || Rough(c, call, |opening|) {
      RoughStays(c, call, call, |opening|, 0);
    } else {
      forall uid | uid in r.value && uid in s.claims ensures SomeAbsent(seen, s.claims[uid].devices) {
        UnavailableIsAbsent(seen, s.claims[uid].devices);
      }
    }
  }

  /** What one release does. */
  ghost predicate ReleaseTurn(s: State, w: World, call: Call, t: State, x: World, later: Call, uid: string, ok: bool) {
    && OnlyTouches(s, w, t, x, uid) && OnlyDrops(s, w, t, x, uid)
    && (if ok then uid !in t.claims && uid !in x.cdi
        else uid in t.claims && uid in s.claims && t.claims[uid] == s.claims[uid].(phase := Releasing))
    && IntentsWithin(later, |call|, {uid})
    && StillHandled(call, s.quarantined.Keys, later, t.quarantined.Keys)
    && (uid in s.claims && (s.claims[uid].phase == Releasing || Intended(later, |call|, uid)) ==>
          AllHandled(later, t.quarantined.Keys, s.claims[uid].devices))
  }

  /** What the releases of `done` have done since state `s0`. */
  ghost predicate ReleaseProgress(s0: State, w0: World, from: nat, s: State, w: World, call: Call,
                                  results: map<string, bool>, done: set<string>) {
    && AllReleased(s, w, results)
    && (forall u :: IsPrepared(s, u) ==> IsPrepared(s0, u))
    && ReleasesHandled(s0.claims, s.claims, call, from, s.quarantined.Keys, done)
    && OnlyTouchesAll(s0.claims, w0, s.claims, w, done)
    && KeepsRecords(s0, w0, s, w, done)
    && (Exclusive(s0, w0) ==> Exclusive(s, w))
  }

  /** Every record on file outside `uids` still is, with its devices. */
  ghost predicate KeepsOnFile(w: World, x: World, uids: set<string>) {
    forall uid :: uid in DiskClaims(w) && uid !in uids ==> OnFile(x, uid, DiskClaims(w)[uid].devices)
  }

  /** What the write at the end of a batch of releases leaves. */
  lemma ReleaseSaved(s0: State, w0: World, opening: Call, s: State, w: World, released: Call, x: World, call: Call,
                     results: map<string, bool>, uids: set<string>)
    requires ReleaseProgress(s0, w0, |opening|, s, w, released, results, uids)
    requires DiskClaims(w0).Keys <= s0.claims.Keys && Agree(s0.claims, DiskClaims(w0))
    requires x == w.(disk := Some(s)) || x == w
    requires opening <= released <= call && |call| == |released| + 1 && call[|released|].step.Persisted?
    requires opening != [] && opening[|opening| - 1].step.Observed?
    ensures FailuresHandled(s0.claims, s.claims, call, s.quarantined.Keys, uids)
    ensures KeepsOnFile(w0, x, uids) && AllReleased(s, x, results) && OnlyTouchesAll(s0.claims, w0, s.claims, x, uids)
    ensures forall uid :: IsPrepared(s, uid) ==> IsPrepared(s0, uid)
    ensures Exclusive(s0, w0) ==> Exclusive(s, x)
  {
    PersistTouchesNothing(s, w, x, "");
    DroppingKeepsExclusive(s, w, s, x, "");
    HandledAfterLook(s0.claims, s, opening, released, call, uids);
    ReloadedRecords(s0, w0);
    forall uid | uid in DiskClaims(w0) && uid !in uids ensures OnFile(x, uid, DiskClaims(w0)[uid].devices) {
      SameRecordsKeep(s, w, s, x, uid, DiskClaims(w0)[uid].devices);
    }
  }

  lemma ReleaseBegins(s: State, w: World, call: Call)
    ensures ReleaseProgress(s, w, |call|, s, w, call, map[], {})
  {
  }

  lemma UIDSetSteps(uids: seq<string>)
    ensures UIDSet(uids[..0]) == {} && UIDSet(uids[..|uids|]) == UIDSet(uids)
    ensures forall i :: 0 <= i < |uids| ==> UIDSet(uids[..i + 1]) == UIDSet(uids[..i]) + {uids[i]}
  {
    assert uids[..|uids|] == uids;
  }

  lemma ReleaseProgresses(s0: State, w0: World, from: nat, s: State, w: World, call: Call, t: State, x: World,
                          later: Call, results: map<string, bool>, done: set<string>, uid: string, ok: bool)
    requires ReleaseProgress(s0, w0, from, s, w, call, results, done) && from <= |call| && call <= later
    requires ReleaseTurn(s, w, call, t, x, later, uid, ok)
    ensures ReleaseProgress(s0, w0, from, t, x, later, results[uid := ok], done + {uid})
  {
    ReleasesStay(s, w, t, x, uid, results, ok);
    DroppingKeepsExclusive(s, w, t, x, uid);
    OnlyDropsKeep(s0, w0, s, w, t, x, done, uid);
    TouchOneMore(s0.claims, w0, s, w, t, x, done, uid);
    ReleaseHandled(s0.claims, s, t, call, later, from, done, uid);
  }

  lemma ReleasesStay(s: State, w: World, t: State, x: World, uid: string, results: map<string, bool>, ok: bool)
    requires AllReleased(s, w, results) && OnlyTouches(s, w, t, x, uid)
    requires if ok then uid !in t.claims && uid !in x.cdi else uid in t.claims && t.claims[uid].phase == Releasing
    ensures AllReleased(t, x, results[uid := ok])
    ensures forall u :: IsPrepared(t, u) ==> IsPrepared(s, u)
  {
  }

  lemma ReloadKeepsExclusive(s: State, t: State, w: World)
    requires t == AfterReload(s, w)
    ensures Exclusive(s, w) ==> Exclusive(t, w)
  {
    assert forall u, d :: Owns(t, w, u, d) ==> Owns(s, w, u, d);
  }
}
