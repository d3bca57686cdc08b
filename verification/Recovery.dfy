/** Startup: aligning recorded ownership, live allocations, CDI files and inventory. */
module Recovery {
  import opened Api
  import opened Inventory
  import opened Lifecycle
  import opened Batches
  import opened Screening
  import opened Causes
  import opened Answers
  import opened Manager

  // ---- Live allocations ----

  predicate IsLocal(c: Config, r: AllocatedDevice) { r.driver == c.driver && r.pool == c.nodeName }

  function LiveDevice(uid: string, r: AllocatedDevice, byName: map<string, InventoryDevice>): ClaimDevice {
    if r.device in byName then
      var item := byName[r.device];
      ClaimDevice([r.request], r.pool, r.device, item.stableID, item.path, item.major, item.minor, CDIID(uid, r.device))
    else ClaimDevice([r.request], r.pool, r.device, "", "", 0, 0, CDIID(uid, r.device))
  }

  function LiveDevices(c: Config, uid: string, results: seq<AllocatedDevice>,
                       byName: map<string, InventoryDevice>): seq<ClaimDevice> {
    if results == [] then []
    else
      var last := results[|results| - 1];
      LiveDevices(c, uid, results[..|results| - 1], byName) +
      if IsLocal(c, last) then [LiveDevice(uid, last, byName)] else []
  }

  function LiveClaim(c: Config, claim: ResourceClaim, byName: map<string, InventoryDevice>): PreparedClaim
    requires claim.allocation.Some?
  {
    PreparedClaim(claim.uid, claim.namespace, claim.name, Recovered,
                  LiveDevices(c, claim.uid, claim.allocation.value.results, byName))
  }

  /** The claim has a device of this driver on this node. */
  predicate IsLive(c: Config, claim: Option<ResourceClaim>) {
    && claim.Some? && claim.value.allocation.Some?
    && exists r :: r in claim.value.allocation.value.results && IsLocal(c, r)
  }

  lemma {:induction false} LiveDevicesEmpty(c: Config, uid: string, results: seq<AllocatedDevice>,
                                            byName: map<string, InventoryDevice>)
    ensures LiveDevices(c, uid, results, byName) == [] <==> forall r :: r in results ==> !IsLocal(c, r)
  {
    if results != [] {
      LiveDevicesEmpty(c, uid, results[..|results| - 1], byName);
      assert results == results[..|results| - 1] + [results[|results| - 1]];
    }
  }

  /** `live` holds exactly the claims with local allocations, each as some listed claim allocates it. */
  ghost predicate LiveMap(c: Config, claims: seq<Option<ResourceClaim>>, byName: map<string, InventoryDevice>,
                          live: Claims) {
    && (forall claim :: claim in claims && IsLive(c, claim) ==> claim.value.uid in live)
    && (forall uid :: uid in live ==> LiveFrom(c, claims, byName, uid, live[uid]))
  }

  ghost predicate LiveFrom(c: Config, claims: seq<Option<ResourceClaim>>, byName: map<string, InventoryDevice>,
                           uid: string, rec: PreparedClaim) {
    exists i ::
      && 0 <= i < |claims| && IsLive(c, claims[i]) && claims[i].value.uid == uid
      && rec == LiveClaim(c, claims[i].value, byName)
  }

  /** `localAllocations`. */
  method LocalAllocations(c: Config, claims: seq<Option<ResourceClaim>>, byName: map<string, InventoryDevice>)
    returns (live: Claims)
    ensures LiveMap(c, claims, byName, live)
  {
    live := map[];
    for i := 0 to |claims|
      invariant forall k :: 0 <= k < i && IsLive(c, claims[k]) ==> claims[k].value.uid in live
      invariant forall uid :: uid in live ==> LiveFrom(c, claims, byName, uid, live[uid])
    {
      if claims[i].None? || claims[i].value.allocation.None? {
        continue;
      }
      var claim := claims[i].value;
      var results := claim.allocation.value.results;
      var devices := [];
      for j := 0 to |results|
        invariant devices == LiveDevices(c, claim.uid, results[..j], byName)
      {
        assert results[..j + 1][..j] == results[..j];
        if results[j].driver != c.driver || results[j].pool != c.nodeName {
          continue;
        }
        devices := devices + [LiveDevice(claim.uid, results[j], byName)];
      }
      assert results[..|results|] == results;
      LiveDevicesEmpty(c, claim.uid, results, byName);
      if |devices| > 0 {
        live := live[claim.uid := PreparedClaim(claim.uid, claim.namespace, claim.name, Recovered, devices)];
      }
    }
  }

  // ---- One record ----

  /** The recorded device is missing, has another identity, or is unsafe. */
  ghost predicate Suspect(c: Config, d: ClaimDevice, byName: map<string, InventoryDevice>) {
    || d.device !in byName
    || (d.stableID != "" && d.stableID != byName[d.device].stableID)
    || d.path != byName[d.device].path || d.major != byName[d.device].major || d.minor != byName[d.device].minor
    || !SafeDevice(c, byName[d.device])
  }

  /** A sound device without a request: the claim cannot be prepared again. */
  ghost predicate Unrequested(c: Config, d: ClaimDevice, byName: map<string, InventoryDevice>) {
    !Suspect(c, d, byName) && d.requests == []
  }

  ghost predicate UnrequestedBefore(c: Config, devices: seq<ClaimDevice>, byName: map<string, InventoryDevice>, n: nat)
    requires n <= |devices|
  {
    exists j :: 0 <= j < n && Unrequested(c, devices[j], byName)
  }

  /**
   * Startup quarantines device `k` of a claim: it was not Prepared, or not any more after an earlier device, or the
   * device is suspect or without a request.
   */
  ghost predicate Caught(c: Config, phase: Phase, devices: seq<ClaimDevice>, byName: map<string, InventoryDevice>,
                         k: nat)
    requires k < |devices|
  {
    || phase != Prepared || UnrequestedBefore(c, devices, byName, k)
    || Suspect(c, devices[k], byName) || devices[k].requests == []
  }

  /** The names of those among the first `n` devices. */
  ghost function CaughtNames(c: Config, phase: Phase, devices: seq<ClaimDevice>, byName: map<string, InventoryDevice>,
                             n: nat): set<string>
    requires n <= |devices|
  {
    set k | 0 <= k < n && Caught(c, phase, devices, byName, k) :: devices[k].device
  }

  /** Only a Prepared claim can change phase in the scan, and only for a sound device without a request. */
  ghost function EndPhase(c: Config, phase: Phase, devices: seq<ClaimDevice>, byName: map<string, InventoryDevice>,
                          n: nat): Phase
    requires n <= |devices|
  {
    if phase == Prepared && UnrequestedBefore(c, devices, byName, n) then Recovered else phase
  }

  /** The phase a record has when its devices are scanned. */
  function ScanPhase(rec: PreparedClaim, configured: bool, isLive: bool): Phase {
    if configured && !isLive then Releasing else rec.phase
  }

  /** The devices of the live allocation; none if there is none. */
  function LiveOf(live: Claims, uid: string): seq<ClaimDevice> { if uid in live then live[uid].devices else [] }

  /** The recorded devices with the requests they have, or that the live allocation has for them. */
  function Filled(devices: seq<ClaimDevice>, live: seq<ClaimDevice>): seq<ClaimDevice> {
    seq(|devices|, i requires 0 <= i < |devices| => devices[i].(requests := KeptRequests(devices[i], live)))
  }

  /** An old record without a stable ID takes the observed one. */
  function Identify(d: ClaimDevice, byName: map<string, InventoryDevice>): ClaimDevice {
    if d.stableID == "" && d.device in byName then d.(stableID := byName[d.device].stableID) else d
  }

  ghost predicate IdentifiedAs(devices: seq<ClaimDevice>, now: seq<ClaimDevice>, byName: map<string, InventoryDevice>) {
    |now| == |devices| && forall i :: 0 <= i < |devices| ==> now[i] == Identify(devices[i], byName)
  }

  /** What startup makes of a record `rec`. */
  ghost predicate Aligned(c: Config, rec: PreparedClaim, now: PreparedClaim, configured: bool, live: Claims,
                          uid: string, byName: map<string, InventoryDevice>)
  {
    var devices := Filled(rec.devices, LiveOf(live, uid));
    && IdentifiedAs(devices, now.devices, byName)
    && now == rec.(devices := now.devices,
                   phase := EndPhase(c, ScanPhase(rec, configured, uid in live), devices, byName, |devices|))
  }

  /** The names of the devices of a record that its scan quarantines. */
  ghost function CaughtIn(c: Config, rec: PreparedClaim, configured: bool, live: Claims, uid: string,
                          byName: map<string, InventoryDevice>): set<string>
  {
    var devices := Filled(rec.devices, LiveOf(live, uid));
    CaughtNames(c, ScanPhase(rec, configured, uid in live), devices, byName, |devices|)
  }

  ghost predicate SameDevices(a: seq<ClaimDevice>, b: seq<ClaimDevice>) {
    |a| == |b| && forall i :: 0 <= i < |a| ==> a[i].device == b[i].device && a[i].path == b[i].path
  }

  lemma AlignedSameDevices(c: Config, rec: PreparedClaim, now: PreparedClaim, configured: bool, live: Claims,
                           uid: string, byName: map<string, InventoryDevice>)
    requires Aligned(c, rec, now, configured, live, uid, byName)
    ensures SameDevices(rec.devices, now.devices)
  {
    var devices := Filled(rec.devices, LiveOf(live, uid));
    assert forall i :: 0 <= i < |devices| ==> devices[i].device == rec.devices[i].device;
  }

  /**
   * A Prepared claim that is still allocated and has only sound devices with requests stays Prepared, and startup
   * quarantines none of its devices for it.
   */
  lemma SoundClaimIsKept(c: Config, rec: PreparedClaim, now: PreparedClaim, configured: bool, live: Claims,
                         uid: string, byName: map<string, InventoryDevice>)
    requires Aligned(c, rec, now, configured, live, uid, byName)
    requires rec.phase == Prepared && (configured ==> uid in live)
    requires forall d :: d in rec.devices ==> !Suspect(c, d, byName)
    requires forall d :: d in rec.devices ==> d.requests != [] || LiveRequests(LiveOf(live, uid), d.device) != []
    ensures now.phase == Prepared && CaughtIn(c, rec, configured, live, uid, byName) == {}
  {
    var devices := Filled(rec.devices, LiveOf(live, uid));
    forall k | 0 <= k < |devices| ensures !Suspect(c, devices[k], byName) && devices[k].requests != [] {
      assert rec.devices[k] in rec.devices;
    }
  }

  method FaultOf(c: Config, d: ClaimDevice, byName: map<string, InventoryDevice>) returns (reason: string)
    ensures reason != "" <==> Suspect(c, d, byName)
  {
    if d.device !in byName {
      return "persisted device is not present";
    }
    var item := byName[d.device];
    SafeDeviceMeans(c, item);
    if d.stableID != "" && d.stableID != item.stableID {
      return "persisted hardware identity changed";
    }
    if d.path != item.path || d.major != item.major || d.minor != item.minor {
      return "persisted device node identity changed";
    }
    reason := UnsafeReason(c, item);
  }

  /** The requests the live allocation names for a device; none if it does not name it. */
  function LiveRequests(live: seq<ClaimDevice>, device: string): seq<string> {
    if live == [] then []
    else if live[|live| - 1].device == device then live[|live| - 1].requests
    else LiveRequests(live[..|live| - 1], device)
  }

  function KeptRequests(d: ClaimDevice, live: seq<ClaimDevice>): seq<string> {
    if d.requests != [] then d.requests else LiveRequests(live, d.device)
  }

  /** Requests missing from an old record are taken from the live allocation. */
  method FillRequests(devices: seq<ClaimDevice>, live: seq<ClaimDevice>) returns (filled: seq<ClaimDevice>)
    ensures filled == Filled(devices, live)
    ensures |filled| == |devices|
    ensures forall i :: 0 <= i < |devices| ==> filled[i] == devices[i].(requests := filled[i].requests)
    ensures forall i :: 0 <= i < |devices| ==>
              filled[i].requests == if devices[i].requests != [] then devices[i].requests
                                    else LiveRequests(live, devices[i].device)
  {
    var requests: map<string, seq<string>> := map[];
    for i := 0 to |live|
      invariant forall n :: LiveRequests(live[..i], n) == if n in requests then requests[n] else []
    {
      assert live[..i + 1][..i] == live[..i];
      requests := requests[live[i].device := live[i].requests];
    }
    assert live[..|live|] == live;
    filled := devices;
    for i := 0 to |devices|
      invariant |filled| == |devices|
      invariant forall k :: 0 <= k < |devices| ==> filled[k] == devices[k].(requests := filled[k].requests)
      invariant forall k :: i <= k < |devices| ==> filled[k] == devices[k]
      invariant forall k :: 0 <= k < i ==> filled[k].requests == KeptRequests(devices[k], live)
    {
      if |filled[i].requests| == 0 && filled[i].device in requests {
        filled := filled[i := filled[i].(requests := requests[filled[i].device])];
      }
    }
  }

  /** One device of a record: a suspect one is quarantined, and so is any of a claim that is not Prepared. */
  method ScanDevice(a: Agent, d: ClaimDevice, uid: string, phase: Phase, byName: map<string, InventoryDevice>)
    returns (scanned: ClaimDevice, after: Phase, ok: bool)
    modifies a`state, a`call
    ensures Held(old(a.state), a.state, if phase != Prepared || Suspect(a.config, d, byName) || d.requests == []
                                        then {d.device} else {})
    ensures scanned == Identify(d, byName)
    ensures after == if phase == Prepared && Unrequested(a.config, d, byName) then Recovered else phase
    ensures Noted(old(a.call), a.call) && (!ok ==> Rough(a.config, a.call, |old(a.call)|))
  {
    ok, scanned, after := true, d, phase;
    var reason := FaultOf(a.config, d, byName);
    if d.device in byName && d.stableID == "" {
      scanned := d.(stableID := byName[d.device].stableID);
    }
    if phase != Prepared && reason == "" {
      reason := "interrupted transition";
    }
    if |d.requests| == 0 && reason == "" {
      after := Recovered;
      reason := "persisted request association is unavailable";
    }
    if reason != "" {
      ok := a.Quarantine(d.device, d.path, reason, uid, StartupRecovery);
    }
  }

  /** Only the quarantine changed, and exactly these names entered it. */
  ghost predicate Held(s: State, t: State, names: set<string>) {
    && t == s.(quarantined := t.quarantined) && t.quarantined.Keys == s.quarantined.Keys + names
    && (ReasonsGiven(s.quarantined) ==> ReasonsGiven(t.quarantined))
  }

  /** Only audit events were added. */
  ghost predicate Noted(call: Call, later: Call) {
    call <= later && forall i :: |call| <= i < |later| ==> later[i].step.Audited?
  }

  /** The device scan of one record. */
  method ScanRecord(a: Agent, start: PreparedClaim, byName: map<string, InventoryDevice>)
    returns (claim: PreparedClaim, ok: bool)
    modifies a`state, a`call
    ensures Held(old(a.state), a.state, CaughtNames(a.config, start.phase, start.devices, byName, |start.devices|))
    ensures IdentifiedAs(start.devices, claim.devices, byName)
    ensures claim == start.(devices := claim.devices,
                            phase := EndPhase(a.config, start.phase, start.devices, byName, |start.devices|))
    ensures Noted(old(a.call), a.call) && (!ok ==> Rough(a.config, a.call, |old(a.call)|))
  {
    claim, ok := start, true;
    for i := 0 to |start.devices|
      invariant ScannedUpTo(a.config, start, byName, old(a.state), a.state, claim, i)
      invariant Noted(old(a.call), a.call) && (!ok ==> Rough(a.config, a.call, |old(a.call)|))
    {
      ghost var before, s := a.call, a.state;
      var scanned, after, step := ScanDevice(a, claim.devices[i], claim.uid, claim.phase, byName);
      ghost var was := claim;
      claim := claim.(devices := claim.devices[i := scanned], phase := after);
      ScanOne(a.config, start, byName, old(a.state), s, was, a.state, claim, i);
      StillRough(a.config, old(a.call), before, a.call, ok, step);
      ok := ok && step;
    }
  }

  /** The scan of the first `i` devices of `start`, from state `s0`. */
  ghost predicate ScannedUpTo(c: Config, start: PreparedClaim, byName: map<string, InventoryDevice>, s0: State,
                              s: State, claim: PreparedClaim, i: nat)
    requires i <= |start.devices|
  {
    && Held(s0, s, CaughtNames(c, start.phase, start.devices, byName, i)) && |claim.devices| == |start.devices|
    && claim == start.(devices := claim.devices, phase := EndPhase(c, start.phase, start.devices, byName, i))
    && (forall k :: 0 <= k < i ==> claim.devices[k] == Identify(start.devices[k], byName))
    && (forall k :: i <= k < |start.devices| ==> claim.devices[k] == start.devices[k])
  }

  lemma ScanOne(c: Config, start: PreparedClaim, byName: map<string, InventoryDevice>, s0: State, s: State,
                was: PreparedClaim, t: State, claim: PreparedClaim, i: nat)
    requires i < |start.devices| && ScannedUpTo(c, start, byName, s0, s, was, i)
    requires var d := start.devices[i];
             && Held(s, t, if was.phase != Prepared || Suspect(c, d, byName) || d.requests == [] then {d.device}
                           else {})
             && claim == was.(devices := was.devices[i := Identify(d, byName)],
                              phase := if was.phase == Prepared && Unrequested(c, d, byName) then Recovered
                                       else was.phase)
    ensures ScannedUpTo(c, start, byName, s0, t, claim, i + 1)
  {
    CaughtNext(c, start.phase, start.devices, byName, i);
    HeldMore(s0, s, t, CaughtNames(c, start.phase, start.devices, byName, i),
             if Caught(c, start.phase, start.devices, byName, i) then {start.devices[i].device} else {});
  }

  lemma CaughtNext(c: Config, phase: Phase, devices: seq<ClaimDevice>, byName: map<string, InventoryDevice>, i: nat)
    requires i < |devices|
    ensures CaughtNames(c, phase, devices, byName, i + 1) ==
            CaughtNames(c, phase, devices, byName, i) +
            if Caught(c, phase, devices, byName, i) then {devices[i].device} else {}
    ensures EndPhase(c, phase, devices, byName, i + 1) ==
            if EndPhase(c, phase, devices, byName, i) == Prepared && Unrequested(c, devices[i], byName) then Recovered
            else EndPhase(c, phase, devices, byName, i)
    ensures Caught(c, phase, devices, byName, i) <==>
            || EndPhase(c, phase, devices, byName, i) != Prepared
            || Suspect(c, devices[i], byName) || devices[i].requests == []
  {
    assert UnrequestedBefore(c, devices, byName, i + 1) <==>
           UnrequestedBefore(c, devices, byName, i) || Unrequested(c, devices[i], byName);
  }

  lemma HeldMore(s: State, t: State, u: State, names: set<string>, more: set<string>)
    requires Held(s, t, names) && Held(t, u, more)
    ensures Held(s, u, names + more)
  {
  }

  /** Brings one record in line with its live allocation and the inventory. */
  method AlignRecord(a: Agent, uid: string, rec: PreparedClaim, live: Claims, configured: bool,
                     byName: map<string, InventoryDevice>)
    returns (claim: PreparedClaim, ok: bool)
    modifies a`state, a`call
    ensures Held(old(a.state), a.state, CaughtIn(a.config, rec, configured, live, uid, byName))
    ensures Aligned(a.config, rec, claim, configured, live, uid, byName)
    ensures Noted(old(a.call), a.call) && (!ok ==> Rough(a.config, a.call, |old(a.call)|))
  {
    var start := rec;
    if uid in live {
      var filled := FillRequests(rec.devices, live[uid].devices);
      start := start.(devices := filled);
    } else {
      FilledAlone(rec.devices);
    }
    if configured && uid !in live {
      start := start.(phase := Releasing);
    }
    claim, ok := ScanRecord(a, start, byName);
  }

  lemma FilledAlone(devices: seq<ClaimDevice>)
    ensures Filled(devices, []) == devices
  {
  }

  // ---- The CDI file of a record ----

  /** Every device of the record has a path. */
  predicate Complete(claim: PreparedClaim) {
    |claim.devices| > 0 && forall i :: 0 <= i < |claim.devices| ==> claim.devices[i].path != ""
  }

  /** The write of a CDI file that lists this device was reported as failed. */
  ghost predicate SpecFailed(call: Call, from: nat, n: string) {
    exists i :: from <= i < |call| && SpecFailedAt(call[i].step, n)
  }

  ghost predicate SpecFailedAt(step: Step, n: string) { step.WroteCDI? && !step.ok && n in Names(step.claim) }

  /** The CDI file of this claim was written, or an attempt was made. */
  ghost predicate Wrote(call: Call, from: nat, claim: PreparedClaim) {
    exists i :: from <= i < |call| && call[i].step.WroteCDI? && call[i].step.claim == claim
  }

  ghost predicate WriteFailed(call: Call, from: nat, claim: PreparedClaim) {
    exists i :: from <= i < |call| && call[i].step == WroteCDI(claim, false)
  }

  method LogSpec(a: Agent, claim: PreparedClaim) returns (ok: bool)
    modifies a`world, a`call
    ensures a.call == old(a.call) + [Entry(WroteCDI(claim, ok), old(a.world), a.world)]
    ensures || a.world == old(a.world).(cdi := old(a.world.cdi)[claim.uid := SpecOf(claim)])
            || (!ok && a.world == old(a.world))
  {
    ok := a.WriteSpecFile(claim);
    a.call := a.call + [Entry(WroteCDI(claim, ok), old(a.world), a.world)];
  }

  /** The CDI files written since `call`: that of `claim` if it is complete, and no other. */
  ghost predicate SpecEffect(w: World, call: Call, x: World, later: Call, claim: PreparedClaim) {
    && call <= later && x.disk == w.disk
    && (forall i :: |call| <= i < |later| && later[i].step.WroteCDI? ==> later[i].step.claim == claim)
    && (Complete(claim) <==> Wrote(later, |call|, claim))
    && (forall u :: u != claim.uid ==> (u in x.cdi <==> u in w.cdi) && (u in w.cdi ==> x.cdi[u] == w.cdi[u]))
    && (Complete(claim) && !WriteFailed(later, |call|, claim) ==>
          claim.uid in x.cdi && x.cdi[claim.uid] == SpecOf(claim))
  }

  /** What rewriting the CDI file of `claim` does: a failed write quarantines its devices. */
  ghost predicate SpecTurn(s: State, w: World, call: Call, t: State, x: World, later: Call, claim: PreparedClaim) {
    && SpecEffect(w, call, x, later, claim) && t == s.(quarantined := t.quarantined)
    && (ReasonsGiven(s.quarantined) ==> ReasonsGiven(t.quarantined))
    && (forall n :: n in t.quarantined <==> n in s.quarantined || SpecFailed(later, |call|, n))
  }

  /** The write, and audit events of a quarantine after a failure. */
  lemma SpecWritten(s: State, w: World, call: Call, t: State, x: World, later: Call, claim: PreparedClaim)
    requires Complete(claim) && call <= later && |call| < |later| && x.disk == w.disk
    requires later[|call|].step.WroteCDI? && later[|call|].step.claim == claim
    requires forall i :: |call| < i < |later| ==> later[i].step.Audited?
    requires Held(s, t, if later[|call|].step.ok then {} else Names(claim))
    requires forall u :: u != claim.uid ==> (u in x.cdi <==> u in w.cdi) && (u in w.cdi ==> x.cdi[u] == w.cdi[u])
    requires later[|call|].step.ok ==> claim.uid in x.cdi && x.cdi[claim.uid] == SpecOf(claim)
    ensures SpecTurn(s, w, call, t, x, later, claim)
  {
    assert Wrote(later, |call|, claim);
    if !later[|call|].step.ok {
      assert later[|call|].step == WroteCDI(claim, false);
      forall n ensures SpecFailed(later, |call|, n) <==> n in Names(claim) {
        assert SpecFailedAt(later[|call|].step, n) <==> n in Names(claim);
      }
    }
  }

  /** Rewrites the CDI file of a record whose devices all have a path. */
  method RepairSpec(a: Agent, claim: PreparedClaim) returns (ok: bool)
    modifies a`state, a`world, a`call
    ensures SpecTurn(old(a.state), old(a.world), old(a.call), a.state, a.world, a.call, claim)
    ensures !ok ==> Rough(a.config, a.call, |old(a.call)|)
  {
    ok := true;
    var complete := |claim.devices| > 0;
    for i := 0 to |claim.devices|
      invariant complete <==>
                  |claim.devices| > 0 && forall k :: 0 <= k < i ==> claim.devices[k].path != ""
    {
      complete := complete && claim.devices[i].path != "";
    }
    if complete {
      var written := LogSpec(a, claim);
      ghost var logged := a.call;
      if !written {
        ok := QuarantineAll(a, claim);
        if !ok {
          RoughStays(a.config, a.call, a.call, |logged|, |old(a.call)|);
        }
      }
      SpecWritten(old(a.state), old(a.world), old(a.call), a.state, a.world, a.call, claim);
    }
  }

  method QuarantineAll(a: Agent, claim: PreparedClaim) returns (ok: bool)
    modifies a`state, a`call
    ensures Held(old(a.state), a.state, Names(claim)) && Noted(old(a.call), a.call)
    ensures !ok ==> Rough(a.config, a.call, |old(a.call)|)
  {
    ok := true;
    for i := 0 to |claim.devices|
      invariant Held(old(a.state), a.state, DeviceNames(claim.devices[..i])) && Noted(old(a.call), a.call)
      invariant !ok ==> Rough(a.config, a.call, |old(a.call)|)
    {
      var step := a.Quarantine(claim.devices[i].device, claim.devices[i].path, "CDI repair failed", claim.uid,
                               StartupRecovery);
      ok := ok && step;
      assert claim.devices[..i + 1] == claim.devices[..i] + [claim.devices[i]];
    }
    assert claim.devices[..|claim.devices|] == claim.devices;
  }

  // ---- The whole reconciliation ----

  /** What startup does for one record, from state `s` to `t`. */
  ghost predicate RecordTurn(c: Config, s: State, w: World, call: Call, t: State, x: World, later: Call, uid: string,
                             live: Claims, configured: bool, byName: map<string, InventoryDevice>)
    requires uid in s.claims
  {
    && uid in t.claims && t == s.(claims := s.claims[uid := t.claims[uid]], quarantined := t.quarantined)
    && Aligned(c, s.claims[uid], t.claims[uid], configured, live, uid, byName)
    && (ReasonsGiven(s.quarantined) ==> ReasonsGiven(t.quarantined))
    && (forall n :: n in t.quarantined <==>
          || n in s.quarantined || n in CaughtIn(c, s.claims[uid], configured, live, uid, byName)
          || SpecFailed(later, |call|, n))
    && SpecEffect(w, call, x, later, t.claims[uid])
  }

  /** Audit events before it do not change what rewriting a CDI file does. */
  lemma SpecEffectSince(w: World, call: Call, noted: Call, x: World, later: Call, claim: PreparedClaim)
    requires Noted(call, noted) && SpecEffect(w, noted, x, later, claim)
    ensures SpecEffect(w, call, x, later, claim)
    ensures forall n :: SpecFailed(later, |call|, n) <==> SpecFailed(later, |noted|, n)
  {
    assert forall i :: |call| <= i < |noted| ==> later[i] == noted[i];
    if Wrote(later, |call|, claim) {
      var i :| |call| <= i < |later| && later[i].step.WroteCDI? && later[i].step.claim == claim;
    }
    if WriteFailed(later, |noted|, claim) {
      var i :| |noted| <= i < |later| && later[i].step == WroteCDI(claim, false);
    }
    forall n | SpecFailed(later, |call|, n) ensures SpecFailed(later, |noted|, n) {
      var i :| |call| <= i < |later| && SpecFailedAt(later[i].step, n);
    }
  }

  /** One record of the reconciliation loop. */
  method ReconcileRecord(a: Agent, uid: string, live: Claims, configured: bool, byName: map<string, InventoryDevice>)
    returns (ok: bool)
    requires uid in a.state.claims
    modifies a`state, a`world, a`call
    ensures RecordTurn(a.config, old(a.state), old(a.world), old(a.call), a.state, a.world, a.call, uid, live,
                       configured, byName)
    ensures !ok ==> Rough(a.config, a.call, |old(a.call)|)
  {
    var claim;
    claim, ok := AlignRecord(a, uid, a.state.claims[uid], live, configured, byName);
    ghost var noted := a.call;
    a.state := a.state.(claims := a.state.claims[uid := claim]);
    var repaired := RepairSpec(a, claim);
    if !ok {
      RoughStays(a.config, noted, a.call, |old(a.call)|, |old(a.call)|);
    } else if !repaired {
      RoughStays(a.config, a.call, a.call, |noted|, |old(a.call)|);
    }
    ok := ok && repaired;
    SpecEffectSince(old(a.world), old(a.call), noted, a.world, a.call, claim);
  }

  // ---- The whole reconciliation ----

  /** The record startup begins with: the recorded one, else the live allocation. */
  ghost function BaseRecord(claims: Claims, live: Claims, uid: string): PreparedClaim
    requires uid in claims || uid in live
  {
    if uid in claims then claims[uid] else live[uid]
  }

  /** Every record is aligned. */
  ghost predicate AllAligned(c: Config, before: Claims, live: Claims, now: Claims, configured: bool,
                             byName: map<string, InventoryDevice>)
  {
    now.Keys == before.Keys + live.Keys && forall uid :: AlignedAt(c, before, live, now, configured, byName, uid)
  }

  ghost predicate AlignedAt(c: Config, before: Claims, live: Claims, now: Claims, configured: bool,
                            byName: map<string, InventoryDevice>, uid: string)
    requires now.Keys == before.Keys + live.Keys
  {
    uid in now ==> Aligned(c, BaseRecord(before, live, uid), now[uid], configured, live, uid, byName)
  }

  /** Each device is in quarantine exactly for a reason, and the CDI files written are those of records. */
  ghost predicate ExactlyHeld(c: Config, before: Claims, live: Claims, now: Claims, configured: bool,
                              byName: map<string, InventoryDevice>, q0: set<string>, q: set<string>, log: Call,
                              from: nat)
  {
    && (forall n :: HeldExactly(c, before, live, configured, byName, q0, q, log, from, n))
    && (forall i :: WriteOfRecord(now, log, from, i))
  }

  /**
   * A device is in quarantine if and only if it was before, some record had it caught, or the CDI file of some record
   * that lists it could not be written.
   */
  ghost predicate HeldExactly(c: Config, before: Claims, live: Claims, configured: bool,
                              byName: map<string, InventoryDevice>, q0: set<string>, q: set<string>, log: Call,
                              from: nat, n: string)
  {
    n in q <==>
    || n in q0 || SpecFailed(log, from, n)
    || exists uid :: (uid in before || uid in live)
                     && n in CaughtIn(c, BaseRecord(before, live, uid), configured, live, uid, byName)
  }

  ghost predicate WriteOfRecord(now: Claims, log: Call, from: nat, i: int) {
    from <= i < |log| && log[i].step.WroteCDI? ==> exists uid :: uid in now && log[i].step.claim == now[uid]
  }

  /** Every complete record has its CDI file, unless the write failed. */
  ghost predicate SpecsRepaired(now: Claims, w: World, log: Call, from: nat) {
    forall uid :: SpecRepaired(now, w, log, from, uid)
  }

  ghost predicate SpecRepaired(now: Claims, w: World, log: Call, from: nat, uid: string) {
    uid in now && Complete(now[uid]) ==>
      WriteFailed(log, from, now[uid]) || (uid in w.cdi && w.cdi[uid] == SpecOf(now[uid]))
  }

  /** What the loop over the records has done since state `s0`, with those in `done` behind it. */
  ghost predicate StartProgress(c: Config, s0: State, w0: World, from: nat, s: State, w: World, call: Call,
                                done: set<string>, live: Claims, configured: bool,
                                byName: map<string, InventoryDevice>)
  {
    && from <= |call| && done <= s0.claims.Keys && s.claims.Keys == s0.claims.Keys && w.disk == w0.disk
    && s == s0.(claims := s.claims, quarantined := s.quarantined)
    && (ReasonsGiven(s0.quarantined) ==> ReasonsGiven(s.quarantined))
    && (forall uid :: RecordDone(c, s0.claims, s.claims, done, live, configured, byName, uid))
    && (forall n :: HeldFor(c, s0, s.quarantined.Keys, call, from, done, live, configured, byName, n))
    && (forall i :: WriteDone(s.claims, call, from, done, i))
    && (KeysOk(s0.claims) ==> forall uid :: SpecDone(s.claims, w, call, from, done, uid))
  }

  ghost predicate RecordDone(c: Config, base: Claims, now: Claims, done: set<string>, live: Claims, configured: bool,
                             byName: map<string, InventoryDevice>, uid: string)
    requires base.Keys == now.Keys
  {
    uid in base ==>
      if uid in done then Aligned(c, base[uid], now[uid], configured, live, uid, byName) else now[uid] == base[uid]
  }

  ghost predicate HeldFor(c: Config, s0: State, q: set<string>, call: Call, from: nat, done: set<string>, live: Claims,
                          configured: bool, byName: map<string, InventoryDevice>, n: string)
    requires done <= s0.claims.Keys
  {
    n in q <==>
    || n in s0.quarantined || SpecFailed(call, from, n)
    || exists uid :: uid in done && n in CaughtIn(c, s0.claims[uid], configured, live, uid, byName)
  }

  ghost predicate WriteDone(now: Claims, call: Call, from: nat, done: set<string>, i: int) {
    from <= i < |call| && call[i].step.WroteCDI? ==>
      exists uid :: uid in done && uid in now && call[i].step.claim == now[uid]
  }

  ghost predicate SpecDone(now: Claims, w: World, call: Call, from: nat, done: set<string>, uid: string) {
    uid in done && uid in now && Complete(now[uid]) ==>
      WriteFailed(call, from, now[uid]) || (uid in w.cdi && w.cdi[uid] == SpecOf(now[uid]))
  }

  lemma StartStep(c: Config, s0: State, w0: World, from: nat, s: State, w: World, call: Call, t: State, x: World,
                  later: Call, done: set<string>, uid: string, live: Claims, configured: bool,
                  byName: map<string, InventoryDevice>)
    requires StartProgress(c, s0, w0, from, s, w, call, done, live, configured, byName)
    requires uid in s0.claims && uid !in done
    requires RecordTurn(c, s, w, call, t, x, later, uid, live, configured, byName)
    ensures StartProgress(c, s0, w0, from, t, x, later, done + {uid}, live, configured, byName)
  {
    var more := done + {uid};
    AlignedStep(c, s0.claims, s.claims, t.claims, done, uid, live, configured, byName);
    HeldStep(c, s0, s, t, call, later, from, done, uid, live, configured, byName);
    forall i ensures WriteDone(t.claims, later, from, more, i) {
      assert WriteDone(s.claims, call, from, done, i);
      assert from <= i < |call| ==> later[i] == call[i];
    }
    if KeysOk(s0.claims) {
      SpecStep(s.claims, t.claims, w, x, call, later, from, done, uid);
    }
  }

  lemma AlignedStep(c: Config, base: Claims, now: Claims, next: Claims, done: set<string>, uid: string, live: Claims,
                    configured: bool, byName: map<string, InventoryDevice>)
    requires base.Keys == now.Keys && uid in base && uid !in done && uid in next && next == now[uid := next[uid]]
    requires forall u :: RecordDone(c, base, now, done, live, configured, byName, u)
    requires Aligned(c, now[uid], next[uid], configured, live, uid, byName)
    ensures now[uid] == base[uid] && (KeysOk(base) ==> next[uid].uid == uid)
    ensures forall u :: RecordDone(c, base, next, done + {uid}, live, configured, byName, u)
  {
    var more := done + {uid};
    assert RecordDone(c, base, now, done, live, configured, byName, uid);
    forall u ensures RecordDone(c, base, next, more, live, configured, byName, u) {
      assert RecordDone(c, base, now, done, live, configured, byName, u);
    }
  }

  lemma HeldStep(c: Config, s0: State, s: State, t: State, call: Call, later: Call, from: nat, done: set<string>,
                 uid: string, live: Claims, configured: bool, byName: map<string, InventoryDevice>)
    requires done <= s0.claims.Keys && uid in s0.claims && call <= later && from <= |call|
    requires forall n :: HeldFor(c, s0, s.quarantined.Keys, call, from, done, live, configured, byName, n)
    requires forall n :: n in t.quarantined <==>
               || n in s.quarantined || n in CaughtIn(c, s0.claims[uid], configured, live, uid, byName)
               || SpecFailed(later, |call|, n)
    ensures forall n :: HeldFor(c, s0, t.quarantined.Keys, later, from, done + {uid}, live, configured, byName, n)
  {
    var q, more := t.quarantined.Keys, done + {uid};
    forall n ensures HeldFor(c, s0, q, later, from, more, live, configured, byName, n) {
      assert HeldFor(c, s0, s.quarantined.Keys, call, from, done, live, configured, byName, n);
      SpecFailedSplit(call, later, from, n);
    }
  }

  lemma SpecStep(now: Claims, next: Claims, w: World, x: World, call: Call, later: Call, from: nat, done: set<string>,
                 uid: string)
    requires uid in next && uid !in done && next == now[uid := next[uid]] && next[uid].uid == uid && from <= |call|
    requires SpecEffect(w, call, x, later, next[uid]) && forall u :: SpecDone(now, w, call, from, done, u)
    ensures forall u :: SpecDone(next, x, later, from, done + {uid}, u)
  {
    var more := done + {uid};
    forall u ensures SpecDone(next, x, later, from, more, u) {
      assert SpecDone(now, w, call, from, done, u);
      if u == uid {
        FailedSince(later, |call|, from, next[uid]);
      } else if u in now {
        FailedEarlier(call, later, from, now[u]);
      }
    }
  }

  lemma FailedSince(call: Call, since: nat, from: nat, claim: PreparedClaim)
    requires from <= since
    ensures WriteFailed(call, since, claim) ==> WriteFailed(call, from, claim)
  {
  }

  lemma FailedEarlier(call: Call, later: Call, from: nat, claim: PreparedClaim)
    requires call <= later
    ensures WriteFailed(call, from, claim) ==> WriteFailed(later, from, claim)
  {
    if WriteFailed(call, from, claim) {
      var i :| from <= i < |call| && call[i].step == WroteCDI(claim, false);
      assert later[i] == call[i];
    }
  }

  lemma SpecFailedSplit(call: Call, later: Call, from: nat, n: string)
    requires call <= later && from <= |call|
    ensures SpecFailed(later, from, n) <==> SpecFailed(call, from, n) || SpecFailed(later, |call|, n)
  {
    if SpecFailed(call, from, n) {
      var i :| from <= i < |call| && SpecFailedAt(call[i].step, n);
      assert later[i] == call[i];
    }
    if SpecFailed(later, from, n) {
      var i :| from <= i < |later| && SpecFailedAt(later[i].step, n);
      assert i < |call| ==> later[i] == call[i];
    }
  }

  method AlignEach(a: Agent, live: Claims, configured: bool, byName: map<string, InventoryDevice>) returns (ok: bool)
    modifies a`state, a`world, a`call
    ensures StartProgress(a.config, old(a.state), old(a.world), |old(a.call)|, a.state, a.world, a.call,
                          old(a.state.claims.Keys), live, configured, byName)
    ensures old(a.call) <= a.call && (!ok ==> Rough(a.config, a.call, |old(a.call)|))
  {
    ok := true;
    ghost var done := {};
    var rest := a.state.claims.Keys;
    StartBegins(a.config, a.state, a.world, a.call, live, configured, byName);
    while rest != {}
      invariant done + rest == old(a.state.claims.Keys) && done !! rest
      invariant StartProgress(a.config, old(a.state), old(a.world), |old(a.call)|, a.state, a.world, a.call, done,
                              live, configured, byName)
      invariant old(a.call) <= a.call && (!ok ==> Rough(a.config, a.call, |old(a.call)|))
      decreases rest
    {
      var uid :| uid in rest;
      ghost var s, w, before := a.state, a.world, a.call;
      var step := ReconcileRecord(a, uid, live, configured, byName);
      StartStep(a.config, old(a.state), old(a.world), |old(a.call)|, s, w, before, a.state, a.world, a.call, done, uid,
                live, configured, byName);
      StillRough(a.config, old(a.call), before, a.call, ok, step);
      ok := ok && step;
      rest, done := rest - {uid}, done + {uid};
    }
    assert done == old(a.state.claims.Keys);
  }

  lemma StartBegins(c: Config, s: State, w: World, call: Call, live: Claims, configured: bool,
                    byName: map<string, InventoryDevice>)
    ensures StartProgress(c, s, w, |call|, s, w, call, {}, live, configured, byName)
  {
  }

  /** Adds the live allocations that are not on record, and brings every record in line. */
  method AlignRecords(a: Agent, live: Claims, configured: bool, byName: map<string, InventoryDevice>) returns (ok: bool)
    requires KeysOk(live)
    modifies a`state, a`world, a`call
    ensures old(KeysOk(a.state.claims)) ==> KeysOk(a.state.claims)
    ensures old(ReasonsGiven(a.state.quarantined)) ==> ReasonsGiven(a.state.quarantined)
    ensures a.state.version == old(a.state.version) && a.state.known == old(a.state.known)
    ensures AllAligned(a.config, old(a.state.claims), live, a.state.claims, configured, byName)
    ensures ExactlyHeld(a.config, old(a.state.claims), live, a.state.claims, configured, byName,
                        old(a.state.quarantined.Keys), a.state.quarantined.Keys, a.call, |old(a.call)|)
    ensures old(KeysOk(a.state.claims)) ==> SpecsRepaired(a.state.claims, a.world, a.call, |old(a.call)|)
    ensures a.world.disk == old(a.world.disk)
    ensures old(a.call) <= a.call && (!ok ==> Rough(a.config, a.call, |old(a.call)|))
  {
    a.state := a.state.(claims := live + a.state.claims);
    ghost var s := a.state;
    ok := AlignEach(a, live, configured, byName);
    StartDone(a.config, old(a.state), s, old(a.world), |old(a.call)|, a.state, a.world, a.call, live, configured,
              byName);
  }

  /** All records are behind the loop. */
  lemma StartDone(c: Config, before: State, s0: State, w0: World, from: nat, s: State, w: World, call: Call,
                  live: Claims, configured: bool, byName: map<string, InventoryDevice>)
    requires s0 == before.(claims := live + before.claims) && KeysOk(live)
    requires StartProgress(c, s0, w0, from, s, w, call, s0.claims.Keys, live, configured, byName)
    ensures AllAligned(c, before.claims, live, s.claims, configured, byName)
    ensures ExactlyHeld(c, before.claims, live, s.claims, configured, byName, before.quarantined.Keys,
                        s.quarantined.Keys, call, from)
    ensures KeysOk(before.claims) ==> KeysOk(s.claims) && SpecsRepaired(s.claims, w, call, from)
  {
    AlignedDone(c, before.claims, live, s0.claims, s.claims, configured, byName);
    HeldDone(c, before, s0, live, s.quarantined.Keys, call, from, configured, byName);
    forall i ensures WriteOfRecord(s.claims, call, from, i) {
      assert WriteDone(s.claims, call, from, s0.claims.Keys, i);
    }
    if KeysOk(before.claims) {
      forall uid ensures SpecRepaired(s.claims, w, call, from, uid) {
        assert SpecDone(s.claims, w, call, from, s0.claims.Keys, uid);
      }
    }
  }

  lemma AlignedDone(c: Config, before: Claims, live: Claims, base: Claims, now: Claims, configured: bool,
                    byName: map<string, InventoryDevice>)
    requires base == live + before && now.Keys == base.Keys
    requires forall uid :: RecordDone(c, base, now, base.Keys, live, configured, byName, uid)
    ensures AllAligned(c, before, live, now, configured, byName)
    ensures KeysOk(live) && KeysOk(before) ==> KeysOk(now)
  {
    forall uid ensures AlignedAt(c, before, live, now, configured, byName, uid) {
      assert RecordDone(c, base, now, base.Keys, live, configured, byName, uid);
    }
    forall uid | uid in now && KeysOk(live) && KeysOk(before) ensures uid != "" && now[uid].uid == uid {
      assert AlignedAt(c, before, live, now, configured, byName, uid);
    }
  }

  lemma HeldDone(c: Config, before: State, s0: State, live: Claims, q: set<string>, call: Call, from: nat,
                 configured: bool, byName: map<string, InventoryDevice>)
    requires s0 == before.(claims := live + before.claims)
    requires forall n :: HeldFor(c, s0, q, call, from, s0.claims.Keys, live, configured, byName, n)
    ensures forall n ::
              HeldExactly(c, before.claims, live, configured, byName, before.quarantined.Keys, q, call, from, n)
  {
    var q0 := before.quarantined.Keys;
    forall n ensures HeldExactly(c, before.claims, live, configured, byName, q0, q, call, from, n) {
      assert HeldFor(c, s0, q, call, from, s0.claims.Keys, live, configured, byName, n);
      forall uid | uid in s0.claims ensures s0.claims[uid] == BaseRecord(before.claims, live, uid) {
      }
    }
  }

  /** The claims that may have a CDI file, by the UID in their record. */
  function RecordedUIDs(claims: Claims): set<string> { set key | key in claims :: claims[key].uid }

  /** `removeOrphanCDI`. */
  method RemoveOrphanCDI(a: Agent) returns (ok: bool)
    modifies a`world, a`call
    ensures a.world.disk == old(a.world.disk) && a.world.cdi.Keys <= old(a.world.cdi.Keys)
    ensures forall uid :: uid in old(a.world.cdi) && uid in RecordedUIDs(a.state.claims) ==>
              uid in a.world.cdi && a.world.cdi[uid] == old(a.world.cdi)[uid]
    ensures ok ==> a.world.cdi.Keys <= RecordedUIDs(a.state.claims)
    ensures old(a.call) <= a.call && (!ok ==> Rough(a.config, a.call, |old(a.call)|))
    ensures forall i :: |old(a.call)| <= i < |a.call| ==> a.call[i].step.RemovedCDI?
  {
    var expected := RecordedUIDs(a.state.claims);
    var rest := a.world.cdi.Keys;
    while rest != {}
      invariant a.world.disk == old(a.world.disk) && a.world.cdi.Keys <= old(a.world.cdi.Keys)
      invariant forall uid :: uid in old(a.world.cdi) && uid in expected ==>
                  uid in a.world.cdi && a.world.cdi[uid] == old(a.world.cdi)[uid]
      invariant forall uid :: uid in a.world.cdi ==> uid in rest || uid in expected
      invariant old(a.call) <= a.call
      invariant forall i :: |old(a.call)| <= i < |a.call| ==> a.call[i].step.RemovedCDI?
      decreases rest
    {
      var uid :| uid in rest;
      rest := rest - {uid};
      if uid !in expected {
        ghost var before := a.call;
        ok := LogRemoval(a, uid);
        if !ok {
          assert Failed(a.config, a.call[|before|].step);
          return;
        }
      }
    }
    ok := true;
  }

  method LogRemoval(a: Agent, uid: string) returns (ok: bool)
    modifies a`world, a`call
    ensures a.call == old(a.call) + [Entry(RemovedCDI(uid, ok), old(a.world), a.world)]
    ensures a.world == old(a.world).(cdi := old(a.world.cdi) - {uid}) || (!ok && a.world == old(a.world))
  {
    ok := a.RemoveSpecFile(uid);
    a.call := a.call + [Entry(RemovedCDI(uid, ok), old(a.world), a.world)];
  }

  /** What a reconciliation at startup must have done, with the steps of `log` from `from` on. */
  ghost predicate Reconciled(c: Config, before: Claims, q0: set<string>, live: Claims, s: State, w: World,
                             last: Snapshot, configured: bool, log: Call, from: nat) {
    && AllAligned(c, before, live, s.claims, configured, ByName(last.devices))
    && ExactlyHeld(c, before, live, s.claims, configured, ByName(last.devices), q0, s.quarantined.Keys, log, from)
    && w.disk == Some(s) && w.cdi.Keys <= RecordedUIDs(s.claims)
    && (KeysOk(before) ==> SpecsRepaired(s.claims, w, log, from))
  }

  /**
   * `reconcileStartup`; `allocations` is None when no allocation source is configured. `log` holds the steps it took.
   */
  method ReconcileStartup(a: Agent, allocations: Option<seq<Option<ResourceClaim>>>)
    returns (ok: bool, ghost live: Claims, ghost log: Call)
    requires a.state.version == STATE_VERSION
    requires allocations.Some? ==> forall c :: c in allocations.value && c.Some? ==> c.value.uid != ""
    modifies a
    ensures ok ==>
              LiveMap(a.config, if allocations.Some? then allocations.value else [], ByName(a.lastSnapshot.devices),
                      live)
    ensures ok ==> Reconciled(a.config, old(a.state.claims), old(a.state.quarantined.Keys), live, a.state, a.world,
                              a.lastSnapshot, allocations.Some?, log, |old(a.call)|)
    ensures ok ==> a.state.known == old(a.state.known)
    ensures ok && old(KeysOk(a.state.claims) && ReasonsGiven(a.state.quarantined)) ==> a.Valid() && a.past == []
    ensures old(a.call) <= log && (!ok ==> Rough(a.config, log, |old(a.call)|))
  {
    live := map[];
    var snapshot := a.Look();
    log := a.call;
    if snapshot.None? {
      return false, live, log;
    }
    ghost var looked := a.call;
    var current := LocalAllocations(a.config, if allocations.Some? then allocations.value else [],
                                    ByName(snapshot.value.devices));
    live := current;
    ok, log := Realign(a, snapshot.value, current, allocations.Some?);
    if ok {
      SameReconciled(a.config, old(a.state.claims), old(a.state.quarantined.Keys), live, a.state, a.world,
                     a.lastSnapshot, allocations.Some?, log, |looked|, |old(a.call)|);
    } else {
      RoughStays(a.config, log, log, |looked|, |old(a.call)|);
    }
  }

  /** The part of `reconcileStartup` after the inventory and the allocations are known. */
  method Realign(a: Agent, snapshot: Snapshot, live: Claims, configured: bool) returns (ok: bool, ghost log: Call)
    requires a.state.version == STATE_VERSION && KeysOk(live)
    modifies a
    ensures ok ==> a.lastSnapshot == snapshot && a.state.known == old(a.state.known)
    ensures ok ==> Reconciled(a.config, old(a.state.claims), old(a.state.quarantined.Keys), live, a.state, a.world,
                              snapshot, configured, log, |old(a.call)|)
    ensures ok && old(KeysOk(a.state.claims) && ReasonsGiven(a.state.quarantined)) ==> a.Valid() && a.past == []
    ensures old(a.call) <= log && (!ok ==> Rough(a.config, log, |old(a.call)|))
  {
    ok := AlignRecords(a, live, configured, ByName(snapshot.devices));
    ghost var aligned, w := a.call, a.world;
    var cleaned := RemoveOrphanCDI(a);
    log := a.call;
    StillRough(a.config, old(a.call), aligned, log, ok, cleaned);
    if !cleaned {
      return false, log;
    }
    a.lastSnapshot := snapshot;
    ghost var cleanly := a.call;
    var persisted;
    persisted, log := SaveStartup(a);
    StillRough(a.config, old(a.call), cleanly, log, ok, persisted);
    ok := ok && persisted;
    SameLog(a.config, old(a.state.claims), old(a.state.quarantined.Keys), live, a.state, w, a.world, configured,
            ByName(snapshot.devices), aligned, |old(a.call)|, log, |old(a.call)|);
  }

  lemma SameReconciled(c: Config, before: Claims, q0: set<string>, live: Claims, s: State, w: World, last: Snapshot,
                       configured: bool, log: Call, from: nat, earlier: nat)
    requires earlier <= from <= |log| && forall i :: earlier <= i < from ==> !log[i].step.WroteCDI?
    requires Reconciled(c, before, q0, live, s, w, last, configured, log, from)
    ensures Reconciled(c, before, q0, live, s, w, last, configured, log, earlier)
  {
    SameHeld(c, before, live, s, configured, ByName(last.devices), q0, log, from, log, earlier);
    forall uid | KeysOk(before) ensures SpecRepaired(s.claims, w, log, earlier, uid) {
      assert SpecRepaired(s.claims, w, log, from, uid);
    }
  }

  /** The same CDI files were written in both stretches. */
  ghost predicate SameWrites(call: Call, from: nat, log: Call, earlier: nat) {
    && earlier <= from <= |call| && call <= log
    && (forall i :: earlier <= i < from ==> !log[i].step.WroteCDI?)
    && (forall i :: |call| <= i < |log| ==> !log[i].step.WroteCDI?)
  }

  /** Looks, removals and the final write do not change what the loop over the records did. */
  lemma SameHeld(c: Config, before: Claims, live: Claims, s: State, configured: bool,
                 byName: map<string, InventoryDevice>, q0: set<string>, call: Call, from: nat, log: Call, earlier: nat)
    requires SameWrites(call, from, log, earlier) && s.claims.Keys == before.Keys + live.Keys
    requires ExactlyHeld(c, before, live, s.claims, configured, byName, q0, s.quarantined.Keys, call, from)
    ensures ExactlyHeld(c, before, live, s.claims, configured, byName, q0, s.quarantined.Keys, log, earlier)
    ensures forall claim :: WriteFailed(call, from, claim) ==> WriteFailed(log, earlier, claim)
  {
    assert forall i :: 0 <= i < |call| ==> log[i] == call[i];
    forall n ensures SpecFailed(log, earlier, n) <==> SpecFailed(call, from, n) {
      if SpecFailed(call, from, n) {
        var i :| from <= i < |call| && SpecFailedAt(call[i].step, n);
        assert SpecFailedAt(log[i].step, n);
      }
      if SpecFailed(log, earlier, n) {
        var i :| earlier <= i < |log| && SpecFailedAt(log[i].step, n);
        assert SpecFailedAt(call[i].step, n);
      }
    }
    var q := s.quarantined.Keys;
    forall n ensures HeldExactly(c, before, live, configured, byName, q0, q, log, earlier, n) {
      assert HeldExactly(c, before, live, configured, byName, q0, q, call, from, n);
    }
    forall i ensures WriteOfRecord(s.claims, log, earlier, i) { assert WriteOfRecord(s.claims, call, from, i); }
    forall claim | WriteFailed(call, from, claim) ensures WriteFailed(log, earlier, claim) {
      var i :| from <= i < |call| && call[i].step == WroteCDI(claim, false);
      assert log[i].step == WroteCDI(claim, false);
    }
  }

  /** Nor do they lose a CDI file of a recorded claim. */
  lemma SameLog(c: Config, before: Claims, q0: set<string>, live: Claims, s: State, w: World, x: World,
                configured: bool, byName: map<string, InventoryDevice>, call: Call, from: nat, log: Call, earlier: nat)
    requires SameWrites(call, from, log, earlier) && s.claims.Keys == before.Keys + live.Keys
    requires ExactlyHeld(c, before, live, s.claims, configured, byName, q0, s.quarantined.Keys, call, from)
    requires forall uid :: uid in w.cdi && uid in RecordedUIDs(s.claims) ==> uid in x.cdi && x.cdi[uid] == w.cdi[uid]
    ensures ExactlyHeld(c, before, live, s.claims, configured, byName, q0, s.quarantined.Keys, log, earlier)
    ensures KeysOk(s.claims) && SpecsRepaired(s.claims, w, call, from) ==> SpecsRepaired(s.claims, x, log, earlier)
  {
    SameHeld(c, before, live, s, configured, byName, q0, call, from, log, earlier);
    if KeysOk(s.claims) && SpecsRepaired(s.claims, w, call, from) {
      assert RecordedUIDs(s.claims) == s.claims.Keys;
      forall uid ensures SpecRepaired(s.claims, x, log, earlier, uid) {
        assert SpecRepaired(s.claims, w, call, from, uid);
      }
    }
  }

  /** The write that ends startup. */
  method SaveStartup(a: Agent) returns (ok: bool, ghost log: Call)
    requires a.state.version == STATE_VERSION && a.world.cdi.Keys <= RecordedUIDs(a.state.claims)
    modifies a`world, a`call, a`past
    ensures a.world.cdi == old(a.world.cdi) && (ok ==> a.world.disk == Some(a.state))
    ensures ok && KeysOk(a.state.claims) && ReasonsGiven(a.state.quarantined) ==> a.Valid() && a.past == []
    ensures log == old(a.call) + [Entry(Persisted(ok), old(a.world), a.world)]
    ensures !ok ==> Rough(a.config, log, |old(a.call)|)
  {
    ok := a.WriteStateFile();
    log := a.call + [Entry(Persisted(ok), old(a.world), a.world)];
    assert !ok ==> Failed(a.config, log[|a.call|].step);
    a.call, a.past := [Entry(Started, a.world, a.world)], [];
    if ok && KeysOk(a.state.claims) && ReasonsGiven(a.state.quarantined) {
      assert RecordedUIDs(a.state.claims) <= a.state.claims.Keys;
      SettledWhenSaved(a.state, a.world);
      LawfulOpening(Started, a.world);
    }
  }

  /** `recoverCorruptState`: the unreadable file is set aside and all visible hardware quarantined. */
  method RecoverCorruptState(a: Agent, inventory: Option<Snapshot>) returns (ok: bool)
    modifies a`state, a`world, a`call
    ensures a.world.cdi == old(a.world.cdi)
    ensures a.state.claims == map[] || a.state == old(a.state)
    ensures ok ==> a.state.claims == map[] && a.state.version == STATE_VERSION && ReasonsGiven(a.state.quarantined)
    ensures ok ==> a.world.disk == Some(a.state) && inventory.Some?
    ensures ok ==>
              && a.state.known.Keys == NamesOf(inventory.value.devices)
              && a.state.quarantined.Keys == NamesOf(inventory.value.devices)
    ensures ok ==> Remembered(a.state.known, inventory.value)
    ensures SpecsUntouched(old(a.call), a.call) && (!ok ==> Rough(a.config, a.call, |old(a.call)|))
  {
    var renamed := SetFileAside(a);
    if !renamed {
      return false;
    }
    a.state := State(STATE_VERSION, map[], map[], map[]);
    if inventory.None? {
      a.call := a.call + [Entry(Looked(None, 0), a.world, a.world)];
      assert Failed(a.config, a.call[|old(a.call)| + 1].step);
      return false;
    }
    ghost var renamedCall := a.call;
    var devices, at := inventory.value.devices, inventory.value.observedAt;
    for i := 0 to |devices|
      invariant a.world.cdi == old(a.world.cdi) && a.state.claims == map[] && a.state.version == STATE_VERSION
      invariant ReasonsGiven(a.state.quarantined)
      invariant a.state.known.Keys == NamesOf(devices[..i]) && a.state.quarantined.Keys == NamesOf(devices[..i])
      invariant Remembered(a.state.known, Snapshot(devices[..i], at))
      invariant a.call == renamedCall
    {
      var item := devices[i];
      var since := a.Clock();
      a.state := a.state.(known := a.state.known[item.name := KnownDevice(item.path, at)],
                          quarantined := a.state.quarantined[item.name :=
                            QuarantineRecord("lifecycle state was corrupt", since, false)]);
      assert devices[..i + 1] == devices[..i] + [item];
    }
    assert devices[..|devices|] == devices;
    ok := a.Audit(AuditEvent(StateRecovery, "quarantined", "", "", "", ""));
    ghost var w, audited := a.world, a.call;
    var persisted := a.WriteStateFile();
    a.call := a.call + [Entry(Persisted(persisted), w, a.world)];
    assert a.call[|audited| - 1].step == audited[|audited| - 1].step && a.call[|audited|].step == Persisted(persisted);
    assert !ok ==> Failed(a.config, a.call[|audited| - 1].step);
    assert !persisted ==> Failed(a.config, a.call[|audited|].step);
    ok := ok && persisted;
  }

  ghost predicate SpecsUntouched(call: Call, later: Call) {
    call <= later && forall i :: |call| <= i < |later| ==> !later[i].step.WroteCDI?
  }

  /** Renaming moves the file or leaves it. */
  method SetFileAside(a: Agent) returns (ok: bool)
    modifies a`world, a`call
    ensures a.call == old(a.call) + [Entry(SetAside(ok), old(a.world), a.world)]
    ensures a.world == if ok then old(a.world).(disk := None) else old(a.world)
    ensures !ok ==> Rough(a.config, a.call, |old(a.call)|)
  {
    ok := *;
    if ok {
      a.world := a.world.(disk := None);
    }
    a.call := a.call + [Entry(SetAside(ok), old(a.world), a.world)];
    assert !ok ==> Failed(a.config, a.call[|old(a.call)|].step);
  }

  /** Every device of the observation is known at a path it was seen at. */
  ghost predicate Remembered(known: map<string, KnownDevice>, s: Snapshot) {
    forall n :: n in known ==>
      exists d :: d in s.devices && d.name == n && known[n] == KnownDevice(d.path, s.observedAt)
  }

  /** What a fresh process holds after loading: before version 4 every recorded claim was a prepared one. */
  ghost function LoadedClaims(w: World): Claims {
    if w.disk.None? || !Readable(w) then map[]
    else if w.disk.value.version == 4 then w.disk.value.claims
    else map uid | uid in w.disk.value.claims :: w.disk.value.claims[uid].(phase := Prepared)
  }

  /** The quarantine it begins with: the one on file, or everything visible if the file cannot be read. */
  ghost function FoundQuarantine(w: World, inventory: Option<Snapshot>): set<string> {
    if Readable(w) then DiskQuarantine(w).Keys else if inventory.Some? then NamesOf(inventory.value.devices) else {}
  }

  /** Everything in quarantine on the file that was found is in quarantine again, in memory and on file. */
  ghost predicate QuarantineRestored(found: World, s: State, w: World) {
    DiskQuarantine(found).Keys <= s.quarantined.Keys && DiskQuarantine(found).Keys <= DiskQuarantine(w).Keys
  }

  /** The state file is unreadable, or one this agent could have written. */
  ghost predicate Trusted(w: World) { Readable(w) ==> WellFormed(w) }

  /**
   * `NewManager` from loading on; an undecodable file counts as one of an unsupported version. `inventory` is what
   * discovery reports when such a file is set aside.
   */
  method Start(a: Agent, allocations: Option<seq<Option<ResourceClaim>>>, inventory: Option<Snapshot>)
    returns (ok: bool, ghost live: Claims, ghost log: Call)
    requires a.state == State(STATE_VERSION, map[], map[], map[])
    requires allocations.Some? ==> forall c :: c in allocations.value && c.Some? ==> c.value.uid != ""
    modifies a
    ensures ok && (allocations.Some? || old(LoadedClaims(a.world)) != map[]) ==>
              && LiveMap(a.config, if allocations.Some? then allocations.value else [], ByName(a.lastSnapshot.devices),
                         live)
              && Reconciled(a.config, old(LoadedClaims(a.world)), old(FoundQuarantine(a.world, inventory)), live,
                            a.state, a.world, a.lastSnapshot, allocations.Some?, log, |old(a.call)|)
              && (old(Trusted(a.world)) ==> a.Valid() && a.past == [])
    ensures ok && allocations.None? && old(LoadedClaims(a.world)) == map[] ==>
              && a.state.claims == map[] && DiskClaims(a.world) == map[] && a.world.cdi == old(a.world.cdi)
              && a.state.quarantined.Keys == old(FoundQuarantine(a.world, inventory))
              && (old(Trusted(a.world)) && Safe(a.world) ==> a.Valid())
    ensures ok && !old(Readable(a.world)) ==>
              inventory.Some? && NamesOf(inventory.value.devices) <= a.state.quarantined.Keys
    ensures ok && old(Readable(a.world)) ==> QuarantineRestored(old(a.world), a.state, a.world)
    ensures ok && old(Readable(a.world)) && old(a.world.disk).Some? ==> a.state.known == old(a.world.disk).value.known
    ensures old(a.call) <= log && (!ok ==> Rough(a.config, log, |old(a.call)|))
  {
    live := map[];
    ok := Load(a, inventory);
    log := a.call;
    if !ok {
      return;
    }
    ghost var loaded := a.call;
    if allocations.None? && |a.state.claims| == 0 {
      a.call, a.past := [Entry(Started, a.world, a.world)], [];
      if WellFormed(a.world) && ReasonsGiven(a.state.quarantined) {
        EmptyStart(a.state, a.world);
      }
    } else {
      ghost var q := a.state.quarantined.Keys;
      ok, live, log := ReconcileStartup(a, allocations);
      if ok {
        LoadedFirst(a.config, old(LoadedClaims(a.world)), q, live, a.state, a.world, a.lastSnapshot,
                    allocations.Some?, loaded, log, old(a.call));
      } else {
        RoughStays(a.config, log, log, |loaded|, |old(a.call)|);
      }
    }
  }

  /** Loading writes no CDI file. */
  lemma LoadedFirst(c: Config, before: Claims, q0: set<string>, live: Claims, s: State, w: World, last: Snapshot,
                    configured: bool, loaded: Call, log: Call, opening: Call)
    requires SpecsUntouched(opening, loaded) && loaded <= log
    requires Reconciled(c, before, q0, live, s, w, last, configured, log, |loaded|)
    ensures Reconciled(c, before, q0, live, s, w, last, configured, log, |opening|)
    ensures q0 <= s.quarantined.Keys
  {
    assert forall i :: |opening| <= i < |loaded| ==> log[i] == loaded[i];
    SameReconciled(c, before, q0, live, s, w, last, configured, log, |loaded|, |opening|);
    forall n | n in q0 ensures n in s.quarantined {
      assert HeldExactly(c, before, live, configured, ByName(last.devices), q0, s.quarantined.Keys, log, |loaded|, n);
    }
  }

  /** `load` into an empty process, setting an unreadable file aside. */
  method Load(a: Agent, inventory: Option<Snapshot>) returns (ok: bool)
    requires a.state == State(STATE_VERSION, map[], map[], map[])
    modifies a`state, a`world, a`call
    ensures a.world.cdi == old(a.world.cdi)
    ensures ok ==> a.state.claims == old(LoadedClaims(a.world)) && a.state.version == STATE_VERSION && Readable(a.world)
    ensures ok && old(Readable(a.world)) && old(a.world.disk).Some? ==>
              forall uid :: uid in DiskClaims(a.world) ==>
                && uid in a.state.claims && a.state.claims[uid].devices == DiskClaims(a.world)[uid].devices
                && (if a.world.disk.value.version < 4 then a.state.claims[uid].phase == Prepared
                    else a.state.claims[uid] == DiskClaims(a.world)[uid])
    ensures ok ==> a.state.quarantined.Keys == old(FoundQuarantine(a.world, inventory))
    ensures SpecsUntouched(old(a.call), a.call) && (!ok ==> Rough(a.config, a.call, |old(a.call)|))
    ensures ok && old(Trusted(a.world)) ==>
              ReasonsGiven(a.state.quarantined) && KeysOk(a.state.claims) && WellFormed(a.world)
    ensures ok && a.state.claims == map[] ==> DiskClaims(a.world) == map[]
    ensures ok && !old(Readable(a.world)) ==>
              inventory.Some? && NamesOf(inventory.value.devices) <= a.state.quarantined.Keys
    ensures ok && old(Readable(a.world)) ==> a.world == old(a.world) && a.state.quarantined == DiskQuarantine(a.world)
    ensures ok && old(Readable(a.world)) && a.world.disk.Some? ==> a.state.known == a.world.disk.value.known
  {
    ok := true;
    if a.world.disk.Some? {
      a.state := Migrate(Merge(a.state, a.world.disk.value));
      MergeIntoEmpty(a.world.disk.value);
      if a.state.version != STATE_VERSION {
        ok := RecoverCorruptState(a, inventory);
      }
    }
  }

  lemma MergeIntoEmpty(disk: State)
    ensures Merge(State(STATE_VERSION, map[], map[], map[]), disk) == disk
    ensures Migrate(disk).quarantined == disk.quarantined && Migrate(disk).known == disk.known
    ensures |Migrate(disk).claims| == 0 ==> disk.claims == map[]
    ensures Migrate(disk).claims.Keys == disk.claims.Keys
  {
    var e := State(STATE_VERSION, map[], map[], map[]);
    assert e.claims + disk.claims == disk.claims;
    assert e.quarantined + disk.quarantined == disk.quarantined;
    assert e.known + disk.known == disk.known;
    MigrateKeys(disk);
    if |Migrate(disk).claims| == 0 {
      assert Migrate(disk).claims.Keys == {};
    }
  }

  lemma MigrateKeys(disk: State)
    ensures Migrate(disk).claims.Keys == disk.claims.Keys
  {
  }

  /** With nothing on record and no orphaned CDI file there is nothing to reconcile. */
  lemma EmptyStart(s: State, w: World)
    requires |s.claims| == 0 && s.version == STATE_VERSION && ReasonsGiven(s.quarantined) && WellFormed(w)
    requires w.disk.Some? ==> |w.disk.value.claims| == 0
    ensures Safe(w) ==> Settled(s, w) && LawfulCall([Entry(Started, w, w)])
  {
    if Safe(w) {
      LawfulOpening(Started, w);
    }
  }
}
