/** Three views of a node's capacity: ResourceSlices, kubelet health and the safety summary. */
module Capacity {
  import opened Api
  import opened Connectivity
  import opened Inventory
  import opened Lifecycle
  import opened Screening
  import opened Manager

  // ---- resourceslice.go ----

  const MAX_DEVICES_PER_SLICE := 128

  predicate Publishable(d: InventoryDevice) { d.eligible && d.present && d.health == Healthy }

  function Published(devices: seq<InventoryDevice>): seq<InventoryDevice> {
    if devices == [] then []
    else
      var last := devices[|devices| - 1];
      Published(devices[..|devices| - 1]) + if Publishable(last) then [last] else []
  }

  function Flatten(slices: seq<seq<InventoryDevice>>): seq<InventoryDevice> {
    if slices == [] then [] else Flatten(slices[..|slices| - 1]) + slices[|slices| - 1]
  }

  /** `DriverResourcesAt`: the slices of one pool, in order and without loss. */
  method DriverResourcesAt(snapshot: Snapshot, maxAge: int, now: int) returns (slices: seq<seq<InventoryDevice>>)
    ensures Flatten(slices) == if FreshAt(snapshot, maxAge, now) then Published(snapshot.devices) else []
    ensures forall i :: 0 <= i < |slices| ==> |slices[i]| <= MAX_DEVICES_PER_SLICE
    ensures forall i :: 0 <= i < |slices| - 1 ==> |slices[i]| == MAX_DEVICES_PER_SLICE
    ensures |slices| >= 1 && (slices[|slices| - 1] == [] ==> |slices| == 1)
  {
    var devices := [];
    if && snapshot.observedAt.Some?
       && snapshot.observedAt.value <= now + FUTURE_TOLERANCE && now - snapshot.observedAt.value <= maxAge
    {
      for i := 0 to |snapshot.devices|
        invariant devices == Published(snapshot.devices[..i])
      {
        assert snapshot.devices[..i + 1][..i] == snapshot.devices[..i];
        var item := snapshot.devices[i];
        if item.eligible && item.present && item.health == Healthy {
          devices := devices + [item];
        }
      }
      assert snapshot.devices[..|snapshot.devices|] == snapshot.devices;
    }
    slices := Chunk(devices);
  }

  /** Slices of at most the allowed size, all but the last full; one empty slice for no devices. */
  method Chunk(all: seq<InventoryDevice>) returns (slices: seq<seq<InventoryDevice>>)
    ensures Flatten(slices) == all
    ensures forall i :: 0 <= i < |slices| ==> |slices[i]| <= MAX_DEVICES_PER_SLICE
    ensures forall i :: 0 <= i < |slices| - 1 ==> |slices[i]| == MAX_DEVICES_PER_SLICE
    ensures |slices| >= 1 && (slices[|slices| - 1] == [] ==> |slices| == 1)
  {
    var devices := all;
    slices := [];
    while |devices| > 0
      invariant Flatten(slices) + devices == all && Chunked(slices) && (devices != [] ==> AllFull(slices))
      decreases |devices|
    {
      var count := if |devices| < MAX_DEVICES_PER_SLICE then |devices| else MAX_DEVICES_PER_SLICE;
      var slice, rest := devices[..count], devices[count..];
      assert devices == slice + rest;
      FlattenAppend(slices, slice, rest);
      ChunkAppend(slices, slice);
      slices, devices := slices + [slice], rest;
    }
    if |slices| == 0 {
      slices := [[]];
    }
  }

  predicate AllFull(slices: seq<seq<InventoryDevice>>) {
    forall i :: 0 <= i < |slices| ==> |slices[i]| == MAX_DEVICES_PER_SLICE
  }

  /** Every slice but the last is full, and none is empty. */
  predicate Chunked(slices: seq<seq<InventoryDevice>>) {
    && (forall i :: 0 <= i < |slices| ==> 0 < |slices[i]| <= MAX_DEVICES_PER_SLICE)
    && (forall i :: 0 <= i < |slices| - 1 ==> |slices[i]| == MAX_DEVICES_PER_SLICE)
  }

  lemma ChunkAppend(slices: seq<seq<InventoryDevice>>, slice: seq<InventoryDevice>)
    requires AllFull(slices) && 0 < |slice| <= MAX_DEVICES_PER_SLICE
    ensures Chunked(slices + [slice]) && (|slice| == MAX_DEVICES_PER_SLICE ==> AllFull(slices + [slice]))
  {
  }

  lemma FlattenAppend(slices: seq<seq<InventoryDevice>>, slice: seq<InventoryDevice>, rest: seq<InventoryDevice>)
    ensures Flatten(slices + [slice]) + rest == Flatten(slices) + (slice + rest)
  {
    assert (slices + [slice])[..|slices|] == slices;
  }

  // ---- health.go ----

  datatype HealthStatus = HEALTHY | UNHEALTHY | UNKNOWN

  /** `deviceHealthSnapshotLocked`, one status per known device. */
  method DeviceHealth(a: Agent) returns (statuses: map<string, HealthStatus>, ghost now: int)
    ensures statuses.Keys == a.state.known.Keys
    ensures forall n :: n in statuses ==>
              (statuses[n] == HEALTHY <==> ReportedHealthy(a.config, a.state, a.lastSnapshot, now, n))
    ensures forall n :: n in statuses ==>
              (statuses[n] == UNKNOWN <==> ReportedUnknown(a.config, a.lastSnapshot, now, n))
  {
    var observed := ByName(a.lastSnapshot.devices);
    var recent;
    recent, now := a.Fresh(a.lastSnapshot);
    statuses := map[];
    var rest := a.state.known.Keys;
    while rest != {}
      invariant rest <= a.state.known.Keys && statuses.Keys == a.state.known.Keys - rest
      invariant forall n :: n in statuses ==>
                  (statuses[n] == HEALTHY <==> ReportedHealthy(a.config, a.state, a.lastSnapshot, now, n))
      invariant forall n :: n in statuses ==>
                  (statuses[n] == UNKNOWN <==> ReportedUnknown(a.config, a.lastSnapshot, now, n))
      decreases rest
    {
      var name :| name in rest;
      rest := rest - {name};
      var status := UNKNOWN;
      if name in observed && recent {
        var item := observed[name];
        SafeDeviceMeans(a.config, item);
        if item.health == Unknown {
          status := UNKNOWN;
        } else if UnsafeReason(a.config, item) != "" {
          status := UNHEALTHY;
        } else if name in a.state.quarantined && a.state.quarantined[name].reason != "" {
          status := UNHEALTHY;
        } else {
          status := HEALTHY;
        }
      }
      statuses := statuses[name := status];
    }
  }

  ghost predicate ReportedUnknown(c: Config, last: Snapshot, now: int, n: string) {
    !FreshAt(last, c.maxInventoryAge, now) || n !in ByName(last.devices) || ByName(last.devices)[n].health == Unknown
  }

  ghost predicate ReportedHealthy(c: Config, s: State, last: Snapshot, now: int, n: string) {
    && FreshAt(last, c.maxInventoryAge, now)
    && n in ByName(last.devices) && SafeDevice(c, ByName(last.devices)[n])
    && (n in s.quarantined ==> s.quarantined[n].reason == "")
  }

  // ---- The views agree ----

  /** The observed devices outside quarantine. */
  function Capable(snapshot: Snapshot, q: map<string, QuarantineRecord>): set<string> {
    set d | d in snapshot.devices && d.name !in q :: d.name
  }

  lemma {:induction false} PublishedMembers(devices: seq<InventoryDevice>)
    ensures forall d :: d in Published(devices) <==> d in devices && Publishable(d)
  {
    if devices != [] {
      PublishedMembers(devices[..|devices| - 1]);
      assert devices == devices[..|devices| - 1] + [devices[|devices| - 1]];
    }
  }

  function AvailableNames(devices: seq<InventoryDevice>, q: map<string, QuarantineRecord>): set<string> {
    set d | d in devices && Available(d, q) :: d.name
  }

  lemma AvailableStep(init: seq<InventoryDevice>, last: InventoryDevice, q: map<string, QuarantineRecord>)
    ensures AvailableNames(init + [last], q) == AvailableNames(init, q) + if Available(last, q) then {last.name} else {}
  {
  }

  lemma {:induction false} CountIsCardinality(devices: seq<InventoryDevice>, q: map<string, QuarantineRecord>)
    requires forall i, j :: 0 <= i < j < |devices| ==> devices[i].name != devices[j].name
    ensures CountAvailable(devices, q) == |AvailableNames(devices, q)|
  {
    if devices != [] {
      var init, last := devices[..|devices| - 1], devices[|devices| - 1];
      CountIsCardinality(init, q);
      assert devices == init + [last];
      AvailableStep(init, last, q);
      assert last.name !in AvailableNames(init, q);
    }
  }

  /** After a screening pass every view counts exactly the observed devices outside quarantine. */
  lemma ViewsAgree(c: Config, s: State, snapshot: Snapshot, now: int)
    requires DistinctNames(snapshot) && ReasonsGiven(s.quarantined) && FreshAt(snapshot, c.maxInventoryAge, now)
    requires forall d :: d in snapshot.devices && !SafeDevice(c, d) ==> d.name in s.quarantined
    ensures NamesOf(Published(Filter(snapshot, s.quarantined).devices)) == Capable(snapshot, s.quarantined)
    ensures forall n :: ReportedHealthy(c, s, snapshot, now, n) <==> n in Capable(snapshot, s.quarantined)
    ensures CountAvailable(Filter(snapshot, s.quarantined).devices, s.quarantined) == |Capable(snapshot, s.quarantined)|
  {
    var q, filtered := s.quarantined, Filter(snapshot, s.quarantined).devices;
    PublishedMembers(filtered);
    FilterKeepsCapable(c, snapshot, q);
    CountIsCardinality(filtered, q);
    assert AvailableNames(filtered, q) == Capable(snapshot, q);
    ByNameMembers(snapshot.devices);
    forall d | d in snapshot.devices ensures ByName(snapshot.devices)[d.name] == d { ByNameDistinct(snapshot, d); }
  }

  lemma FilterKeepsCapable(c: Config, snapshot: Snapshot, q: map<string, QuarantineRecord>)
    requires forall d :: d in snapshot.devices && !SafeDevice(c, d) ==> d.name in q
    ensures forall d :: d in snapshot.devices && d.name !in q ==>
              d in Filter(snapshot, q).devices && Publishable(d) && Available(d, q)
    ensures forall d :: d in Filter(snapshot, q).devices && d.eligible ==> d in snapshot.devices && d.name !in q
  {
    var filtered := Filter(snapshot, q).devices;
    forall d | d in snapshot.devices && d.name !in q ensures d in filtered {
      var i :| 0 <= i < |snapshot.devices| && snapshot.devices[i] == d;
      assert filtered[i] == d;
    }
    forall d | d in filtered && d.eligible ensures d in snapshot.devices && d.name !in q {
      var i :| 0 <= i < |filtered| && filtered[i] == d;
      assert filtered[i] == FilterDevice(snapshot.devices[i], q);
    }
  }

  /** A fresh `Monitor` publishes only unquarantined devices without an unsafe reason. */
  lemma OnlySafePublished(c: Config, snapshot: Snapshot, q: map<string, QuarantineRecord>, d: InventoryDevice)
    requires forall e :: e in snapshot.devices && !SafeDevice(c, e) ==> e.name in q
    requires d in Filter(snapshot, q).devices && d.eligible
    ensures d.name !in q && SafeDevice(c, d)
  {
  }

  /**
   * One pass of the node loop: monitor, report, publish, at times while the observation stays recent. `monitored` is
   * the state the monitoring pass left. The views agree unless a reload brings back a quarantine that could not be
   * overwritten on file.
   */
  method Publish(a: Agent, snapshot: Snapshot)
    returns (slices: seq<seq<InventoryDevice>>, statuses: map<string, HealthStatus>, safety: Safety, ok: bool,
             ghost monitored: State, ghost monitoring: Call, ghost now: int, ghost reported: int, ghost published: int)
    requires a.Valid()
    modifies a
    ensures a.Valid() && a.past == old(a.past) + [old(a.call), monitoring]
    ensures a.state == monitored || a.state == AfterReload(monitored, a.world)
    ensures a.world.disk == Some(monitored) ==> a.state == monitored
    ensures && WasReloaded(monitoring) && DistinctNames(snapshot)
            && FreshAt(snapshot, a.config.maxInventoryAge, now)
            && FreshAt(snapshot, a.config.maxInventoryAge, reported)
            && FreshAt(snapshot, a.config.maxInventoryAge, published)
            ==> && ViewsShow(snapshot, monitored.quarantined, a.state.quarantined, slices, statuses, safety)
                && (AgreeOn(Capable(snapshot, monitored.quarantined), slices, statuses, safety) <==>
                    NoneReadBack(snapshot, monitored.quarantined, ReadBack(a.call, a.world)))
                && (ok ==> a.state == monitored)
  {
    var filtered;
    filtered, safety, ok, monitored, monitoring, now := MonitorThenReload(a, snapshot);
    statuses, reported := DeviceHealth(a);
    var clock := a.Clock();
    published := clock;
    slices := DriverResourcesAt(filtered, a.config.maxInventoryAge, clock);
    if && WasReloaded(monitoring) && DistinctNames(snapshot) && FreshAt(snapshot, a.config.maxInventoryAge, now)
       && FreshAt(snapshot, a.config.maxInventoryAge, reported)
       && FreshAt(snapshot, a.config.maxInventoryAge, published)
    {
      BothShow(a.config, monitored, a.state, snapshot, reported, slices, statuses, safety);
      AgreeIff(snapshot, monitored.quarantined, a.state.quarantined, ReadBack(a.call, a.world), slices, statuses,
               safety);
    }
  }

  /** The names the reload that opened this call read from the quarantine on file. */
  ghost function ReadBack(call: Call, w: World): set<string> {
    if WasReloaded(call) then DiskQuarantine(w).Keys else {}
  }

  /** No observed device outside the quarantine of the pass was read back from file. */
  ghost predicate NoneReadBack(snapshot: Snapshot, q: Quarantine, read: set<string>) {
    forall d :: d in snapshot.devices && d.name !in q ==> d.name !in read
  }

  /**
   * Views made from two quarantines agree if and only if the later one holds no observed device that the earlier one
   * did not.
   */
  lemma AgreeIff(snapshot: Snapshot, q: Quarantine, r: Quarantine, read: set<string>, slices: seq<seq<InventoryDevice>>,
                 statuses: map<string, HealthStatus>, safety: Safety)
    requires ViewsShow(snapshot, q, r, slices, statuses, safety) && r.Keys == q.Keys + read
    ensures AgreeOn(Capable(snapshot, q), slices, statuses, safety) <==> NoneReadBack(snapshot, q, read)
  {
    if NoneReadBack(snapshot, q, read) {
      assert Capable(snapshot, r) == Capable(snapshot, q);
    } else {
      var d :| d in snapshot.devices && d.name !in q && d.name in read;
      assert d.name in Capable(snapshot, q) && d.name !in Capable(snapshot, r);
    }
  }

  /** A monitoring pass, and the reload that opens the next call. */
  method MonitorThenReload(a: Agent, snapshot: Snapshot)
    returns (filtered: Snapshot, safety: Safety, ok: bool, ghost monitored: State, ghost monitoring: Call,
             ghost now: int)
    requires a.Valid()
    modifies a
    ensures a.Valid() && a.past == old(a.past) + [old(a.call), monitoring]
    ensures a.state == monitored || a.state == AfterReload(monitored, a.world)
    ensures a.world.disk == Some(monitored) ==> a.state == monitored
    ensures ReasonsGiven(monitored.quarantined)
    ensures a.state.quarantined.Keys == monitored.quarantined.Keys + ReadBack(a.call, a.world)
    ensures WasReloaded(monitoring) && FreshAt(snapshot, a.config.maxInventoryAge, now) ==>
              && Monitored(a.config, snapshot, monitored, a.lastSnapshot, filtered, safety)
              && (ok ==> a.state == monitored)
              && NamesOf(snapshot.devices) <= a.state.known.Keys
  {
    filtered, safety, ok, now := MonitorOnce(a, snapshot);
    monitored, monitoring := a.state, a.call;
    ReloadState(a);
  }

  /** What a monitoring pass leaves for the views. */
  ghost predicate Monitored(c: Config, snapshot: Snapshot, s: State, last: Snapshot, filtered: Snapshot,
                            safety: Safety) {
    && last == snapshot && FreshView(snapshot, s, filtered, safety) && NamesOf(snapshot.devices) <= s.known.Keys
    && (DistinctNames(snapshot) ==> Screened(c, snapshot, s.quarantined.Keys))
  }

  method MonitorOnce(a: Agent, snapshot: Snapshot)
    returns (filtered: Snapshot, safety: Safety, ok: bool, ghost now: int)
    requires a.Valid()
    modifies a
    ensures a.Valid() && a.past == old(a.past) + [old(a.call)]
    ensures WasReloaded(a.call) && FreshAt(snapshot, a.config.maxInventoryAge, now) ==>
              && Monitored(a.config, snapshot, a.state, a.lastSnapshot, filtered, safety)
              && (ok ==> a.world.disk == Some(a.state))
  {
    ghost var later;
    filtered, safety, ok, now, later := a.Monitor(snapshot);
  }

  /** A reload keeps every known device and every quarantine, and changes nothing that was just saved. */
  method ReloadState(a: Agent)
    requires a.Valid()
    modifies a
    ensures a.Valid() && a.past == old(a.past) + [old(a.call)] && a.world == old(a.world)
    ensures a.lastSnapshot == old(a.lastSnapshot)
    ensures a.state == old(a.state) || a.state == AfterReload(old(a.state), a.world)
    ensures a.world.disk == Some(old(a.state)) ==> a.state == old(a.state)
    ensures a.state.quarantined.Keys == old(a.state.quarantined.Keys) + ReadBack(a.call, a.world)
    ensures old(a.state.known.Keys) <= a.state.known.Keys
  {
    ReloadOfSaved(a.state);
    var reloaded := a.Reload();
  }

  /** Each view shows the quarantine it was made from: slices and safety that of `s`, health that of `t`. */
  lemma BothShow(c: Config, s: State, t: State, snapshot: Snapshot, now: int, slices: seq<seq<InventoryDevice>>,
                 statuses: map<string, HealthStatus>, safety: Safety)
    requires DistinctNames(snapshot) && FreshAt(snapshot, c.maxInventoryAge, now)
    requires Screened(c, snapshot, s.quarantined.Keys)
    requires ReasonsGiven(s.quarantined) && ReasonsGiven(t.quarantined) && s.quarantined.Keys <= t.quarantined.Keys
    requires FreshView(snapshot, s, Filter(snapshot, s.quarantined), safety)
    requires Flatten(slices) == Published(Filter(snapshot, s.quarantined).devices)
    requires NamesOf(snapshot.devices) <= statuses.Keys
    requires forall n :: n in statuses ==> (statuses[n] == HEALTHY <==> ReportedHealthy(c, t, snapshot, now, n))
    ensures ViewsShow(snapshot, s.quarantined, t.quarantined, slices, statuses, safety)
  {
    ViewsAgree(c, s, snapshot, now);
    ViewsAgree(c, t, snapshot, now);
    assert Capable(snapshot, t.quarantined) <= NamesOf(snapshot.devices);
  }

  /** Slices and safety show the quarantine `q`, health reports the quarantine `r`. */
  ghost predicate ViewsShow(snapshot: Snapshot, q: map<string, QuarantineRecord>, r: map<string, QuarantineRecord>,
                            slices: seq<seq<InventoryDevice>>, statuses: map<string, HealthStatus>, safety: Safety) {
    && NamesOf(Flatten(slices)) == Capable(snapshot, q)
    && (forall n :: n in statuses && statuses[n] == HEALTHY <==> n in Capable(snapshot, r))
    && safety.healthy == |Capable(snapshot, q)| && (safety.isUnsafe <==> Capable(snapshot, q) == {})
  }

  ghost predicate AgreeOn(capable: set<string>, slices: seq<seq<InventoryDevice>>, statuses: map<string, HealthStatus>,
                          safety: Safety) {
    && NamesOf(Flatten(slices)) == capable
    && (forall n :: n in statuses && statuses[n] == HEALTHY <==> n in capable)
    && safety.healthy == |capable| && (safety.isUnsafe <==> capable == {})
  }

  /** Reloading what was just saved changes nothing. */
  lemma ReloadOfSaved(s: State)
    ensures s.version == STATE_VERSION ==> Migrate(Merge(s, s)) == s
  {
  }
}
