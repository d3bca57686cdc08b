/** What a failed call may be blamed on: a step that failed, or what discovery reported. */
module Causes {
  import opened Api
  import opened Inventory
  import opened Lifecycle
  import opened Batches
  import opened Screening

  /** The step failed, or found no inventory that is recent enough. */
  ghost predicate Failed(c: Config, step: Step) {
    match step
    case Reloaded(ok, quarantined, known) => !ok
    case Looked(seen, now) => seen.None? || !FreshAt(seen.value, c.maxInventoryAge, now)
    case Persisted(ok) => !ok
    case WroteCDI(claim, ok) => !ok
    case RemovedCDI(uid, ok) => !ok
    case Audited(event, ok) => !ok
    case Reset(device, path, ok) => !ok
    case SetAside(ok) => !ok
    case _ => false
  }

  /** Some step from `from` on failed. */
  ghost predicate Rough(c: Config, call: Call, from: nat) {
    exists i :: from <= i < |call| && Failed(c, call[i].step)
  }

  lemma RoughStays(c: Config, call: Call, later: Call, from: nat, earlier: nat)
    requires Rough(c, call, from) && call <= later && earlier <= from
    ensures Rough(c, later, earlier)
  {
    var i :| from <= i < |call| && Failed(c, call[i].step);
    assert later[i] == call[i];
  }

  lemma StillRough(c: Config, opening: Call, call: Call, later: Call, ok: bool, step: bool)
    requires opening <= call <= later && (!ok ==> Rough(c, call, |opening|)) && (!step ==> Rough(c, later, |call|))
    ensures !(ok && step) ==> Rough(c, later, |opening|)
  {
    if !ok {
      RoughStays(c, call, later, |opening|, |opening|);
    } else if !step {
      RoughStays(c, later, later, |call|, |opening|);
    }
  }

  // ---- Devices that did not come back ----

  /** Another name is known, or was seen, at this path. */
  ghost predicate Elsewhere(call: Call, n: string, path: string) {
    exists p :: p != n && TracedTo(call, p, path)
  }

  ghost predicate TracedTo(call: Call, p: string, path: string) {
    KnownAt(LoadedKnown(call), p, path) || SeenAt(call, p, path)
  }

  lemma ElsewhereStays(call: Call, later: Call, n: string, path: string)
    requires call != [] && call <= later && Elsewhere(call, n, path)
    ensures Elsewhere(later, n, path)
  {
    var p :| p != n && TracedTo(call, p, path);
    if SeenAt(call, p, path) {
      SeenStays(call, later, p, path);
    }
    assert TracedTo(later, p, path);
  }

  /** Discovery shows the device, and only safe, with the recorded identity, and at a path no other device has. */
  ghost predicate Back(c: Config, call: Call, s: Snapshot, d: ClaimDevice) {
    && (exists e :: e in s.devices && e.name == d.device)
    && (forall e :: e in s.devices && e.name == d.device ==> BackAs(c, call, e, d))
  }

  ghost predicate BackAs(c: Config, call: Call, e: InventoryDevice, d: ClaimDevice) {
    SafeDevice(c, e) && e.stableID == d.stableID && !Elsewhere(call, d.device, e.path)
  }

  ghost predicate IsPreflight(step: Step, uid: string) {
    step.Audited? && step.event.action == PreflightSanitize && step.event.claimUID == uid
  }

  /** The first look at the inventory after a device was reset for the claim. */
  ghost predicate LookAfterReset(call: Call, v: nat, uid: string) {
    && v < |call| && call[v].step.Looked?
    && exists i: nat :: i < v && IsPreflight(call[i].step, uid) && forall w :: i < w < v ==> !call[w].step.Looked?
  }

  /** That look did not show every device back. */
  ghost predicate Away(c: Config, call: Call, uid: string, devices: seq<ClaimDevice>) {
    exists v: nat, d :: AwayAt(c, call, v, uid, d) && d in devices
  }

  ghost predicate AwayAt(c: Config, call: Call, v: nat, uid: string, d: ClaimDevice) {
    && LookAfterReset(call, v, uid) && call[v].step.seen.Some?
    && !Back(c, call, call[v].step.seen.value, d)
  }

  lemma AwayStays(c: Config, call: Call, later: Call, uid: string, devices: seq<ClaimDevice>)
    requires call != [] && call <= later && Away(c, call, uid, devices)
    ensures Away(c, later, uid, devices)
  {
    var v: nat, d :| AwayAt(c, call, v, uid, d) && d in devices;
    assert forall w :: 0 <= w < |call| ==> later[w] == call[w];
    var s := call[v].step.seen.value;
    if Back(c, later, s, d) {
      forall e | e in s.devices && e.name == d.device ensures BackAs(c, call, e, d) {
        assert BackAs(c, later, e, d);
        if Elsewhere(call, d.device, e.path) {
          ElsewhereStays(call, later, d.device, e.path);
        }
      }
    }
    assert AwayAt(c, later, v, uid, d);
  }

  /** A step failed, or a device did not come back. */
  ghost predicate Hindered(c: Config, call: Call, from: nat, uid: string, devices: seq<ClaimDevice>) {
    Rough(c, call, from) || Away(c, call, uid, devices)
  }

  lemma HinderedStays(c: Config, call: Call, later: Call, from: nat, earlier: nat, uid: string,
                      devices: seq<ClaimDevice>)
    requires call != [] && call <= later && earlier <= from && Hindered(c, call, from, uid, devices)
    ensures Hindered(c, later, earlier, uid, devices)
  {
    if Rough(c, call, from) {
      RoughStays(c, call, later, from, earlier);
    } else {
      AwayStays(c, call, later, uid, devices);
    }
  }

  /** The record speaks against preparing: it is under release or recovery, or holds a quarantined device. */
  ghost predicate Barred(s: State, uid: string) {
    && uid in s.claims
    && (|| s.claims[uid].phase in {Releasing, Recovered}
        || (s.claims[uid].phase == Prepared && exists d :: d in s.claims[uid].devices && d.device in s.quarantined))
  }

  /** Why a claim was not prepared. */
  ghost predicate Justified(c: Config, claim: ResourceClaim, byName: map<string, InventoryDevice>,
                            owners: map<string, string>, s: State, call: Call, from: nat) {
    !Hopeless(c, claim, byName, owners, s) ==>
      Hindered(c, call, from, claim.uid, WantedDevices(c, claim, byName))
  }

  /** A claim that is refused before anything is tried. */
  ghost predicate Hopeless(c: Config, claim: ResourceClaim, byName: map<string, InventoryDevice>,
                           owners: map<string, string>, s: State) {
    || !ClaimAcceptable(c, claim, byName, owners) || Barred(s, claim.uid)
    || (claim.uid in s.claims && !RecordOf(c, claim, byName, s.claims[claim.uid]))
  }

  /** Some device of these is not there, or not accessible. */
  ghost predicate SomeAbsent(s: Snapshot, devices: seq<ClaimDevice>) {
    exists d :: d in devices && Absent(s, d.device)
  }

  ghost predicate Absent(s: Snapshot, n: string) {
    (forall e :: e in s.devices ==> e.name != n) || exists e :: e in s.devices && e.name == n && !e.present
  }

  /** The same by name, where a later device replaces an earlier one. */
  ghost predicate Unavailable(byName: map<string, InventoryDevice>, devices: seq<ClaimDevice>) {
    exists d :: d in devices && (d.device !in byName || !byName[d.device].present)
  }

  lemma UnavailableIsAbsent(s: Snapshot, devices: seq<ClaimDevice>)
    requires Unavailable(ByName(s.devices), devices)
    ensures SomeAbsent(s, devices)
  {
    var d :| d in devices && (d.device !in ByName(s.devices) || !ByName(s.devices)[d.device].present);
    ByNameMembers(s.devices);
    assert Absent(s, d.device);
  }

  /** What a pass of the agent finds of a device that is back. */
  lemma BackIsUnblamed(c: Config, s: State, t: State, snapshot: Snapshot, call: Call, d: ClaimDevice)
    requires PassState(c, s, t, snapshot, false) && d.device !in s.quarantined && Back(c, call, snapshot, d)
    requires KnownLogged(s.known, call) && LookedAt(call, snapshot)
    ensures d.device !in t.quarantined
  {
    if d.device in t.quarantined {
      assert HeldWithReason(c, s, t.quarantined.Keys, snapshot, false, d.device);
      var e :| e in snapshot.devices && e.name == d.device;
      var k :| 0 <= k < |snapshot.devices| && Blamed(c, s, snapshot, false, k) && snapshot.devices[k].name == d.device;
      assert BackAs(c, call, snapshot.devices[k], d);
      RehomedIsElsewhere(s, snapshot, call, k);
    }
  }

  /** The call looked at the inventory and saw this. */
  ghost predicate LookedAt(call: Call, s: Snapshot) {
    exists v: nat :: v < |call| && call[v].step.Looked? && call[v].step.seen == Some(s)
  }

  lemma RehomedIsElsewhere(s: State, snapshot: Snapshot, call: Call, k: nat)
    requires KnownLogged(s.known, call) && LookedAt(call, snapshot) && k < |snapshot.devices|
    requires Rehomed(KnownAfter(s.known, snapshot.devices[..k], snapshot.observedAt), snapshot.devices[k])
    ensures Elsewhere(call, snapshot.devices[k].name, snapshot.devices[k].path)
  {
    var known, item := KnownAfter(s.known, snapshot.devices[..k], snapshot.observedAt), snapshot.devices[k];
    var p :| p in known && p != item.name && known[p].path == item.path;
    KnownAfterLogged(s.known, snapshot, k, call);
    assert KnownFrom(known, call, p) && TracedTo(call, p, item.path);
  }

  /** What is known after an observation is what was known before it or was just seen. */
  lemma {:induction false} KnownAfterLogged(known: map<string, KnownDevice>, snapshot: Snapshot, k: nat, call: Call)
    requires KnownLogged(known, call) && LookedAt(call, snapshot) && k <= |snapshot.devices|
    ensures KnownLogged(KnownAfter(known, snapshot.devices[..k], snapshot.observedAt), call)
    decreases k
  {
    if k == 0 {
      assert snapshot.devices[..0] == [];
    } else {
      KnownAfterLogged(known, snapshot, k - 1, call);
      var init, last := snapshot.devices[..k - 1], snapshot.devices[k - 1];
      assert snapshot.devices[..k][..k - 1] == init;
      var v: nat :| v < |call| && call[v].step.Looked? && call[v].step.seen == Some(snapshot);
      assert ShowsAt(call[v].step, last.name, last.path);
      var next := KnownAfter(known, snapshot.devices[..k], snapshot.observedAt);
      assert next == KnownAfter(known, init, snapshot.observedAt)[last.name := KnownDevice(last.path,
                       snapshot.observedAt)];
      forall n ensures KnownFrom(next, call, n) {
        assert KnownFrom(KnownAfter(known, init, snapshot.observedAt), call, n);
      }
    }
  }

  /** A pass leaves every known path logged. */
  lemma PassKnownLogged(c: Config, s: State, t: State, snapshot: Snapshot, recoverIdle: bool, call: Call, later: Call)
    requires PassState(c, s, t, snapshot, recoverIdle) && call != [] && call <= later && KnownLogged(s.known, call)
    requires LookedAt(call, snapshot)
    ensures KnownLogged(t.known, later)
  {
    assert snapshot.devices[..|snapshot.devices|] == snapshot.devices;
    KnownAfterLogged(s.known, snapshot, |snapshot.devices|, call);
    KnownStaysLogged(t.known, call, later);
  }
}
