/** Which allocations may be prepared, and what a batch of them can do to the ownership of devices. */
module Batches {
  import opened Api
  import opened Inventory
  import opened Lifecycle

  /** One device of an allocation; `adminAccess` is false when absent. */
  datatype AllocatedDevice = AllocatedDevice(driver: string, adminAccess: bool, request: string, pool: string,
                                             device: string)

  /** `configDrivers` lists the drivers that the allocation carries configuration for. */
  datatype Allocation = Allocation(configDrivers: seq<string>, results: seq<AllocatedDevice>)

  datatype ResourceClaim = ResourceClaim(uid: string, namespace: string, name: string, allocation: Option<Allocation>)

  /** White space as Unicode defines it. */
  predicate IsSpace(c: char) {
    || c == ' ' || '\t' <= c <= '\r' || c == '\U{85}' || c == '\U{A0}' || c == '\U{1680}'
    || '\U{2000}' <= c <= '\U{200A}' || c == '\U{2028}' || c == '\U{2029}' || c == '\U{202F}'
    || c == '\U{205F}' || c == '\U{3000}'
  }

  predicate Blank(s: string) { forall i :: 0 <= i < |s| ==> IsSpace(s[i]) }

  function OwnResults(driver: string, results: seq<AllocatedDevice>): seq<AllocatedDevice> {
    if results == [] then []
    else
      var last := results[|results| - 1];
      OwnResults(driver, results[..|results| - 1]) + if last.driver == driver then [last] else []
  }

  /** The devices of this driver that a claim names. */
  function AllocatedNames(driver: string, c: ResourceClaim): set<string> {
    if c.allocation.None? then {} else set r | r in c.allocation.value.results && r.driver == driver :: r.device
  }

  function ClaimedDevice(uid: string, r: AllocatedDevice, item: InventoryDevice): ClaimDevice {
    ClaimDevice([r.request], r.pool, r.device, item.stableID, item.path, item.major, item.minor, CDIID(uid, r.device))
  }

  /** One allocated device may be prepared here and now. */
  ghost predicate Acceptable(c: Config, uid: string, r: AllocatedDevice, byName: map<string, InventoryDevice>,
                             owners: map<string, string>) {
    && !r.adminAccess && !Blank(r.request) && r.pool == c.nodeName
    && r.device in byName && byName[r.device].eligible && SafeDevice(c, byName[r.device])
    && (c.requireIOMMU ==> byName[r.device].iommuGroup >= 0 && byName[r.device].iommuGroupSize == 1)
    && (r.device in owners ==> owners[r.device] == uid)
  }

  ghost predicate AllAcceptable(c: Config, uid: string, own: seq<AllocatedDevice>, byName: map<string, InventoryDevice>,
                                owners: map<string, string>) {
    && (forall i :: 0 <= i < |own| ==> Acceptable(c, uid, own[i], byName, owners))
    && (forall i, j :: 0 <= i < j < |own| ==> own[i].device != own[j].device)
  }

  ghost predicate ClaimAcceptable(c: Config, claim: ResourceClaim, byName: map<string, InventoryDevice>,
                                  owners: map<string, string>) {
    && claim.allocation.Some? && c.driver !in claim.allocation.value.configDrivers
    && OwnResults(c.driver, claim.allocation.value.results) != []
    && AllAcceptable(c, claim.uid, OwnResults(c.driver, claim.allocation.value.results), byName, owners)
  }

  ghost predicate Located(c: Config, claim: ResourceClaim, byName: map<string, InventoryDevice>) {
    && claim.allocation.Some?
    && var own := OwnResults(c.driver, claim.allocation.value.results);
       forall i :: 0 <= i < |own| ==> own[i].device in byName
  }

  /** The current identity of each allocated device, in order. */
  ghost function WantedDevices(c: Config, claim: ResourceClaim, byName: map<string, InventoryDevice>): seq<ClaimDevice>
    requires Located(c, claim, byName)
  {
    var own := OwnResults(c.driver, claim.allocation.value.results);
    seq(|own|, i requires 0 <= i < |own| => ClaimedDevice(claim.uid, own[i], byName[own[i].device]))
  }

  /** `devices` are the current identities of `own`, in order. */
  ghost predicate Identified(uid: string, own: seq<AllocatedDevice>, byName: map<string, InventoryDevice>,
                             devices: seq<ClaimDevice>) {
    && |devices| == |own|
    && forall k :: 0 <= k < |own| ==>
          own[k].device in byName && devices[k] == ClaimedDevice(uid, own[k], byName[own[k].device])
  }

  /** The record a prepared claim gets. */
  ghost predicate RecordOf(c: Config, claim: ResourceClaim, byName: map<string, InventoryDevice>, p: PreparedClaim) {
    && Located(c, claim, byName)
    && p.uid == claim.uid && p.namespace == claim.namespace && p.name == claim.name
    && p.devices == WantedDevices(c, claim, byName)
  }

  lemma {:induction false} OwnResultsMembers(driver: string, results: seq<AllocatedDevice>)
    ensures forall r :: r in OwnResults(driver, results) <==> r in results && r.driver == driver
  {
    if results != [] {
      OwnResultsMembers(driver, results[..|results| - 1]);
      assert results == results[..|results| - 1] + [results[|results| - 1]];
    }
  }

  lemma WantedNames(c: Config, claim: ResourceClaim, byName: map<string, InventoryDevice>)
    requires Located(c, claim, byName)
    ensures DeviceNames(WantedDevices(c, claim, byName)) == AllocatedNames(c.driver, claim)
  {
    var own, wanted := OwnResults(c.driver, claim.allocation.value.results), WantedDevices(c, claim, byName);
    OwnResultsMembers(c.driver, claim.allocation.value.results);
    forall r | r in own ensures r.device in DeviceNames(wanted) {
      var i :| 0 <= i < |own| && own[i] == r;
      assert wanted[i] in wanted;
    }
    forall d | d in wanted ensures d.device in AllocatedNames(c.driver, claim) {
      var i :| 0 <= i < |wanted| && wanted[i] == d;
      assert own[i] in own;
    }
  }

  /** One unacceptable device rejects the whole allocation. */
  lemma {:induction false} OwnPrefixRejected(c: Config, uid: string, results: seq<AllocatedDevice>, i: nat,
                                             byName: map<string, InventoryDevice>, owners: map<string, string>)
    requires i < |results| && !AllAcceptable(c, uid, OwnResults(c.driver, results[..i + 1]), byName, owners)
    ensures !AllAcceptable(c, uid, OwnResults(c.driver, results), byName, owners)
    decreases |results|
  {
    if i + 1 == |results| {
      assert results[..i + 1] == results;
    } else {
      var init := results[..|results| - 1];
      assert init[..i + 1] == results[..i + 1];
      OwnPrefixRejected(c, uid, init, i, byName, owners);
      PrefixAcceptable(c, uid, OwnResults(c.driver, init), OwnResults(c.driver, results), byName, owners);
    }
  }

  lemma PrefixAcceptable(c: Config, uid: string, a: seq<AllocatedDevice>, b: seq<AllocatedDevice>,
                         byName: map<string, InventoryDevice>, owners: map<string, string>)
    requires a <= b
    ensures AllAcceptable(c, uid, b, byName, owners) ==> AllAcceptable(c, uid, a, byName, owners)
  {
  }

  /** No allocated device of an acceptable claim is known to belong to another one. */
  lemma AcceptableIsUnowned(c: Config, claim: ResourceClaim, byName: map<string, InventoryDevice>,
                            owners: map<string, string>, n: string)
    requires ClaimAcceptable(c, claim, byName, owners) && n in AllocatedNames(c.driver, claim) && n in owners
    ensures owners[n] == claim.uid
  {
    var own := OwnResults(c.driver, claim.allocation.value.results);
    OwnResultsMembers(c.driver, claim.allocation.value.results);
    var r :| r in own && r.device == n;
    var i :| 0 <= i < |own| && own[i] == r;
    assert Acceptable(c, claim.uid, own[i], byName, owners);
  }

  /** Knowing fewer owners rejects no claim. */
  lemma FewerOwners(c: Config, claim: ResourceClaim, byName: map<string, InventoryDevice>, owners: map<string, string>,
                    fewer: map<string, string>)
    requires ClaimAcceptable(c, claim, byName, owners) && Includes(owners, fewer)
    ensures ClaimAcceptable(c, claim, byName, fewer)
  {
    var own := OwnResults(c.driver, claim.allocation.value.results);
    forall i | 0 <= i < |own| ensures Acceptable(c, claim.uid, own[i], byName, fewer) {
      assert Acceptable(c, claim.uid, own[i], byName, owners);
    }
  }

  // ---- What a batch may do ----

  /** The devices on record in memory and on file, and the owners that the batch knows of. */
  datatype Ledger = Ledger(memory: map<string, seq<ClaimDevice>>, file: map<string, seq<ClaimDevice>>,
                           owners: map<string, string>)

  ghost function LedgerOf(s: State, w: World, owners: map<string, string>): Ledger {
    Ledger(Recorded(s.claims), Recorded(DiskClaims(w)), owners)
  }

  ghost predicate Includes<K(!new), V(!new)>(more: map<K, V>, fewer: map<K, V>) {
    forall k :: k in fewer ==> k in more && more[k] == fewer[k]
  }

  function WithOwner(owners: map<string, string>, uid: string, names: set<string>): map<string, string> {
    owners + map n | n in names :: uid
  }

  lemma WithOneMore(owners: map<string, string>, uid: string, names: set<string>, n: string)
    ensures WithOwner(owners, uid, names)[n := uid] == WithOwner(owners, uid, names + {n})
  {
  }

  /** The owners map of a batch before its first claim. */
  ghost predicate IsOwners(owners: map<string, string>, memory: map<string, seq<ClaimDevice>>) {
    && (forall u, n :: u in memory && n in DeviceNames(memory[u]) ==> n in owners)
    && (forall n :: n in owners ==> owners[n] in memory && n in DeviceNames(memory[owners[n]]))
  }

  ghost predicate HoldsDevice(l: Ledger, u: string, n: string) {
    (u in l.memory && n in DeviceNames(l.memory[u])) || (u in l.file && n in DeviceNames(l.file[u]))
  }

  /** No device is on record for two claims. */
  ghost predicate Single(l: Ledger) { forall u, v, n :: HoldsDevice(l, u, n) && HoldsDevice(l, v, n) ==> u == v }

  lemma SingleIsExclusive(s: State, w: World, owners: map<string, string>)
    ensures Single(LedgerOf(s, w, owners)) <==> Exclusive(s, w)
  {
    var l := LedgerOf(s, w, owners);
    assert forall u, n :: HoldsDevice(l, u, n) <==> Owns(s, w, u, n);
  }

  /** An outcome of one claim; every effect on the way may fail. */
  ghost predicate ClaimOutcome(c: Config, claim: Option<ResourceClaim>, byName: map<string, InventoryDevice>, l: Ledger,
                               m: Ledger) {
    if claim.None? || !ClaimAcceptable(c, claim.value, byName, l.owners) then m == l
    else
      var uid, wanted := claim.value.uid, WantedDevices(c, claim.value, byName);
      if uid in l.memory then Resumed(l, m, uid, wanted)
      else IntentLost(l, m, uid, wanted) || IntentRecorded(l, m, uid, wanted)
  }

  /** A claim already on record: refused, repeated, or resumed with or without success. */
  ghost predicate Resumed(l: Ledger, m: Ledger, uid: string, wanted: seq<ClaimDevice>) {
    && m.memory == l.memory && (m.file == l.file || m.file == l.memory)
    && (m.owners == l.owners || (uid in l.memory && l.memory[uid] == wanted && m.owners == WithOwner(l.owners, uid,
        DeviceNames(wanted))))
  }

  /** The intent was reported as not written; the file may hold it all the same. */
  ghost predicate IntentLost(l: Ledger, m: Ledger, uid: string, wanted: seq<ClaimDevice>) {
    m.memory == l.memory && m.owners == l.owners && (m.file == l.file || m.file == l.memory[uid := wanted])
  }

  /** The intent is on record; only if all that follows succeeds does the batch learn of the new owner. */
  ghost predicate IntentRecorded(l: Ledger, m: Ledger, uid: string, wanted: seq<ClaimDevice>) {
    && m.memory == l.memory[uid := wanted] && m.file == m.memory
    && (m.owners == l.owners || m.owners == WithOwner(l.owners, uid, DeviceNames(wanted)))
  }

  /** What an attempt does to the records of the agent is an outcome of its claim. */
  lemma AttemptIsOutcome(c: Config, claim: ResourceClaim, byName: map<string, InventoryDevice>, s: State, w: World,
                         t: State, x: World, wanted: PreparedClaim, known: map<string, string>,
                         owners: map<string, string>)
    requires ClaimAcceptable(c, claim, byName, known) && RecordOf(c, claim, byName, wanted)
    requires Attempted(s, w, t, x, wanted)
    requires || owners == known
             || (claim.uid in t.claims && t.claims[claim.uid].devices == wanted.devices && owners == WithOwner(known,
                 claim.uid, Names(wanted)))
    ensures ClaimOutcome(c, Some(claim), byName, LedgerOf(s, w, known), LedgerOf(t, x, owners))
  {
    var uid := claim.uid;
    assert uid in t.claims <==> uid in Recorded(t.claims);
    assert uid in t.claims ==> Recorded(t.claims)[uid] == t.claims[uid].devices;
  }

  /** An outcome of the first `n` claims of a batch. */
  ghost predicate BatchOutcome(c: Config, claims: seq<Option<ResourceClaim>>, byName: map<string, InventoryDevice>,
                               n: nat, l: Ledger, m: Ledger)
    requires n <= |claims|
    decreases n, 1
  {
    if n == 0 then m == l else exists k :: OutcomeVia(c, claims, byName, n, l, k, m)
  }

  ghost predicate OutcomeVia(c: Config, claims: seq<Option<ResourceClaim>>, byName: map<string, InventoryDevice>,
                             n: nat, l: Ledger, k: Ledger, m: Ledger)
    requires 0 < n <= |claims|
    decreases n, 0
  {
    BatchOutcome(c, claims, byName, n - 1, l, k) && ClaimOutcome(c, claims[n - 1], byName, k, m)
  }

  // ---- When a batch may double a device ----

  /** Claim `i` is not on record yet, is acceptable against the owners on record, and names device `n`. */
  ghost predicate Newcomer(c: Config, claims: seq<Option<ResourceClaim>>, byName: map<string, InventoryDevice>,
                           l: Ledger, i: nat, u: string, n: string)
  {
    && i < |claims| && claims[i].Some? && claims[i].value.uid == u && u !in l.memory
    && ClaimAcceptable(c, claims[i].value, byName, l.owners) && n in AllocatedNames(c.driver, claims[i].value)
  }

  /** Two newcomers with different UIDs want one device. */
  ghost predicate Contended(c: Config, claims: seq<Option<ResourceClaim>>, byName: map<string, InventoryDevice>,
                            l: Ledger) {
    exists i: nat, j: nat, u, v, n ::
      u != v && Newcomer(c, claims, byName, l, i, u, n) && Newcomer(c, claims, byName, l, j, v, n)
  }

  /** Whatever is on record after `n` claims was before, or was named by one of those newcomers. */
  ghost predicate Explained(c: Config, claims: seq<Option<ResourceClaim>>, byName: map<string, InventoryDevice>, n: nat,
                            l: Ledger, m: Ledger) {
    && Includes(m.memory, l.memory) && Includes(m.owners, l.owners)
    && forall u, d :: HoldsDevice(m, u, d) ==>
          HoldsDevice(l, u, d) || exists i: nat :: i < n && Newcomer(c, claims, byName, l, i, u, d)
  }

  lemma {:induction false} OutcomeExplained(c: Config, claims: seq<Option<ResourceClaim>>,
                                            byName: map<string, InventoryDevice>, n: nat, l: Ledger, m: Ledger)
    requires n <= |claims| && BatchOutcome(c, claims, byName, n, l, m)
    ensures Explained(c, claims, byName, n, l, m)
  {
    if n > 0 {
      var k :| OutcomeVia(c, claims, byName, n, l, k, m);
      OutcomeExplained(c, claims, byName, n - 1, l, k);
      if claims[n - 1].Some? && ClaimAcceptable(c, claims[n - 1].value, byName, k.owners) {
        ClaimExplained(c, claims, byName, n - 1, l, k, m);
      }
    }
  }

  /** One accepted claim adds at most its own devices, and only if it was not on record. */
  lemma ClaimExplained(c: Config, claims: seq<Option<ResourceClaim>>, byName: map<string, InventoryDevice>, i: nat,
                       l: Ledger, k: Ledger, m: Ledger)
    requires i < |claims| && claims[i].Some? && ClaimAcceptable(c, claims[i].value, byName, k.owners)
    requires Explained(c, claims, byName, i, l, k) && ClaimOutcome(c, claims[i], byName, k, m)
    ensures Explained(c, claims, byName, i + 1, l, m)
  {
    var claim := claims[i].value;
    var uid, wanted := claim.uid, WantedDevices(c, claim, byName);
    WantedNames(c, claim, byName);
    FewerOwners(c, claim, byName, k.owners, l.owners);
    forall n | n in k.owners && n in DeviceNames(wanted) ensures k.owners[n] == uid {
      AcceptableIsUnowned(c, claim, byName, k.owners, n);
    }
    forall u, d | HoldsDevice(m, u, d) && !HoldsDevice(k, u, d) ensures Newcomer(c, claims, byName, l, i, u, d) {
    }
  }

  /** A record that is in memory and on file survives every outcome, with its devices. */
  lemma {:induction false} OutcomeKeeps(c: Config, claims: seq<Option<ResourceClaim>>,
                                        byName: map<string, InventoryDevice>, n: nat, l: Ledger, m: Ledger, u: string,
                                        devices: seq<ClaimDevice>)
    requires n <= |claims| && BatchOutcome(c, claims, byName, n, l, m)
    requires u in l.memory && u in l.file && l.memory[u] == devices && l.file[u] == devices
    ensures u in m.memory && u in m.file && m.memory[u] == devices && m.file[u] == devices
  {
    if n > 0 {
      var k :| OutcomeVia(c, claims, byName, n, l, k, m);
      OutcomeKeeps(c, claims, byName, n - 1, l, k, u, devices);
    }
  }

  /** A claim may always end with nothing changed. */
  lemma {:induction false} NothingMore(c: Config, claims: seq<Option<ResourceClaim>>,
                                       byName: map<string, InventoryDevice>, n: nat, more: nat, l: Ledger, m: Ledger)
    requires n <= more <= |claims| && BatchOutcome(c, claims, byName, n, l, m)
    ensures BatchOutcome(c, claims, byName, more, l, m)
    decreases more
  {
    if n < more {
      NothingMore(c, claims, byName, n, more - 1, l, m);
      assert OutcomeVia(c, claims, byName, more, l, m, m);
    }
  }

  /** Claim `i` is recorded and fails afterwards; the owners map does not show it. */
  lemma RecordedOnly(c: Config, claims: seq<Option<ResourceClaim>>, byName: map<string, InventoryDevice>, i: nat,
                     l: Ledger, k: Ledger, u: string, n: string) returns (m: Ledger)
    requires Newcomer(c, claims, byName, k, i, u, n) && BatchOutcome(c, claims, byName, i, l, k)
    ensures BatchOutcome(c, claims, byName, i + 1, l, m)
    ensures m.memory.Keys == k.memory.Keys + {u} && m.owners == k.owners && Includes(m.memory, k.memory)
    ensures n in DeviceNames(m.memory[u])
  {
    var wanted := WantedDevices(c, claims[i].value, byName);
    WantedNames(c, claims[i].value, byName);
    m := Ledger(k.memory[u := wanted], k.memory[u := wanted], k.owners);
    assert OutcomeVia(c, claims, byName, i + 1, l, k, m);
  }

  /** Two newcomers that want one device may both end on record. */
  lemma DoublingOutcome(c: Config, claims: seq<Option<ResourceClaim>>, byName: map<string, InventoryDevice>, l: Ledger,
                        i: nat, j: nat, u: string, v: string, n: string) returns (m: Ledger)
    requires i < j && u != v && Newcomer(c, claims, byName, l, i, u, n) && Newcomer(c, claims, byName, l, j, v, n)
    ensures BatchOutcome(c, claims, byName, |claims|, l, m) && HoldsDevice(m, u, n) && HoldsDevice(m, v, n)
  {
    NothingMore(c, claims, byName, 0, i, l, l);
    var k := RecordedOnly(c, claims, byName, i, l, l, u, n);
    NothingMore(c, claims, byName, i + 1, j, l, k);
    assert Newcomer(c, claims, byName, k, j, v, n);
    m := RecordedOnly(c, claims, byName, j, l, k, v, n);
    NothingMore(c, claims, byName, j + 1, |claims|, l, m);
  }

  /** What a newcomer wants is on record for nobody. */
  lemma NewcomersDeviceIsFree(c: Config, claims: seq<Option<ResourceClaim>>, byName: map<string, InventoryDevice>,
                              l: Ledger, i: nat, v: string, n: string)
    requires Includes(l.memory, l.file) && IsOwners(l.owners, l.memory) && Newcomer(c, claims, byName, l, i, v, n)
    ensures forall u :: !HoldsDevice(l, u, n)
  {
    if n in l.owners {
      AcceptableIsUnowned(c, claims[i].value, byName, l.owners, n);
    }
  }

  /** Every outcome of a batch keeps each device in one record if and only if the batch is not contended. */
  lemma SingleIffUncontended(c: Config, claims: seq<Option<ResourceClaim>>, byName: map<string, InventoryDevice>,
                             l: Ledger)
    requires Single(l) && Includes(l.memory, l.file) && IsOwners(l.owners, l.memory)
    ensures (forall m :: BatchOutcome(c, claims, byName, |claims|, l, m) ==> Single(m)) <==>
              !Contended(c, claims, byName, l)
  {
    if Contended(c, claims, byName, l) {
      var i: nat, j: nat, u, v, n :|
        u != v && Newcomer(c, claims, byName, l, i, u, n) && Newcomer(c, claims, byName, l, j, v, n);
      var m;
      if i < j {
        m := DoublingOutcome(c, claims, byName, l, i, j, u, v, n);
      } else {
        m := DoublingOutcome(c, claims, byName, l, j, i, v, u, n);
      }
      assert !Single(m);
    } else {
      forall m | BatchOutcome(c, claims, byName, |claims|, l, m)
        ensures Single(m)
      {
        UncontendedStaysSingle(c, claims, byName, l, m);
      }
    }
  }

  lemma UncontendedStaysSingle(c: Config, claims: seq<Option<ResourceClaim>>, byName: map<string, InventoryDevice>,
                               l: Ledger, m: Ledger)
    requires Single(l) && Includes(l.memory, l.file) && IsOwners(l.owners, l.memory)
    requires !Contended(c, claims, byName, l) && BatchOutcome(c, claims, byName, |claims|, l, m)
    ensures Single(m)
  {
    OutcomeExplained(c, claims, byName, |claims|, l, m);
    forall u, v, n | HoldsDevice(m, u, n) && HoldsDevice(m, v, n) ensures u == v {
      if HoldsDevice(l, u, n) {
        forall i: nat | Newcomer(c, claims, byName, l, i, v, n)
          ensures false
        {
          NewcomersDeviceIsFree(c, claims, byName, l, i, v, n);
        }
      } else {
        var i: nat :| i < |claims| && Newcomer(c, claims, byName, l, i, u, n);
        NewcomersDeviceIsFree(c, claims, byName, l, i, u, n);
      }
    }
  }

  /** No inventory makes the batch contended against these records. */
  ghost predicate NeverContended(c: Config, claims: seq<Option<ResourceClaim>>, record: Claims) {
    forall byName, l: Ledger :: l.memory == Recorded(record) && IsOwners(l.owners, l.memory) ==>
      !Contended(c, claims, byName, l)
  }

  /** No two claims of the batch name the same device. */
  ghost predicate DisjointBatch(driver: string, claims: seq<Option<ResourceClaim>>) {
    forall i, j ::
      && 0 <= i < |claims| && 0 <= j < |claims| && claims[i].Some? && claims[j].Some?
      && claims[i].value.uid != claims[j].value.uid
      ==> AllocatedNames(driver, claims[i].value) !! AllocatedNames(driver, claims[j].value)
  }

  lemma DisjointIsUncontended(c: Config, claims: seq<Option<ResourceClaim>>, record: Claims)
    requires DisjointBatch(c.driver, claims)
    ensures NeverContended(c, claims, record)
  {
    forall byName, l: Ledger ensures !Contended(c, claims, byName, l) {
      forall i: nat, j: nat, u, v, n |
        Newcomer(c, claims, byName, l, i, u, n) && Newcomer(c, claims, byName, l, j, v, n)
        ensures u == v {
      }
    }
  }
}
