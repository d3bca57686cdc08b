/** What an observation pass makes of the quarantine, and which devices it resets. */
module Screening {
  import opened Api
  import opened Inventory
  import opened Lifecycle

  datatype Safety = Safety(isUnsafe: bool, healthy: nat, total: nat)

  /** `filterLocked`: the same devices, those in quarantine marked ineligible. */
  function Filter(s: Snapshot, q: map<string, QuarantineRecord>): Snapshot {
    s.(devices := seq(|s.devices|, i requires 0 <= i < |s.devices| => FilterDevice(s.devices[i], q)))
  }

  function FilterDevice(d: InventoryDevice, q: map<string, QuarantineRecord>): InventoryDevice {
    if d.name in q then d.(eligible := false, rejectionReason := "quarantined: " + q[d.name].reason) else d
  }

  /** A recovery step for `n` failed in this call. */
  ghost predicate RecoveryFailed(call: Call, from: nat, n: string) {
    exists i :: from <= i < |call| && FailedFor(call[i].step, n)
  }

  ghost predicate FailedFor(step: Step, n: string) {
    || (step.Reset? && step.device == n && !step.ok)
    || (step.Audited? && step.event.device == n && !step.ok && step.event.action in {RecoverySanitize, RecoveryHealth})
  }

  /** The steps added since `from` reset no device outside `allowed`. */
  ghost predicate ResetsOnly(call: Call, from: nat, allowed: set<string>) {
    forall i :: from <= i < |call| && call[i].step.Reset? ==> call[i].step.device in allowed
  }

  function NamesOf(devices: seq<InventoryDevice>): set<string> { set d | d in devices :: d.name }

  /** Another device was known at this path. */
  ghost predicate Rehomed(known: map<string, KnownDevice>, item: InventoryDevice) {
    exists p :: p in known && p != item.name && known[p].path == item.path
  }

  // ---- Which devices a monitoring pass resets ----

  /** A quarantine record without its time. */
  datatype Mark = Mark(reason: string, awaiting: bool)

  function MarkOf(q: map<string, QuarantineRecord>, n: string): Option<Mark> {
    if n in q then Some(Mark(q[n].reason, q[n].awaitingHealth)) else None
  }

  /** `quarantineLocked` leaves a record with the same reason alone. */
  function Marked(m: Option<Mark>, reason: string): Option<Mark> {
    if m.Some? && m.value.reason == reason then m else Some(Mark(reason, false))
  }

  const RESET_FAILED := "sanitization failed"
  const AUDIT_FAILED := "sanitization failed: audit record failed"
  const NEW_DEVICE := "new device requires sanitization"
  const MOVED_DEVICE := "hardware identity changed on device path"

  ghost function HotplugMark(known: map<string, KnownDevice>, m: Option<Mark>, item: InventoryDevice,
                             recoverIdle: bool): Option<Mark> {
    var novel := if recoverIdle && item.name !in known then Marked(m, NEW_DEVICE) else m;
    if Rehomed(known, item) then Marked(novel, MOVED_DEVICE) else novel
  }

  /** What the scan makes of the record of one observed device. */
  ghost function ScanMark(c: Config, known: map<string, KnownDevice>, m: Option<Mark>, item: InventoryDevice,
                          recoverIdle: bool): Option<Mark> {
    var plugged := HotplugMark(known, m, item, recoverIdle);
    if SafeDevice(c, item) then plugged else Marked(plugged, UnsafeReason(c, item))
  }

  /** The devices known after the scan of a list. */
  function KnownAfter(known: map<string, KnownDevice>, devices: seq<InventoryDevice>,
                      at: Option<int>): map<string, KnownDevice> {
    if devices == [] then known
    else
      var last := devices[|devices| - 1];
      KnownAfter(known, devices[..|devices| - 1], at)[last.name := KnownDevice(last.path, at)]
  }

  ghost predicate ScannedAt(c: Config, s: State, q: map<string, QuarantineRecord>, snapshot: Snapshot,
                            recoverIdle: bool, k: nat)
    requires k < |snapshot.devices|
  {
    var d := snapshot.devices[k];
    MarkOf(q, d.name) ==
    ScanMark(c, KnownAfter(s.known, snapshot.devices[..k], snapshot.observedAt), MarkOf(s.quarantined, d.name), d,
             recoverIdle)
  }

  /** The quarantine `q` is what the scan of the first `n` devices makes of the one in `s`. */
  ghost predicate ScannedTo(c: Config, s: State, q: map<string, QuarantineRecord>, snapshot: Snapshot,
                            recoverIdle: bool, n: nat)
    requires n <= |snapshot.devices|
  {
    && (forall k :: 0 <= k < n ==> ScannedAt(c, s, q, snapshot, recoverIdle, k))
    && (forall k :: n <= k < |snapshot.devices| ==>
          MarkOf(q, snapshot.devices[k].name) == MarkOf(s.quarantined, snapshot.devices[k].name))
  }

  lemma ScanStep(c: Config, s: State, q: map<string, QuarantineRecord>, r: map<string, QuarantineRecord>,
                 snapshot: Snapshot, recoverIdle: bool, n: nat)
    requires DistinctNames(snapshot) && n < |snapshot.devices| && ScannedTo(c, s, q, snapshot, recoverIdle, n)
    requires SameOutside(q, r, {snapshot.devices[n].name}) && ScannedAt(c, s, r, snapshot, recoverIdle, n)
    ensures ScannedTo(c, s, r, snapshot, recoverIdle, n + 1)
  {
    forall k | 0 <= k < |snapshot.devices| && k != n
      ensures MarkOf(r, snapshot.devices[k].name) == MarkOf(q, snapshot.devices[k].name) {
      assert snapshot.devices[k].name != snapshot.devices[n].name;
    }
    forall k | 0 <= k < n ensures ScannedAt(c, s, r, snapshot, recoverIdle, k) {
      assert ScannedAt(c, s, q, snapshot, recoverIdle, k);
    }
  }

  lemma ScannedElsewhere(c: Config, s: State, q: map<string, QuarantineRecord>, r: map<string, QuarantineRecord>,
                         snapshot: Snapshot, recoverIdle: bool, names: set<string>)
    requires SameOutside(q, r, names) && names !! NamesOf(snapshot.devices)
    ensures ScannedTo(c, s, q, snapshot, recoverIdle, |snapshot.devices|) ==>
              ScannedTo(c, s, r, snapshot, recoverIdle, |snapshot.devices|)
  {
    if ScannedTo(c, s, q, snapshot, recoverIdle, |snapshot.devices|) {
      forall k | 0 <= k < |snapshot.devices| ensures ScannedAt(c, s, r, snapshot, recoverIdle, k) {
        assert ScannedAt(c, s, q, snapshot, recoverIdle, k);
        assert snapshot.devices[k].name in NamesOf(snapshot.devices);
      }
    }
  }

  /** Of the first `n` devices every unsafe one is in quarantine. */
  ghost predicate ScreenedTo(c: Config, devices: seq<InventoryDevice>, n: nat, q: set<string>)
    requires n <= |devices|
  {
    forall k :: 0 <= k < n && !SafeDevice(c, devices[k]) ==> devices[k].name in q
  }

  /** A reason to quarantine device `k` of the snapshot: it is unsafe, re-homed or new. */
  ghost predicate Blamed(c: Config, s: State, snapshot: Snapshot, recoverIdle: bool, k: nat)
    requires k < |snapshot.devices|
  {
    var d := snapshot.devices[k];
    var known := KnownAfter(s.known, snapshot.devices[..k], snapshot.observedAt);
    !SafeDevice(c, d) || Rehomed(known, d) || (recoverIdle && d.name !in known)
  }

  /** Whatever the scan of the first `n` devices put in quarantine had a reason. */
  ghost predicate BlamedTo(c: Config, s: State, q: set<string>, snapshot: Snapshot, recoverIdle: bool, n: nat)
    requires n <= |snapshot.devices|
  {
    forall m :: m in q && m !in s.quarantined ==>
      exists k :: 0 <= k < n && Blamed(c, s, snapshot, recoverIdle, k) && snapshot.devices[k].name == m
  }

  /** What the scan of one device does. */
  ghost predicate ScanTurn(c: Config, s: State, t: State, item: InventoryDevice, at: Option<int>, recoverIdle: bool) {
    && t == s.(quarantined := t.quarantined, known := s.known[item.name := KnownDevice(item.path, at)])
    && Grows(s.quarantined, t.quarantined) && SameOutside(s.quarantined, t.quarantined, {item.name})
    && MarkOf(t.quarantined, item.name) == ScanMark(c, s.known, MarkOf(s.quarantined, item.name), item, recoverIdle)
    && (!SafeDevice(c, item) ==> item.name in t.quarantined)
  }

  /** The scan of the first `n` devices, from state `s0` to `s`. */
  ghost predicate ScanProgress(c: Config, s0: State, s: State, snapshot: Snapshot, recoverIdle: bool, n: nat)
    requires n <= |snapshot.devices|
  {
    && s == s0.(quarantined := s.quarantined, known := KnownAfter(s0.known, snapshot.devices[..n], snapshot.observedAt))
    && Grows(s0.quarantined, s.quarantined) && ScreenedTo(c, snapshot.devices, n, s.quarantined.Keys)
    && BlamedTo(c, s0, s.quarantined.Keys, snapshot, recoverIdle, n)
    && (DistinctNames(snapshot) ==> ScannedTo(c, s0, s.quarantined, snapshot, recoverIdle, n))
  }

  lemma ScanProgresses(c: Config, s0: State, s: State, t: State, snapshot: Snapshot, recoverIdle: bool, n: nat)
    requires n < |snapshot.devices| && ScanProgress(c, s0, s, snapshot, recoverIdle, n)
    requires ScanTurn(c, s, t, snapshot.devices[n], snapshot.observedAt, recoverIdle)
    ensures ScanProgress(c, s0, t, snapshot, recoverIdle, n + 1)
  {
    assert snapshot.devices[..n + 1][..n] == snapshot.devices[..n];
    BlameOne(c, s0, s, t, snapshot, recoverIdle, n);
    if DistinctNames(snapshot) {
      assert ScannedAt(c, s0, t.quarantined, snapshot, recoverIdle, n);
      ScanStep(c, s0, s.quarantined, t.quarantined, snapshot, recoverIdle, n);
    }
  }

  lemma BlameOne(c: Config, s0: State, s: State, t: State, snapshot: Snapshot, recoverIdle: bool, n: nat)
    requires n < |snapshot.devices| && BlamedTo(c, s0, s.quarantined.Keys, snapshot, recoverIdle, n)
    requires s.known == KnownAfter(s0.known, snapshot.devices[..n], snapshot.observedAt)
    requires ScanTurn(c, s, t, snapshot.devices[n], snapshot.observedAt, recoverIdle)
    ensures BlamedTo(c, s0, t.quarantined.Keys, snapshot, recoverIdle, n + 1)
  {
    forall m | m in t.quarantined && m !in s0.quarantined
      ensures exists k :: 0 <= k < n + 1 && Blamed(c, s0, snapshot, recoverIdle, k) && snapshot.devices[k].name == m
    {
      if m !in s.quarantined {
        assert m == snapshot.devices[n].name && MarkOf(s.quarantined, m).None?;
        assert Blamed(c, s0, snapshot, recoverIdle, n);
      }
    }
  }

  /** No unsafe observed device left the quarantine. */
  ghost predicate UnsafeStay(c: Config, observed: map<string, InventoryDevice>, q: set<string>, now: set<string>) {
    forall n :: n in observed && n in q && !SafeDevice(c, observed[n]) ==> n in now
  }

  /** A safe device among `idle` is still in quarantine only if its recovery failed. */
  ghost predicate TriedOn(c: Config, observed: map<string, InventoryDevice>, idle: set<string>, q: set<string>,
                          call: Call, from: nat) {
    forall n :: n in idle && n in observed && observed[n].present && SafeDevice(c, observed[n]) && n in q ==>
      RecoveryFailed(call, from, n)
  }

  /** A quarantined device is recovered by a reset, unless only a healthy observation was missing. */
  ghost predicate NeedsReset(c: Config, m: Option<Mark>, item: InventoryDevice) {
    m.Some? && item.present && !(m.value.awaiting && SafeDevice(c, item))
  }

  /** The idle observed devices that the recovery loop resets. */
  ghost function DueSet(c: Config, q: map<string, QuarantineRecord>, observed: map<string, InventoryDevice>,
                        owned: set<string>): set<string> {
    set n | n in observed && n !in owned && NeedsReset(c, MarkOf(q, n), observed[n])
  }

  /** The same from the state before the pass. */
  ghost predicate ResetDue(c: Config, s: State, snapshot: Snapshot, k: nat)
    requires k < |snapshot.devices|
  {
    var d := snapshot.devices[k];
    && d.name !in OwnedNames(s.claims)
    && var known := KnownAfter(s.known, snapshot.devices[..k], snapshot.observedAt);
       NeedsReset(c, ScanMark(c, known, MarkOf(s.quarantined, d.name), d, true), d)
  }

  ghost function ScanDue(c: Config, s: State, snapshot: Snapshot): set<string> {
    set k | 0 <= k < |snapshot.devices| && ResetDue(c, s, snapshot, k) :: snapshot.devices[k].name
  }

  lemma ScanDueIsDue(c: Config, s: State, q: map<string, QuarantineRecord>, snapshot: Snapshot)
    requires DistinctNames(snapshot) && ScannedTo(c, s, q, snapshot, true, |snapshot.devices|)
    ensures DueSet(c, q, ByName(snapshot.devices), OwnedNames(s.claims)) == ScanDue(c, s, snapshot)
  {
    var observed := ByName(snapshot.devices);
    ByNameMembers(snapshot.devices);
    forall k | 0 <= k < |snapshot.devices| ensures
      snapshot.devices[k].name in DueSet(c, q, observed, OwnedNames(s.claims)) <==> ResetDue(c, s, snapshot, k)
    {
      assert snapshot.devices[k] in snapshot.devices;
      ByNameDistinct(snapshot, snapshot.devices[k]);
      assert ScannedAt(c, s, q, snapshot, true, k);
    }
    forall n | n in DueSet(c, q, observed, OwnedNames(s.claims)) ensures n in ScanDue(c, s, snapshot) {
      var k :| 0 <= k < |snapshot.devices| && snapshot.devices[k] == observed[n];
    }
  }

  ghost predicate WasReset(call: Call, from: nat, n: string) {
    exists i :: from <= i < |call| && call[i].step.Reset? && call[i].step.device == n
  }

  /** Since `from` exactly the devices in `due` were reset, each at the path it was observed at. */
  ghost predicate ResetsMatch(call: Call, from: nat, observed: map<string, InventoryDevice>, due: set<string>) {
    && (forall i :: from <= i < |call| && call[i].step.Reset? ==>
          && call[i].step.device in due && call[i].step.device in observed
          && call[i].step.path == observed[call[i].step.device].path)
    && (forall n :: n in due ==> WasReset(call, from, n))
  }

  lemma ResetsMatchQuietly(call: Call, later: Call, from: nat, observed: map<string, InventoryDevice>, due: set<string>)
    requires call <= later && from <= |call| && ResetsMatch(call, from, observed, due)
    requires forall i :: |call| <= i < |later| ==> !later[i].step.Reset?
    ensures ResetsMatch(later, from, observed, due)
  {
    forall n | n in due ensures WasReset(later, from, n) {
      var i :| from <= i < |call| && call[i].step.Reset? && call[i].step.device == n;
      assert later[i] == call[i];
    }
  }

  lemma ResetsMatchEarlier(call: Call, from: nat, since: nat, observed: map<string, InventoryDevice>, due: set<string>)
    requires from <= since <= |call| && ResetsMatch(call, since, observed, due)
    requires forall i :: from <= i < since ==> !call[i].step.Reset?
    ensures ResetsMatch(call, from, observed, due)
  {
    forall n | n in due ensures WasReset(call, from, n) {
      var i :| since <= i < |call| && call[i].step.Reset? && call[i].step.device == n;
    }
  }

  lemma ResetsMatchStep(call: Call, later: Call, from: nat, observed: map<string, InventoryDevice>, due: set<string>,
                        n: string, reset: bool)
    requires call <= later && from <= |call| && ResetsMatch(call, from, observed, due) && n in observed
    requires forall i :: |call| <= i < |later| && later[i].step.Reset? ==>
               reset && later[i].step.device == n && later[i].step.path == observed[n].path
    requires reset ==> WasReset(later, |call|, n)
    ensures ResetsMatch(later, from, observed, if reset then due + {n} else due)
  {
    forall m | m in due ensures WasReset(later, from, m) {
      var i :| from <= i < |call| && call[i].step.Reset? && call[i].step.device == m;
      assert later[i] == call[i];
    }
    if reset {
      var i :| |call| <= i < |later| && later[i].step.Reset? && later[i].step.device == n;
    }
  }

  /** Whatever happens to the record of a device that was cleanly reset. */
  lemma ResetMoves(q: Quarantine, r: Quarantine, call: Call, from: nat, name: string)
    requires ResetIn(call, from, name) && SameOutside(q, r, {name})
    ensures Moves(q, r, call, from)
  {
    forall n ensures Moved(q, r, call, from, n) {
    }
  }

  /** What one turn of the recovery loop does for `name`. */
  ghost predicate Turn(c: Config, q: map<string, QuarantineRecord>, r: map<string, QuarantineRecord>, call: Call,
                       later: Call, name: string, item: InventoryDevice, owned: bool) {
    && call <= later && SameOutside(q, r, if owned then {} else {name}) && Moves(q, r, later, |call|)
    && r.Keys <= q.Keys
    && (!SafeDevice(c, item) && name in q ==> name in r)
    && (!owned && item.present && SafeDevice(c, item) && name in r ==> RecoveryFailed(later, |call|, name))
    && (!owned && NeedsReset(c, MarkOf(q, name), item) ==> WasReset(later, |call|, name))
    && (forall i :: |call| <= i < |later| && later[i].step.Reset? ==>
          && !owned && NeedsReset(c, MarkOf(q, name), item) && later[i].step.device == name
          && later[i].step.path == item.path)
  }

  /** The recovery loop, with the devices in `rest` still to come. */
  ghost predicate RecoveredTo(c: Config, observed: map<string, InventoryDevice>, owned: set<string>,
                              q0: map<string, QuarantineRecord>, q: map<string, QuarantineRecord>, call: Call,
                              from: nat, rest: set<string>) {
    && SameOutside(q0, q, observed.Keys - owned - rest) && Moves(q0, q, call, from) && q.Keys <= q0.Keys
    && UnsafeStay(c, observed, q0.Keys, q.Keys)
    && TriedOn(c, observed, observed.Keys - owned - rest, q.Keys, call, from)
    && ResetsMatch(call, from, observed, DueSet(c, q0, observed, owned) - rest)
  }

  lemma RecoverTurn(c: Config, observed: map<string, InventoryDevice>, owned: set<string>,
                    q0: map<string, QuarantineRecord>, q: map<string, QuarantineRecord>,
                    r: map<string, QuarantineRecord>, call: Call, later: Call, from: nat, rest: set<string>,
                    name: string)
    requires RecoveredTo(c, observed, owned, q0, q, call, from, rest) && from <= |call| && name in rest
    requires name in observed
    requires Turn(c, q, r, call, later, name, observed[name], name in owned)
    ensures RecoveredTo(c, observed, owned, q0, r, later, from, rest - {name})
  {
    var due := DueSet(c, q0, observed, owned);
    assert MarkOf(q, name) == MarkOf(q0, name);
    MovesTrans(q0, q, r, call, later, from);
    ResetsMatchStep(call, later, from, observed, due - rest, name, name in due);
    assert due - (rest - {name}) == if name in due then due - rest + {name} else due - rest;
    TriedTurn(c, observed, observed.Keys - owned - rest, q, r, call, later, from, name, name in owned);
    TriedFewer(c, observed, observed.Keys - owned - rest + if name in owned then {} else {name},
               observed.Keys - owned - (rest - {name}), r.Keys, later, from);
  }

  lemma TriedTurn(c: Config, observed: map<string, InventoryDevice>, idle: set<string>,
                  q: map<string, QuarantineRecord>, r: map<string, QuarantineRecord>, call: Call, later: Call,
                  from: nat, name: string, owned: bool)
    requires TriedOn(c, observed, idle, q.Keys, call, from) && from <= |call| && name in observed && name !in idle
    requires Turn(c, q, r, call, later, name, observed[name], owned)
    ensures TriedOn(c, observed, idle + if owned then {} else {name}, r.Keys, later, from)
  {
    RecoveryFailuresStay(call, later, from);
    forall n | n in idle && n in observed && observed[n].present && SafeDevice(c, observed[n]) && n in r
      ensures RecoveryFailed(later, from, n)
    {
      assert n in q && RecoveryFailed(call, from, n);
    }
  }

  lemma TriedFewer(c: Config, observed: map<string, InventoryDevice>, more: set<string>, idle: set<string>,
                   q: set<string>, call: Call, from: nat)
    requires TriedOn(c, observed, more, q, call, from) && idle <= more
    ensures TriedOn(c, observed, idle, q, call, from)
  {
  }

  // ---- A whole pass ----

  /** The devices a pass may reset or release from quarantine. */
  ghost function IdleNames(s: State, snapshot: Snapshot, recoverIdle: bool): set<string> {
    if recoverIdle then NamesOf(snapshot.devices) - OwnedNames(s.claims) else {}
  }

  /** Every unsafe device of the snapshot is in quarantine. */
  ghost predicate Screened(c: Config, snapshot: Snapshot, q: set<string>) {
    forall d :: d in snapshot.devices && !SafeDevice(c, d) ==> d.name in q
  }

  /** An idle, safe device is in quarantine only if its recovery failed since `from`. */
  ghost predicate RecoveryTried(c: Config, s: State, snapshot: Snapshot, call: Call, from: nat) {
    forall d :: d in snapshot.devices && d.name !in OwnedNames(s.claims) && SafeDevice(c, d) && d.name in s.quarantined
      ==> RecoveryFailed(call, from, d.name)
  }

  /** The resets of a pass over `snapshot` that began in state `s`. */
  ghost predicate PassResets(c: Config, s: State, snapshot: Snapshot, recoverIdle: bool, call: Call, from: nat) {
    && ResetsOnly(call, from, IdleNames(s, snapshot, recoverIdle))
    && (DistinctNames(snapshot) && recoverIdle ==>
          ResetsMatch(call, from, ByName(snapshot.devices), ScanDue(c, s, snapshot)))
  }

  /** `n` is in the quarantine `q` and was not before: it is known but missing, or was observed with a fault. */
  ghost predicate HeldWithReason(c: Config, s: State, q: set<string>, snapshot: Snapshot, recoverIdle: bool,
                                 n: string) {
    n in q && n !in s.quarantined ==>
      || (n in s.known && n !in NamesOf(snapshot.devices))
      || exists k :: 0 <= k < |snapshot.devices| && Blamed(c, s, snapshot, recoverIdle, k)
                     && snapshot.devices[k].name == n
  }

  /** A device that may not be recovered is in quarantine exactly as the scan left it. */
  ghost predicate HeldAsScanned(c: Config, s: State, q: map<string, QuarantineRecord>, snapshot: Snapshot,
                                recoverIdle: bool) {
    forall k :: 0 <= k < |snapshot.devices| && snapshot.devices[k].name !in IdleNames(s, snapshot, recoverIdle) ==>
      ScannedAt(c, s, q, snapshot, recoverIdle, k)
  }

  lemma StillAsScanned(c: Config, s: State, q: map<string, QuarantineRecord>, r: map<string, QuarantineRecord>,
                       snapshot: Snapshot, recoverIdle: bool)
    requires ScannedTo(c, s, q, snapshot, recoverIdle, |snapshot.devices|)
    requires SameOutside(q, r, IdleNames(s, snapshot, recoverIdle))
    ensures HeldAsScanned(c, s, r, snapshot, recoverIdle)
  {
    forall k | 0 <= k < |snapshot.devices| && snapshot.devices[k].name !in IdleNames(s, snapshot, recoverIdle)
      ensures ScannedAt(c, s, r, snapshot, recoverIdle, k)
    {
      assert ScannedAt(c, s, q, snapshot, recoverIdle, k);
    }
  }

  /**
   * What a pass makes of state `s`: only idle devices leave the quarantine, unsafe and missing ones are in it, and
   * nothing else enters it.
   */
  ghost predicate PassState(c: Config, s: State, t: State, snapshot: Snapshot, recoverIdle: bool) {
    && t == s.(quarantined := t.quarantined, known := KnownAfter(s.known, snapshot.devices, snapshot.observedAt))
    && t.known.Keys == s.known.Keys + NamesOf(snapshot.devices) && ReasonsGiven(t.quarantined)
    && s.quarantined.Keys - t.quarantined.Keys <= IdleNames(s, snapshot, recoverIdle)
    && t.known.Keys - NamesOf(snapshot.devices) <= t.quarantined.Keys
    && (DistinctNames(snapshot) ==>
          Screened(c, snapshot, t.quarantined.Keys) && HeldAsScanned(c, s, t.quarantined, snapshot, recoverIdle))
    && (forall n :: HeldWithReason(c, s, t.quarantined.Keys, snapshot, recoverIdle, n))
  }

  /** `observeLocked` from state `s` to `t`, with the steps from `from` on. */
  ghost predicate Pass(c: Config, s: State, t: State, snapshot: Snapshot, recoverIdle: bool, call: Call, from: nat) {
    && PassState(c, s, t, snapshot, recoverIdle) && Moves(s.quarantined, t.quarantined, call, from)
    && PassResets(c, s, snapshot, recoverIdle, call, from)
    && (DistinctNames(snapshot) && recoverIdle ==> RecoveryTried(c, t, snapshot, call, from))
  }

  /** What the first two loops of `observeLocked` make of state `s`. */
  ghost predicate Scanned(c: Config, s: State, t: State, snapshot: Snapshot, recoverIdle: bool) {
    && t == s.(quarantined := t.quarantined, known := KnownAfter(s.known, snapshot.devices, snapshot.observedAt))
    && t.known.Keys == s.known.Keys + NamesOf(snapshot.devices)
    && t.known.Keys - NamesOf(snapshot.devices) <= t.quarantined.Keys
    && Grows(s.quarantined, t.quarantined) && ReasonsGiven(t.quarantined)
    && (forall n :: HeldWithReason(c, s, t.quarantined.Keys, snapshot, recoverIdle, n))
    && Screened(c, snapshot, t.quarantined.Keys)
    && (DistinctNames(snapshot) ==> ScannedTo(c, s, t.quarantined, snapshot, recoverIdle, |snapshot.devices|))
  }

  /** The scan, and then the quarantine of whatever is known and missing. */
  lemma ScanThenMissing(c: Config, s: State, t: State, u: State, snapshot: Snapshot, recoverIdle: bool)
    requires ScanProgress(c, s, t, snapshot, recoverIdle, |snapshot.devices|)
    requires u == t.(quarantined := u.quarantined) && Grows(t.quarantined, u.quarantined) && ReasonsGiven(u.quarantined)
    requires forall n :: n in u.quarantined <==>
               n in t.quarantined || (n in t.known && n !in NamesOf(snapshot.devices))
    requires SameOutside(t.quarantined, u.quarantined, t.known.Keys - NamesOf(snapshot.devices))
    ensures Scanned(c, s, u, snapshot, recoverIdle)
  {
    assert snapshot.devices[..|snapshot.devices|] == snapshot.devices;
    KnownAfterKeys(s.known, snapshot.devices, snapshot.observedAt);
    if DistinctNames(snapshot) {
      ScannedElsewhere(c, s, t.quarantined, u.quarantined, snapshot, recoverIdle,
                       t.known.Keys - NamesOf(snapshot.devices));
    }
    forall n ensures HeldWithReason(c, s, u.quarantined.Keys, snapshot, recoverIdle, n) {
    }
  }

  /** What the recovery loop then makes of it, with the steps from `from` on. */
  ghost predicate Thinned(c: Config, s: State, t: State, snapshot: Snapshot, recoverIdle: bool, call: Call, from: nat) {
    && t == s.(quarantined := t.quarantined) && ReasonsGiven(t.quarantined)
    && t.quarantined.Keys <= s.quarantined.Keys
    && SameOutside(s.quarantined, t.quarantined, IdleNames(s, snapshot, recoverIdle))
    && t.known.Keys - NamesOf(snapshot.devices) <= t.quarantined.Keys
    && Moves(s.quarantined, t.quarantined, call, from)
    && (DistinctNames(snapshot) ==> Screened(c, snapshot, t.quarantined.Keys))
    && (DistinctNames(snapshot) && recoverIdle ==> RecoveryTried(c, t, snapshot, call, from))
    && ResetsMatch(call, from, ByName(snapshot.devices),
                   if recoverIdle then DueSet(c, s.quarantined, ByName(snapshot.devices), OwnedNames(s.claims)) else {})
  }

  lemma PassInTwo(c: Config, s: State, t: State, u: State, snapshot: Snapshot, recoverIdle: bool, call: Call, from: nat)
    requires Scanned(c, s, t, snapshot, recoverIdle) && Thinned(c, t, u, snapshot, recoverIdle, call, from)
    ensures Pass(c, s, u, snapshot, recoverIdle, call, from)
  {
    GrowsThenMoves(s.quarantined, t.quarantined, u.quarantined, call, from);
    ByNameMembers(snapshot.devices);
    if DistinctNames(snapshot) {
      StillAsScanned(c, s, t.quarantined, u.quarantined, snapshot, recoverIdle);
      if recoverIdle {
        ScanDueIsDue(c, s, t.quarantined, snapshot);
      }
    }
    forall n ensures HeldWithReason(c, s, u.quarantined.Keys, snapshot, recoverIdle, n) {
      assert HeldWithReason(c, s, t.quarantined.Keys, snapshot, recoverIdle, n);
    }
  }

  /** The call reloaded its state. */
  ghost predicate WasReloaded(call: Call) { call != [] && call[0].step.Reloaded? && call[0].step.ok }

  /** The degraded view: the last observation if and only if it is still recent, else nothing. */
  ghost predicate DegradedView(c: Config, last: Snapshot, t: State, filtered: Snapshot, now: int) {
    if FreshAt(last, c.maxInventoryAge, now) then filtered == Filter(last, t.quarantined)
    else filtered.devices == [] && t.known.Keys <= t.quarantined.Keys
  }

  /** What `Monitor` publishes of a recent snapshot. */
  ghost predicate FreshView(snapshot: Snapshot, t: State, filtered: Snapshot, safety: Safety) {
    && filtered == Filter(snapshot, t.quarantined)
    && safety == Safety(safety.healthy == 0, CountAvailable(filtered.devices, t.quarantined), |t.known|)
  }

  /** Steps that reset nothing, before or after, do not change what a pass did. */
  lemma PassQuietly(c: Config, s: State, t: State, snapshot: Snapshot, recoverIdle: bool, call: Call, later: Call,
                    from: nat, since: nat)
    requires Pass(c, s, t, snapshot, recoverIdle, call, since) && call <= later && from <= since <= |call|
    requires forall i :: |call| <= i < |later| ==> !later[i].step.Reset?
    requires forall i :: from <= i < since ==> !later[i].step.Reset?
    ensures Pass(c, s, t, snapshot, recoverIdle, later, from)
  {
    assert forall i :: 0 <= i < |call| ==> call[i] == later[i];
    MovesMonotone(s.quarantined, t.quarantined, call, later, since, from);
    if DistinctNames(snapshot) && recoverIdle {
      ResetsMatchQuietly(call, later, since, ByName(snapshot.devices), ScanDue(c, s, snapshot));
      ResetsMatchEarlier(later, from, since, ByName(snapshot.devices), ScanDue(c, s, snapshot));
      TriedQuietly(c, t, snapshot, call, later, from, since);
    }
  }

  lemma PassAppend(c: Config, s: State, t: State, snapshot: Snapshot, recoverIdle: bool, call: Call, e: Entry,
                   from: nat)
    requires Pass(c, s, t, snapshot, recoverIdle, call, from) && from <= |call| && !e.step.Reset?
    ensures Pass(c, s, t, snapshot, recoverIdle, call + [e], from)
  {
    PassQuietly(c, s, t, snapshot, recoverIdle, call, call + [e], from, from);
  }

  lemma TriedQuietly(c: Config, s: State, snapshot: Snapshot, call: Call, later: Call, from: nat, since: nat)
    requires RecoveryTried(c, s, snapshot, call, since) && call <= later && from <= since
    ensures RecoveryTried(c, s, snapshot, later, from)
  {
    RecoveryFailuresStay(call, later, since);
    RecoveryFailuresStay(later, later, from);
  }

  /** The paths that the CDI files of recorded claims expose. */
  function ClaimedPaths(claims: Claims): set<string> {
    set uid, d | uid in claims && d in claims[uid].devices :: d.path
  }

  ghost predicate ResetsPath(call: Call, path: string) {
    exists i :: 0 <= i < |call| && call[i].step.Reset? && call[i].step.path == path
  }

  /** A pass resets a claimed path if and only if a device due for a reset was observed there. */
  lemma ClaimedPathsSparedIff(c: Config, s: State, snapshot: Snapshot, call: Call)
    requires DistinctNames(snapshot) && ResetsMatch(call, 0, ByName(snapshot.devices), ScanDue(c, s, snapshot))
    ensures (forall path :: path in ClaimedPaths(s.claims) ==> !ResetsPath(call, path)) <==>
            (forall k :: 0 <= k < |snapshot.devices| && ResetDue(c, s, snapshot, k) ==>
               snapshot.devices[k].path !in ClaimedPaths(s.claims))
  {
    forall k | 0 <= k < |snapshot.devices| && ResetDue(c, s, snapshot, k)
      ensures ResetsPath(call, snapshot.devices[k].path) {
      DueIsReset(c, s, snapshot, call, k);
    }
    forall path | ResetsPath(call, path)
      ensures exists k :: 0 <= k < |snapshot.devices| && ResetDue(c, s, snapshot, k) && snapshot.devices[k].path == path
    {
      var k := ResetWasDue(c, s, snapshot, call, path);
    }
  }

  lemma DueIsReset(c: Config, s: State, snapshot: Snapshot, call: Call, k: nat)
    requires DistinctNames(snapshot) && ResetsMatch(call, 0, ByName(snapshot.devices), ScanDue(c, s, snapshot))
    requires k < |snapshot.devices| && ResetDue(c, s, snapshot, k)
    ensures ResetsPath(call, snapshot.devices[k].path)
  {
    assert snapshot.devices[k] in snapshot.devices && snapshot.devices[k].name in ScanDue(c, s, snapshot);
    ByNameDistinct(snapshot, snapshot.devices[k]);
    var i :| 0 <= i < |call| && call[i].step.Reset? && call[i].step.device == snapshot.devices[k].name;
  }

  lemma ResetWasDue(c: Config, s: State, snapshot: Snapshot, call: Call, path: string) returns (k: nat)
    requires DistinctNames(snapshot) && ResetsMatch(call, 0, ByName(snapshot.devices), ScanDue(c, s, snapshot))
    requires ResetsPath(call, path)
    ensures k < |snapshot.devices| && ResetDue(c, s, snapshot, k) && snapshot.devices[k].path == path
  {
    var i :| 0 <= i < |call| && call[i].step.Reset? && call[i].step.path == path;
    k :| 0 <= k < |snapshot.devices| && ResetDue(c, s, snapshot, k) && snapshot.devices[k].name == call[i].step.device;
    assert snapshot.devices[k] in snapshot.devices;
    ByNameDistinct(snapshot, snapshot.devices[k]);
  }

  /** A new identity, even at the path of a claimed device, is due for a reset there. */
  lemma NewIdentityIsDue(c: Config, s: State, snapshot: Snapshot, k: nat)
    requires DistinctNames(snapshot) && k < |snapshot.devices| && snapshot.devices[k].present
    requires snapshot.devices[k].name !in OwnedNames(s.claims) + s.known.Keys + s.quarantined.Keys
    ensures ResetDue(c, s, snapshot, k)
  {
    KnownAfterKeys(s.known, snapshot.devices[..k], snapshot.observedAt);
  }

  lemma {:induction false} KnownAfterKeys(known: map<string, KnownDevice>, devices: seq<InventoryDevice>,
                                          at: Option<int>)
    ensures KnownAfter(known, devices, at).Keys == known.Keys + NamesOf(devices)
  {
    if devices != [] {
      var init, last := devices[..|devices| - 1], devices[|devices| - 1];
      KnownAfterKeys(known, init, at);
      assert devices == init + [last];
    }
  }

  /** Quarantine records outside `names` are as before. */
  ghost predicate SameOutside(q: map<string, QuarantineRecord>, r: map<string, QuarantineRecord>, names: set<string>) {
    forall n :: n !in names ==> (n in q <==> n in r) && (n in q ==> q[n] == r[n])
  }

  predicate Available(d: InventoryDevice, q: map<string, QuarantineRecord>) {
    d.name !in q && d.eligible && d.health == Healthy
  }

  function CountAvailable(devices: seq<InventoryDevice>, q: map<string, QuarantineRecord>): nat {
    if devices == [] then 0
    else CountAvailable(devices[..|devices| - 1], q) + if Available(devices[|devices| - 1], q) then 1 else 0
  }

  lemma RecoveryFailuresStay(call: Call, later: Call, from: nat)
    requires call <= later
    ensures forall n :: RecoveryFailed(call, from, n) ==> RecoveryFailed(later, from, n)
    ensures forall n, more: nat :: from <= more && RecoveryFailed(later, more, n) ==> RecoveryFailed(later, from, n)
  {
  }
}
