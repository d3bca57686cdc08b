/** Claim records, the durable world, and the laws every run of the node agent obeys. */
module Lifecycle {
  import opened Api
  import opened Inventory

  datatype Phase = Preparing | Prepared | Releasing | Recovered

  datatype ClaimDevice = ClaimDevice(
    requests: seq<string>, pool: string, device: string, stableID: string, path: string,
    major: nat, minor: nat, cdiID: string)

  datatype PreparedClaim = PreparedClaim(uid: string, namespace: string, name: string, phase: Phase,
                                         devices: seq<ClaimDevice>)

  datatype QuarantineRecord = QuarantineRecord(reason: string, since: int, awaitingHealth: bool)

  datatype KnownDevice = KnownDevice(path: string, lastSeen: Option<int>)

  type Claims = map<string, PreparedClaim>

  const STATE_VERSION := 4

  /** `persistedState`. */
  datatype State = State(
    version: int, claims: Claims, quarantined: map<string, QuarantineRecord>, known: map<string, KnownDevice>)

  /** Decoding JSON over live maps: an entry on disk replaces the one in memory, others stay. */
  function Merge(s: State, disk: State): State {
    State(disk.version, s.claims + disk.claims, s.quarantined + disk.quarantined, s.known + disk.known)
  }

  /** Before version 4 every recorded claim was a prepared one. */
  function Migrate(s: State): State {
    if 1 <= s.version < STATE_VERSION then
      s.(version := STATE_VERSION, claims := map uid | uid in s.claims :: s.claims[uid].(phase := Prepared))
    else s
  }

  datatype CDIDevice = CDIDevice(cdiID: string, path: string, major: nat, minor: nat)

  type CDISpec = seq<CDIDevice>

  /** What survives a crash: the state file and the CDI file of each claim UID. */
  datatype World = World(disk: Option<State>, cdi: map<string, CDISpec>)

  type Quarantine = map<string, QuarantineRecord>

  function DiskQuarantine(w: World): Quarantine { if w.disk.Some? then w.disk.value.quarantined else map[] }

  function DiskClaims(w: World): Claims { if w.disk.Some? then w.disk.value.claims else map[] }

  /** The actions of the audit log. */
  datatype Action =
    | StateRecovery | StartupRecovery | InventoryDegraded
    | Hotplug | ActiveHealth | IdleHealth | RecoveryHealth | RecoverySanitize
    | ClaimPrepareIntent | PreflightSanitize | PreflightVerify | ClaimPrepare
    | ClaimReleaseIntent | PostflightSanitize | ClaimRelease

  datatype AuditEvent = AuditEvent(action: Action, outcome: string, device: string, path: string, claimUID: string,
                                   reason: string)

  datatype PreparedDevice = PreparedDevice(requests: seq<string>, pool: string, device: string, cdiIDs: seq<string>)

  /** `cdiID`. */
  function CDIID(uid: string, device: string): string {
    "tenstorrent.com/accelerator=" + uid + "-" + ReplaceSlashes(device)
  }

  function ReplaceSlashes(s: string): string {
    if s == [] then [] else [if s[0] == '/' then '-' else s[0]] + ReplaceSlashes(s[1..])
  }

  lemma DashedCollideIff(u: string, d: string, v: string, e: string)
    requires |u| <= |v|
    ensures u + "-" + d == v + "-" + e <==> (u == v && d == e) || exists x :: v == u + "-" + x && d == x + "-" + e
  {
    var a, b := u + "-" + d, v + "-" + e;
    forall x | v == u + "-" + x && d == x + "-" + e ensures a == b {
      assert a == u + "-" + (x + "-" + e);
    }
    if a == b {
      assert a[..|u|] == u && b[..|u|] == v[..|u|] && a[|u| + 1..] == d;
      if |u| == |v| {
        assert b[|v| + 1..] == e;
      } else {
        var x := v[|u| + 1..];
        assert a[|u|] == '-' && b[|u|] == v[|u|];
        assert v == u + "-" + x && b[|u| + 1..] == x + "-" + e;
      }
    }
  }

  lemma PrefixedSame(k: string, u: string, d: string, v: string, e: string)
    ensures k + u + "-" + d == k + v + "-" + e <==> u + "-" + d == v + "-" + e
  {
    var a, b := u + "-" + d, v + "-" + e;
    assert k + u + "-" + d == k + a && k + v + "-" + e == k + b;
    assert (k + a)[|k|..] == a && (k + b)[|k|..] == b;
  }

  /**
   * Two CDI IDs collide if and only if UID and device name read the same up to slashes, or the one UID goes on with a
   * dash where the other ends and the device names make up for it. UIDs of one length never do.
   */
  lemma CDIIDsCollideIff(u: string, d: string, v: string, e: string)
    requires |u| <= |v|
    ensures CDIID(u, d) == CDIID(v, e) <==>
              || (u == v && ReplaceSlashes(d) == ReplaceSlashes(e))
              || exists x :: v == u + "-" + x && ReplaceSlashes(d) == x + "-" + ReplaceSlashes(e)
  {
    PrefixedSame("tenstorrent.com/accelerator=", u, ReplaceSlashes(d), v, ReplaceSlashes(e));
    DashedCollideIff(u, ReplaceSlashes(d), v, ReplaceSlashes(e));
  }

  /** The file `writeCDI` writes for a claim. */
  function SpecOf(c: PreparedClaim): CDISpec {
    seq(|c.devices|, i requires 0 <= i < |c.devices| =>
      CDIDevice(c.devices[i].cdiID, c.devices[i].path, c.devices[i].major, c.devices[i].minor))
  }

  /** `cdiResults`. */
  function Results(c: PreparedClaim): seq<PreparedDevice> {
    seq(|c.devices|, i requires 0 <= i < |c.devices| =>
      PreparedDevice(c.devices[i].requests, c.devices[i].pool, c.devices[i].device, [c.devices[i].cdiID]))
  }

  function DeviceNames(devices: seq<ClaimDevice>): set<string> { set d | d in devices :: d.device }

  function Names(c: PreparedClaim): set<string> { DeviceNames(c.devices) }

  /** The devices each claim has on record. */
  function Recorded(claims: Claims): map<string, seq<ClaimDevice>> { map uid | uid in claims :: claims[uid].devices }

  function OwnedNames(claims: Claims): set<string> {
    set uid, d | uid in claims && d in claims[uid].devices :: d.device
  }

  // ---- Runs ----

  /** One externally visible step, with its reported outcome; `Looked` is what discovery reported, and when. */
  datatype Step =
    | Started
    | Reloaded(ok: bool, quarantined: Quarantine, known: map<string, KnownDevice>)
    | Looked(seen: Option<Snapshot>, now: int)
    | Persisted(ok: bool)
    | WroteCDI(claim: PreparedClaim, ok: bool)
    | RemovedCDI(uid: string, ok: bool)
    | Audited(event: AuditEvent, ok: bool)
    | Reset(device: string, path: string, ok: bool)
    | Observed(snapshot: Snapshot)
    | Promoted(claim: PreparedClaim)
    | SetAside(ok: bool)

  datatype Entry = Entry(step: Step, before: World, after: World)

  /** What a step does to the durable world: a reported failure leaves a file old or new, all else changes nothing. */
  ghost predicate Effective(e: Entry) {
    match e.step
    case Persisted(ok) => e.after.cdi == e.before.cdi && (e.after.disk.Some? || (!ok && e.after == e.before))
    case WroteCDI(c, ok) =>
      e.after == e.before.(cdi := e.before.cdi[c.uid := SpecOf(c)]) || (!ok && e.after == e.before)
    case RemovedCDI(uid, ok) => e.after == e.before.(cdi := e.before.cdi - {uid}) || (!ok && e.after == e.before)
    case SetAside(ok) => e.after == if ok then e.before.(disk := None) else e.before
    case _ => e.after == e.before
  }

  /** The steps one call has taken so far; the first is the reload that opens it. */
  type Call = seq<Entry>

  ghost predicate EndsAt(call: Call, w: World) { call != [] && call[|call| - 1].after == w }

  ghost predicate BeginsAt(call: Call, w: World) { call != [] && call[0].before == w }

  /** Every CDI file has its claim record in the state file. */
  ghost predicate Safe(w: World) { w.cdi.Keys <= DiskClaims(w).Keys }

  /** The state file decodes and has a supported version. */
  predicate Readable(w: World) { w.disk.Some? ==> 1 <= w.disk.value.version <= STATE_VERSION }

  /** The state file is one this agent could have written. */
  ghost predicate WellFormed(w: World) {
    Readable(w) && KeysOk(DiskClaims(w)) && (w.disk.Some? ==> ReasonsGiven(w.disk.value.quarantined))
  }

  /** A reset of `d` that succeeded and was audited, at `i`. */
  ghost predicate CleanReset(call: Call, i: nat, d: ClaimDevice, action: Action) {
    && i + 1 < |call|
    && call[i].step.Reset? && call[i].step.device == d.device && call[i].step.ok
    && call[i + 1].step.Audited? && call[i + 1].step.ok
    && call[i + 1].step.event.action == action && call[i + 1].step.event.device == d.device
  }

  /** ... while the claim was on record in the state file. */
  ghost predicate PreflightReset(call: Call, i: nat, d: ClaimDevice, uid: string) {
    CleanReset(call, i, d, PreflightSanitize) && call[i].step.path == d.path && uid in DiskClaims(call[i].before)
  }

  ghost predicate ResetBefore(call: Call, bound: nat, d: ClaimDevice, uid: string) {
    exists i: nat :: i + 1 < bound && PreflightReset(call, i, d, uid)
  }

  /** The device was seen again, eligible, healthy and with the same identity. */
  ghost predicate SeenHealthy(s: Snapshot, d: ClaimDevice) {
    exists item ::
      && item in s.devices && item.name == d.device && item.eligible && item.health == Healthy
      && item.stableID == d.stableID
  }

  /**
   * Recorded, then reset and audited, then verified, then given a CDI file, then approved: in this order, in this call.
   */
  ghost predicate Exposable(call: Call, c: PreparedClaim) {
    exists v: nat, w: nat :: ExposedVia(call, c, v, w)
  }

  ghost predicate ExposedVia(call: Call, c: PreparedClaim, v: nat, w: nat) {
    && v < w && w + 1 < |call|
    && (forall d :: d in c.devices ==> ResetBefore(call, v, d, c.uid))
    && call[v].step.Observed? && (forall d :: d in c.devices ==> SeenHealthy(call[v].step.snapshot, d))
    && call[w].step.WroteCDI? && call[w].step.ok && call[w].step.claim.uid == c.uid
    && call[w].step.claim.devices == c.devices
    && call[w + 1].step.Audited? && call[w + 1].step.ok
    && call[w + 1].step.event.action == ClaimPrepare && call[w + 1].step.event.claimUID == c.uid
  }

  /** The call has just seen every device of the claim healthy, after resetting each. */
  ghost predicate ReadyToExpose(call: Call, c: PreparedClaim) {
    && call != [] && call[|call| - 1].step.Observed?
    && (forall d :: d in c.devices ==> SeenHealthy(call[|call| - 1].step.snapshot, d))
    && (forall d :: d in c.devices ==> ResetBefore(call, |call| - 1, d, c.uid))
  }

  /** Before `bound` this call observed the device at this path. */
  ghost predicate PathSeen(call: Call, bound: nat, device: string, path: string) {
    exists v: nat, k: nat :: PathSeenAt(call, bound, device, path, v, k)
  }

  ghost predicate PathSeenAt(call: Call, bound: nat, device: string, path: string, v: nat, k: nat) {
    && v < bound && v < |call| && call[v].step.Observed? && k < |call[v].step.snapshot.devices|
    && call[v].step.snapshot.devices[k].name == device && call[v].step.snapshot.devices[k].path == path
  }

  /** A reset after use that succeeded and was audited, at the path the device was just observed at. */
  ghost predicate PostflightReset(call: Call, i: nat, d: ClaimDevice) {
    CleanReset(call, i, d, PostflightSanitize) && PathSeen(call, i, d.device, call[i].step.path)
  }

  ghost predicate ResetAfterUse(call: Call, bound: nat, d: ClaimDevice) {
    exists i: nat :: i + 1 < bound && PostflightReset(call, i, d)
  }

  /** Every device reset and audited in this call, then the CDI file removed. */
  ghost predicate Released(call: Call, uid: string, c: PreparedClaim) {
    exists r: nat ::
      r < |call| && call[r].step == RemovedCDI(uid, true) && forall d :: d in c.devices ==> ResetAfterUse(call, r, d)
  }

  /** The record came on file by an intent whose write was reported as failed earlier in this call. */
  ghost predicate FailedIntent(call: Call, uid: string, c: PreparedClaim) {
    c.phase == Preparing && exists i: nat :: FailedIntentAt(call, uid, i)
  }

  ghost predicate FailedIntentAt(call: Call, uid: string, i: nat) {
    && i < |call| && call[i].step == Persisted(false)
    && uid !in DiskClaims(call[i].before) && uid in DiskClaims(call[i].after) && uid !in call[i].after.cdi
  }

  ghost predicate Droppable(call: Call, uid: string, c: PreparedClaim) {
    Released(call, uid, c) || FailedIntent(call, uid, c)
  }

  /** The record of `uid` is gone, or names other devices. */
  ghost predicate Lost(before: Claims, after: Claims, uid: string) {
    uid in before && (uid !in after || after[uid].devices != before[uid].devices)
  }

  ghost predicate PreparedOnFile(w: World, uid: string, devices: seq<ClaimDevice>) {
    uid in DiskClaims(w) && DiskClaims(w)[uid].phase == Prepared && DiskClaims(w)[uid].devices == devices
  }

  /** The call has promoted the claim with these devices. */
  ghost predicate PromotedIn(call: Call, uid: string, devices: seq<ClaimDevice>) {
    exists i :: 0 <= i < |call| && PromotedAt(call, i, uid, devices)
  }

  ghost predicate PromotedAt(call: Call, i: nat, uid: string, devices: seq<ClaimDevice>)
    requires i < |call|
  {
    call[i].step.Promoted? && call[i].step.claim.uid == uid && call[i].step.claim.devices == devices
  }

  /** A claim in phase Prepared was so on file with the same devices, or this call has promoted it with them. */
  ghost predicate PromotionsLogged(claims: Claims, w: World, call: Call) {
    forall uid :: PromotionLogged(claims, w, call, uid)
  }

  ghost predicate PromotionLogged(claims: Claims, w: World, call: Call, uid: string) {
    uid in claims && claims[uid].phase == Prepared ==>
      PreparedOnFile(w, uid, claims[uid].devices) || PromotedIn(call, uid, claims[uid].devices)
  }

  /**
   * A call in which an intent is reported as not written, though the file was replaced, and the next write drops it
   * again.
   */
  function LostIntent(s: State, cdi: map<string, CDISpec>, c: PreparedClaim): Call {
    var w, x := World(Some(s), cdi), World(Some(s.(claims := s.claims[c.uid := c])), cdi);
    [Entry(Reloaded(true, s.quarantined, s.known), w, w), Entry(Persisted(false), w, x), Entry(Persisted(true), x, w)]
  }

  // ---- Leaving the quarantine ----

  /** From `from` on the device was reset, and both the reset and its audit succeeded. */
  ghost predicate ResetIn(call: Call, from: nat, n: string) {
    exists i :: from <= i < |call| && CleanlyResetAt(call, i, n)
  }

  ghost predicate CleanlyResetAt(call: Call, i: nat, n: string)
    requires i < |call|
  {
    && i + 1 < |call| && call[i].step.Reset? && call[i].step.device == n && call[i].step.ok
    && call[i + 1].step.Audited? && call[i + 1].step.event.device == n && call[i + 1].step.ok
  }

  /** From `from` on a healthy observation after an earlier reset was audited. */
  ghost predicate HealthIn(call: Call, from: nat, n: string) {
    exists i :: from <= i < |call| && call[i].step.Audited? && call[i].step.ok && IsRecovery(call[i].step.event, n)
  }

  ghost predicate IsRecovery(event: AuditEvent, n: string) { event.action == RecoveryHealth && event.device == n }

  ghost predicate CleanedIn(call: Call, from: nat, n: string, awaiting: bool) {
    ResetIn(call, from, n) || (awaiting && HealthIn(call, from, n))
  }

  /**
   * From quarantine `q` to `r` by the steps from `from` on: a device leaves by an audited reset, or by an audited
   * healthy observation if it was waiting for one; and it waits for one only after an audited reset.
   */
  ghost predicate Moves(q: Quarantine, r: Quarantine, call: Call, from: nat) { forall n :: Moved(q, r, call, from, n) }

  ghost predicate Moved(q: Quarantine, r: Quarantine, call: Call, from: nat, n: string) {
    && (n in r && r[n].awaitingHealth ==> (n in q && q[n].awaitingHealth) || ResetIn(call, from, n))
    && (n in q && n !in r ==> CleanedIn(call, from, n, q[n].awaitingHealth))
  }

  /** Nothing left the quarantine, and nothing newly waits for a healthy observation. */
  ghost predicate Grows(q: Quarantine, r: Quarantine) {
    q.Keys <= r.Keys && forall n :: n in r && r[n].awaitingHealth ==> n in q && q[n].awaitingHealth
  }

  /** The quarantine a call began with. */
  ghost function LoadedQuarantine(call: Call): Quarantine {
    if call != [] && call[0].step.Reloaded? then call[0].step.quarantined else map[]
  }

  /** The devices a call knew when it began. */
  ghost function LoadedKnown(call: Call): map<string, KnownDevice> {
    if call != [] && call[0].step.Reloaded? then call[0].step.known else map[]
  }

  /** Discovery reported the device at this path. */
  ghost predicate SeenAt(call: Call, n: string, path: string) {
    exists v: nat :: v < |call| && ShowsAt(call[v].step, n, path)
  }

  ghost predicate ShowsAt(step: Step, n: string, path: string) {
    step.Looked? && step.seen.Some? && exists d :: d in step.seen.value.devices && d.name == n && d.path == path
  }

  /** Every known path is one the call began with or has seen. */
  ghost predicate KnownLogged(known: map<string, KnownDevice>, call: Call) { forall n :: KnownFrom(known, call, n) }

  ghost predicate KnownFrom(known: map<string, KnownDevice>, call: Call, n: string) {
    n in known ==> KnownAt(LoadedKnown(call), n, known[n].path) || SeenAt(call, n, known[n].path)
  }

  ghost predicate KnownAt(known: map<string, KnownDevice>, n: string, path: string) {
    n in known && known[n].path == path
  }

  lemma SeenStays(call: Call, later: Call, n: string, path: string)
    requires call <= later && SeenAt(call, n, path)
    ensures SeenAt(later, n, path)
  {
    var v: nat :| v < |call| && ShowsAt(call[v].step, n, path);
    assert later[v] == call[v];
  }

  lemma KnownStaysLogged(known: map<string, KnownDevice>, call: Call, later: Call)
    requires call != [] && call <= later && KnownLogged(known, call)
    ensures KnownLogged(known, later)
  {
    forall n ensures KnownFrom(known, later, n) {
      assert KnownFrom(known, call, n);
      if n in known && SeenAt(call, n, known[n].path) {
        SeenStays(call, later, n, known[n].path);
      }
    }
  }

  /** The same, for what is on file now. */
  ghost predicate MovesOnFile(q: Quarantine, w: World, call: Call) { forall n :: MovedOnFile(q, w, call, n) }

  ghost predicate MovedOnFile(q: Quarantine, w: World, call: Call, n: string) {
    n in DiskQuarantine(w) ==>
      if n in q then q[n].awaitingHealth ==> DiskQuarantine(w)[n].awaitingHealth || ResetIn(call, 0, n)
      else CleanedIn(call, 0, n, DiskQuarantine(w)[n].awaitingHealth)
  }

  ghost predicate LawfulStep(call: Call, e: Entry) {
    && Effective(e) && Safe(e.after) && WellFormed(e.after)
    && (e.step.Promoted? ==> Exposable(call, e.step.claim))
    && PromotionsLogged(DiskClaims(e.after), e.before, call)
    && MovesOnFile(DiskQuarantine(e.after), e.before, call)
    && (forall uid :: Lost(DiskClaims(e.before), DiskClaims(e.after), uid) ==>
          Droppable(call, uid, DiskClaims(e.before)[uid]))
  }

  /** Every step is lawful after those before it, and begins with the world they left. */
  ghost predicate LawfulCall(call: Call)
    decreases |call|
  {
    if call == [] then true
    else
      var n := |call| - 1;
      LawfulCall(call[..n]) && LawfulStep(call[..n], call[n]) && (n > 0 ==> EndsAt(call[..n], call[n].before))
  }

  lemma {:induction false} LawfulAt(call: Call, t: nat)
    requires LawfulCall(call) && t < |call|
    ensures LawfulCall(call[..t]) && LawfulStep(call[..t], call[t]) && (t > 0 ==> call[t].before == call[t - 1].after)
    decreases |call|
  {
    var n := |call| - 1;
    if t < n {
      LawfulAt(call[..n], t);
      assert call[..n][..t] == call[..t];
    }
  }

  /** The finished calls of a run, each beginning with the world the one before it left. */
  ghost predicate LawfulPast(past: seq<Call>)
    decreases |past|
  {
    if past == [] then true
    else
      var n := |past| - 1;
      LawfulPast(past[..n]) && LawfulCall(past[n]) && Follows(past[..n], past[n])
  }

  ghost predicate Follows(past: seq<Call>, call: Call) {
    call != [] && (past != [] ==> EndsAt(past[|past| - 1], call[0].before))
  }

  lemma StillFollows(past: seq<Call>, call: Call, later: Call)
    requires Follows(past, call) && call <= later
    ensures Follows(past, later)
  {
  }

  lemma LawfulPastAppend(past: seq<Call>, call: Call)
    requires LawfulPast(past) && Follows(past, call) && LawfulCall(call)
    ensures LawfulPast(past + [call])
  {
    assert (past + [call])[..|past|] == past;
  }

  lemma {:induction false} LawfulPastAt(past: seq<Call>, k: nat)
    requires LawfulPast(past) && k < |past|
    ensures LawfulPast(past[..k]) && LawfulCall(past[k]) && Follows(past[..k], past[k])
    decreases |past|
  {
    var n := |past| - 1;
    if k < n {
      LawfulPastAt(past[..n], k);
      assert past[..n][..k] == past[..k];
    }
  }

  lemma LawfulAppend(call: Call, e: Entry)
    requires LawfulCall(call) && EndsAt(call, e.before) && LawfulStep(call, e)
    ensures LawfulCall(call + [e])
  {
    assert (call + [e])[..|call|] == call;
  }

  /** The call that a reload opens. */
  lemma LawfulOpening(step: Step, w: World)
    requires (step.Started? || step.Reloaded?) && Safe(w) && WellFormed(w)
    ensures LawfulCall([Entry(step, w, w)])
  {
  }

  /** The next call of a run begins where the last one ended. */
  lemma NextCall(past: seq<Call>, call: Call, w: World, step: Step)
    requires LawfulPast(past) && LawfulCall(call) && Follows(past, call) && EndsAt(call, w) && Safe(w) && WellFormed(w)
    requires step.Reloaded?
    ensures LawfulPast(past + [call]) && Follows(past + [call], [Entry(step, w, w)])
    ensures LawfulCall([Entry(step, w, w)]) && EndsAt([Entry(step, w, w)], w)
  {
    LawfulPastAppend(past, call);
    LawfulOpening(step, w);
  }

  /** The record of `uid` is on file with these devices. */
  ghost predicate OnFile(w: World, uid: string, devices: seq<ClaimDevice>) {
    uid in DiskClaims(w) && DiskClaims(w)[uid].devices == devices
  }

  /**
   * What is on file when a call begins stays on file with its devices after every step, unless the call reset and
   * audited every one of them and removed the CDI file first.
   */
  lemma {:induction false} KeptOrReleased(call: Call, w: World, uid: string)
    requires LawfulCall(call) && BeginsAt(call, w) && uid in DiskClaims(w)
    ensures || Released(call, uid, DiskClaims(w)[uid])
            || forall t :: 0 <= t < |call| ==> OnFile(call[t].after, uid, DiskClaims(w)[uid].devices)
    decreases |call|
  {
    var rec, n := DiskClaims(w)[uid], |call| - 1;
    var init, last := call[..n], call[n];
    if n > 0 {
      KeptOrReleased(init, w, uid);
      assert init[n - 1] == call[n - 1];
    }
    if Released(init, uid, rec) {
      ReleasedMonotone(init, call, uid, rec);
    } else {
      assert forall t :: 0 <= t < n ==> call[t] == init[t];
      KeptByStep(init, last, w, uid, rec);
    }
  }

  /** A step keeps a record that was on file throughout, since it did not come there by a failed intent. */
  lemma KeptByStep(call: Call, e: Entry, w: World, uid: string, rec: PreparedClaim)
    requires LawfulCall(call) && LawfulStep(call, e) && (call != [] ==> BeginsAt(call, w) && EndsAt(call, e.before))
    requires (call == [] ==> e.before == w) && OnFile(w, uid, rec.devices) && !Released(call, uid, rec)
    requires forall t :: 0 <= t < |call| ==> OnFile(call[t].after, uid, rec.devices)
    ensures OnFile(e.after, uid, rec.devices)
  {
    assert OnFile(e.before, uid, rec.devices);
    forall i: nat | i < |call| ensures uid in DiskClaims(call[i].before) { LawfulAt(call, i); }
    assert forall i: nat :: !FailedIntentAt(call, uid, i);
    if Lost(DiskClaims(e.before), DiskClaims(e.after), uid) {
      ReleasedSame(call, uid, DiskClaims(e.before)[uid], rec);
    }
  }

  /** Before step `t` of this call the claim was promoted with these devices, with all that must come before. */
  ghost predicate ExposedBefore(call: Call, t: nat, uid: string, devices: seq<ClaimDevice>) {
    exists i :: 0 <= i < t <= |call| && PromotedAt(call, i, uid, devices) && Exposable(call[..i], call[i].step.claim)
  }

  /** After step `t` the claim is Prepared on file with these devices, and was not before it. */
  ghost predicate BecomesPrepared(call: Call, t: nat, uid: string, devices: seq<ClaimDevice>) {
    t < |call| && PreparedOnFile(call[t].after, uid, devices) && !PreparedOnFile(call[t].before, uid, devices)
  }

  /** Reset before exposure, at every step. */
  lemma PreparedIsExposed(call: Call, t: nat, uid: string, devices: seq<ClaimDevice>)
    requires LawfulCall(call) && BecomesPrepared(call, t, uid, devices)
    ensures ExposedBefore(call, t, uid, devices)
    ensures forall d :: d in devices ==> ResetBefore(call, t, d, uid)
  {
    LawfulAt(call, t);
    assert PromotionLogged(DiskClaims(call[t].after), call[t].before, call[..t], uid);
    var i :| 0 <= i < t && PromotedAt(call[..t], i, uid, devices);
    assert PromotedAt(call, i, uid, devices);
    LawfulAt(call, i);
    ExposedWasReset(call, i, t, call[i].step.claim);
  }

  lemma ExposedWasReset(call: Call, i: nat, t: nat, c: PreparedClaim)
    requires i <= t <= |call| && Exposable(call[..i], c)
    ensures forall d :: d in c.devices ==> ResetBefore(call, t, d, c.uid)
  {
    var v: nat, w: nat :| ExposedVia(call[..i], c, v, w);
    AllResetBefore(call[..i], call, v, t, c);
  }

  /** A device that leaves the quarantine on file at step `t` was cleaned before it in the same call. */
  lemma LeavesClean(call: Call, t: nat, n: string)
    requires LawfulCall(call) && t < |call|
    requires n in DiskQuarantine(call[t].before) && n !in DiskQuarantine(call[t].after)
    ensures CleanedIn(call[..t], 0, n, DiskQuarantine(call[t].before)[n].awaitingHealth)
  {
    LawfulAt(call, t);
    assert MovedOnFile(DiskQuarantine(call[t].after), call[t].before, call[..t], n);
  }

  lemma CleanedMonotone(call: Call, later: Call, from: nat, earlier: nat, n: string, awaiting: bool)
    requires CleanedIn(call, from, n, awaiting) && call <= later && earlier <= from
    ensures CleanedIn(later, earlier, n, awaiting)
    ensures ResetIn(call, from, n) ==> ResetIn(later, earlier, n)
  {
    if ResetIn(call, from, n) {
      var i :| from <= i < |call| && CleanlyResetAt(call, i, n);
      assert CleanlyResetAt(later, i, n);
    } else {
      var i :| from <= i < |call| && call[i].step.Audited? && call[i].step.ok && IsRecovery(call[i].step.event, n);
      assert later[i] == call[i];
    }
  }

  lemma ResetMonotone(call: Call, later: Call, from: nat, earlier: nat, n: string)
    requires ResetIn(call, from, n) && call <= later && earlier <= from
    ensures ResetIn(later, earlier, n)
  {
    CleanedMonotone(call, later, from, earlier, n, true);
  }

  lemma MovesMonotone(q: Quarantine, r: Quarantine, call: Call, later: Call, from: nat, earlier: nat)
    requires Moves(q, r, call, from) && call <= later && earlier <= from
    ensures Moves(q, r, later, earlier)
  {
    forall n ensures Moved(q, r, later, earlier, n) {
      assert Moved(q, r, call, from, n);
      if ResetIn(call, from, n) {
        ResetMonotone(call, later, from, earlier, n);
      } else if n in q && n !in r {
        CleanedMonotone(call, later, from, earlier, n, q[n].awaitingHealth);
      }
    }
  }

  lemma GrowsBy(q: Quarantine, r: Quarantine, n: string, rec: QuarantineRecord)
    requires Grows(q, r) && !rec.awaitingHealth
    ensures Grows(q, r[n := rec])
  {
  }

  lemma GrowsThenMoves(q: Quarantine, r: Quarantine, z: Quarantine, call: Call, from: nat)
    requires Grows(q, r) && Moves(r, z, call, from)
    ensures Moves(q, z, call, from)
  {
    forall n ensures Moved(q, z, call, from, n) { assert Moved(r, z, call, from, n); }
  }

  lemma MovesThenGrows(q: Quarantine, r: Quarantine, z: Quarantine, call: Call, later: Call, from: nat)
    requires Moves(q, r, call, from) && Grows(r, z) && call <= later
    ensures Moves(q, z, later, from)
  {
    MovesMonotone(q, r, call, later, from, from);
    forall n ensures Moved(q, z, later, from, n) { assert Moved(q, r, later, from, n); }
  }

  lemma MovesTrans(q: Quarantine, r: Quarantine, z: Quarantine, call: Call, later: Call, from: nat)
    requires Moves(q, r, call, from) && Moves(r, z, later, |call|) && call <= later && from <= |call|
    ensures Moves(q, z, later, from)
  {
    MovesMonotone(q, r, call, later, from, from);
    MovesMonotone(r, z, later, later, |call|, from);
    forall n ensures Moved(q, z, later, from, n) {
      assert Moved(q, r, later, from, n) && Moved(r, z, later, from, n);
    }
  }

  lemma MovesOnFileTrans(q: Quarantine, r: Quarantine, w: World, call: Call, later: Call)
    requires MovesOnFile(q, w, call) && Moves(q, r, later, |call|) && call <= later
    ensures MovesOnFile(r, w, later)
  {
    MovesOnFileMonotone(q, w, call, later);
    MovesMonotone(q, r, later, later, |call|, 0);
    forall n ensures MovedOnFile(r, w, later, n) { assert MovedOnFile(q, w, later, n) && Moved(q, r, later, 0, n); }
  }

  lemma MovesOnFileMonotone(q: Quarantine, w: World, call: Call, later: Call)
    requires MovesOnFile(q, w, call) && call <= later
    ensures MovesOnFile(q, w, later)
  {
    forall n ensures MovedOnFile(q, w, later, n) {
      assert MovedOnFile(q, w, call, n);
      if ResetIn(call, 0, n) {
        ResetMonotone(call, later, 0, 0, n);
      } else if n in DiskQuarantine(w) && n !in q {
        CleanedMonotone(call, later, 0, 0, n, DiskQuarantine(w)[n].awaitingHealth);
      }
    }
  }

  /**
   * Such a call is lawful: the record comes on file and leaves it without a release, and there never was a CDI file for
   * it.
   */
  lemma LostIntentIsLawful(s: State, cdi: map<string, CDISpec>, c: PreparedClaim)
    requires WellFormed(World(Some(s), cdi)) && Safe(World(Some(s), cdi)) && c.uid != "" && c.uid !in s.claims
    requires c.phase == Preparing
    ensures var call := LostIntent(s, cdi, c);
            && LawfulCall(call) && OnFile(call[1].after, c.uid, c.devices) && c.uid !in DiskClaims(call[2].after)
            && !Released(call, c.uid, c) && forall t :: 0 <= t < |call| ==> c.uid !in call[t].after.cdi
  {
    var call := LostIntent(s, cdi, c);
    var w := World(Some(s), cdi);
    LawfulOpening(call[0].step, w);
    assert call[..1] == [call[0]] && call[..2] == [call[0], call[1]];
    LawfulAppend(call[..1], call[1]);
    assert call[..1] + [call[1]] == call[..2];
    assert FailedIntentAt(call[..2], c.uid, 1);
    LawfulAppend(call[..2], call[2]);
    assert call[..2] + [call[2]] == call;
  }

  /** Promoting a claim that is ready is a lawful step. */
  lemma LawfulPromotion(call: Call, w: World, c: PreparedClaim)
    requires LawfulCall(call) && EndsAt(call, w) && Safe(w) && WellFormed(w) && Exposable(call, c)
    ensures var later := call + [Entry(Promoted(c.(phase := Prepared)), w, w)];
            LawfulCall(later) && EndsAt(later, w) && PromotedIn(later, c.uid, c.devices)
  {
    var e := Entry(Promoted(c.(phase := Prepared)), w, w);
    var v: nat, k: nat :| ExposedVia(call, c, v, k);
    assert ExposedVia(call, e.step.claim, v, k);
    LawfulAppend(call, e);
    assert PromotedAt(call + [e], |call|, c.uid, c.devices);
  }

  lemma PromotionsStayLogged(claims: Claims, w: World, x: World, call: Call, later: Call)
    requires PromotionsLogged(claims, w, call) && call <= later && DiskClaims(x) == DiskClaims(w)
    ensures PromotionsLogged(claims, x, later)
  {
    forall uid ensures PromotionLogged(claims, x, later, uid) {
      assert PromotionLogged(claims, w, call, uid);
      if uid in claims && PromotedIn(call, uid, claims[uid].devices) {
        var i :| 0 <= i < |call| && PromotedAt(call, i, uid, claims[uid].devices);
        assert PromotedAt(later, i, uid, claims[uid].devices);
      }
    }
  }

  // ---- Evidence survives further steps ----

  lemma ResetBeforeMonotone(call: Call, later: Call, bound: nat, more: nat, d: ClaimDevice, uid: string)
    requires call <= later && bound <= more && ResetBefore(call, bound, d, uid)
    ensures ResetBefore(later, more, d, uid)
  {
    var i: nat :| i + 1 < bound && PreflightReset(call, i, d, uid);
    assert PreflightReset(later, i, d, uid);
  }

  lemma AllResetBefore(call: Call, later: Call, bound: nat, more: nat, c: PreparedClaim)
    requires call <= later && bound <= more && forall d :: d in c.devices ==> ResetBefore(call, bound, d, c.uid)
    ensures forall d :: d in c.devices ==> ResetBefore(later, more, d, c.uid)
  {
    forall d | d in c.devices ensures ResetBefore(later, more, d, c.uid) {
      ResetBeforeMonotone(call, later, bound, more, d, c.uid);
    }
  }

  lemma AllResetAfterUse(call: Call, later: Call, bound: nat, more: nat, c: PreparedClaim)
    requires call <= later && bound <= more && forall d :: d in c.devices ==> ResetAfterUse(call, bound, d)
    ensures forall d :: d in c.devices ==> ResetAfterUse(later, more, d)
  {
    forall d | d in c.devices ensures ResetAfterUse(later, more, d) {
      ResetAfterUseMonotone(call, later, bound, more, d);
    }
  }

  lemma PathSeenMonotone(call: Call, later: Call, bound: nat, more: nat, device: string, path: string)
    requires call <= later && bound <= more && PathSeen(call, bound, device, path)
    ensures PathSeen(later, more, device, path)
  {
    var v: nat, k: nat :| PathSeenAt(call, bound, device, path, v, k);
    assert PathSeenAt(later, more, device, path, v, k);
  }

  lemma ResetAfterUseMonotone(call: Call, later: Call, bound: nat, more: nat, d: ClaimDevice)
    requires call <= later && bound <= more && ResetAfterUse(call, bound, d)
    ensures ResetAfterUse(later, more, d)
  {
    var i: nat :| i + 1 < bound && PostflightReset(call, i, d);
    PathSeenMonotone(call, later, i, i, d.device, call[i].step.path);
    assert PostflightReset(later, i, d);
  }

  lemma ReleasedMonotone(call: Call, later: Call, uid: string, c: PreparedClaim)
    requires call <= later && Released(call, uid, c)
    ensures Released(later, uid, c)
  {
    var r: nat :| r < |call| && call[r].step == RemovedCDI(uid, true) &&
                  forall d :: d in c.devices ==> ResetAfterUse(call, r, d);
    forall d | d in c.devices ensures ResetAfterUse(later, r, d) { ResetAfterUseMonotone(call, later, r, r, d); }
    assert later[r].step == RemovedCDI(uid, true);
  }

  lemma ReleasedSame(call: Call, uid: string, c: PreparedClaim, d: PreparedClaim)
    requires c.devices == d.devices && Released(call, uid, c)
    ensures Released(call, uid, d)
  {
  }

  lemma FailedIntentMonotone(call: Call, later: Call, uid: string, c: PreparedClaim, d: PreparedClaim)
    requires call <= later && FailedIntent(call, uid, c) && d.phase == Preparing
    ensures FailedIntent(later, uid, d)
  {
    var i: nat :| FailedIntentAt(call, uid, i);
    assert FailedIntentAt(later, uid, i);
  }

  // ---- What a release leaves of its devices ----

  /** The device was reset after use in this call, or is in quarantine. */
  ghost predicate Handled(call: Call, q: set<string>, d: ClaimDevice) {
    d.device in q || ResetAfterUse(call, |call|, d)
  }

  ghost predicate AllHandled(call: Call, q: set<string>, devices: seq<ClaimDevice>) {
    forall d :: d in devices ==> Handled(call, q, d)
  }

  ghost predicate StillHandled(call: Call, q: set<string>, later: Call, r: set<string>) {
    forall d: ClaimDevice :: Handled(call, q, d) ==> Handled(later, r, d)
  }

  lemma QuarantineKeepsHandled(call: Call, q: set<string>, later: Call, r: set<string>)
    requires call <= later && q <= r
    ensures StillHandled(call, q, later, r)
  {
    forall d: ClaimDevice | Handled(call, q, d) ensures Handled(later, r, d) {
      if d.device !in q {
        ResetAfterUseMonotone(call, later, |call|, |later|, d);
      }
    }
  }

  /** The intent to release `uid` was recorded in the audit log. */
  ghost predicate IsIntent(step: Step, uid: string) {
    step.Audited? && step.ok && step.event.action == ClaimReleaseIntent && step.event.claimUID == uid
  }

  ghost predicate Intended(call: Call, from: nat, uid: string) {
    exists i :: from <= i < |call| && IsIntent(call[i].step, uid)
  }

  /** ... after the call had looked at the inventory. */
  ghost predicate IntendedAfterLook(call: Call, uid: string) {
    exists i :: 0 <= i < |call| && IsIntent(call[i].step, uid) && forall v :: i < v < |call| ==> !call[v].step.Observed?
  }

  ghost predicate IntentsWithin(call: Call, from: nat, uids: set<string>) {
    forall i, uid :: from <= i < |call| && IsIntent(call[i].step, uid) ==> uid in uids
  }

  /** Of the claims in `done`, those still on record whose release got under way have every device handled. */
  ghost predicate ReleasesHandled(loaded: Claims, claims: Claims, call: Call, from: nat, q: set<string>,
                                  done: set<string>) {
    && IntentsWithin(call, from, done)
    && (forall u :: u in done && u in claims ==> claims[u].phase == Releasing)
    && (forall u ::
          u in done && u in claims && u in loaded && (loaded[u].phase == Releasing || Intended(call, from, u)) ==>
          AllHandled(call, q, claims[u].devices))
  }

  /** One more release. */
  lemma ReleaseHandled(loaded: Claims, s: State, t: State, call: Call, later: Call, from: nat, done: set<string>,
                       uid: string)
    requires ReleasesHandled(loaded, s.claims, call, from, s.quarantined.Keys, done) && call <= later && from <= |call|
    requires forall u :: u !in done ==> (u in loaded <==> u in s.claims) && (u in loaded ==> loaded[u] == s.claims[u])
    requires forall u :: u != uid ==>
               (u in s.claims <==> u in t.claims) && (u in s.claims ==> s.claims[u] == t.claims[u])
    requires uid in t.claims ==> uid in s.claims && t.claims[uid] == s.claims[uid].(phase := Releasing)
    requires IntentsWithin(later, |call|, {uid}) && StillHandled(call, s.quarantined.Keys, later, t.quarantined.Keys)
    requires uid in t.claims && (s.claims[uid].phase == Releasing || Intended(later, |call|, uid)) ==>
               AllHandled(later, t.quarantined.Keys, t.claims[uid].devices)
    ensures ReleasesHandled(loaded, t.claims, later, from, t.quarantined.Keys, done + {uid})
  {
    IntentsSplit(call, later, from, done, {uid});
    forall u |
      u in done + {uid} && u in t.claims && u in loaded && (loaded[u].phase == Releasing || Intended(later, from, u))
      ensures AllHandled(later, t.quarantined.Keys, t.claims[u].devices)
    {
      if u != uid {
        assert Intended(later, from, u) ==> Intended(call, from, u);
        assert AllHandled(call, s.quarantined.Keys, s.claims[u].devices);
      } else if s.claims[uid].phase != Releasing {
        assert uid !in done;
        assert !Intended(call, from, uid);
      }
    }
  }

  lemma IntentsSplit(call: Call, later: Call, from: nat, done: set<string>, more: set<string>)
    requires call <= later && from <= |call| && IntentsWithin(call, from, done) && IntentsWithin(later, |call|, more)
    ensures IntentsWithin(later, from, done + more)
    ensures forall u :: Intended(later, from, u) ==>
              Intended(call, from, u) || (u in more && Intended(later, |call|, u))
  {
    forall u | Intended(later, from, u) ensures Intended(call, from, u) || (u in more && Intended(later, |call|, u)) {
      var i :| from <= i < |later| && IsIntent(later[i].step, u);
      if i < |call| {
        assert IsIntent(call[i].step, u);
      }
    }
    forall i, u | from <= i < |later| && IsIntent(later[i].step, u) ensures u in done + more {
      assert i < |call| ==> IsIntent(call[i].step, u);
    }
  }

  /** A write and then, perhaps, an audited intent. */
  lemma IntentSteps(base: Call, marked: Call, call: Call, uid: string)
    requires base <= marked <= call && |marked| == |base| + 1 && marked[|base|].step.Persisted?
    requires || call == marked
             || (&& |call| == |marked| + 1 && call[|marked|].step.Audited?
                 && call[|marked|].step.event.claimUID == uid && call[|marked|].step.event.action == ClaimReleaseIntent)
    ensures IntentsWithin(call, |base|, {uid})
    ensures Intended(call, |base|, uid) <==> |call| == |marked| + 1 && call[|marked|].step.ok
  {
    assert call[|base|] == marked[|base|];
    if |call| == |marked| + 1 && call[|marked|].step.ok {
      assert IsIntent(call[|marked|].step, uid);
    }
  }

  /** The release of `uid` got under way in this call or an earlier one. */
  ghost predicate UnderWay(loaded: Claims, call: Call, uid: string) {
    uid in loaded && (loaded[uid].phase == Releasing || IntendedAfterLook(call, uid))
  }

  /**
   * Whatever release got under way without success, every device of the claim was reset after use or is in quarantine.
   */
  ghost predicate FailuresHandled(loaded: Claims, claims: Claims, call: Call, q: set<string>, uids: set<string>) {
    forall uid :: uid in uids && uid in claims && UnderWay(loaded, call, uid) ==>
      AllHandled(call, q, claims[uid].devices)
  }

  // ---- Steps that leave the durable world alone ----

  ghost predicate QuietEntry(e: Entry, w: World) {
    e.before == w && e.after == w && (e.step.Audited? || e.step.Reset? || e.step.Looked? || e.step.Observed?)
  }

  ghost predicate Quiet(call: Call, later: Call, w: World) {
    call <= later && forall i :: |call| <= i < |later| ==> QuietEntry(later[i], w)
  }

  lemma {:induction false} QuietLawful(call: Call, later: Call, w: World)
    requires Safe(w) && WellFormed(w) && LawfulCall(call) && EndsAt(call, w) && Quiet(call, later, w)
    ensures LawfulCall(later) && EndsAt(later, w)
    decreases |later|
  {
    if |call| == |later| {
      assert call == later;
    } else {
      var init, last := later[..|later| - 1], later[|later| - 1];
      QuietLawful(call, init, w);
      assert QuietEntry(last, w) && EndsAt(init, last.before);
      LawfulAppend(init, last);
      assert later == init + [last];
    }
  }

  lemma QuietTrans(a: Call, b: Call, c: Call, w: World)
    requires Quiet(a, b, w) && Quiet(b, c, w)
    ensures Quiet(a, c, w)
  {
  }

  // ---- State between and within calls ----

  ghost predicate KeysOk(claims: Claims) { forall uid :: uid in claims ==> uid != "" && claims[uid].uid == uid }

  ghost predicate Agree(claims: Claims, disk: Claims) {
    forall uid :: uid in claims && uid in disk ==> claims[uid].devices == disk[uid].devices
  }

  /** A record that is only in memory is one whose release could not be committed. */
  ghost predicate MemoryOnlyReleasing(claims: Claims, disk: Claims) {
    forall uid :: uid in claims && uid !in disk ==> claims[uid].phase == Releasing
  }

  ghost predicate ReasonsGiven(q: map<string, QuarantineRecord>) { forall n :: n in q ==> q[n].reason != "" }

  /** A state file of an older version holds no claims once startup has completed. */
  ghost predicate VersionOk(s: State, w: World) {
    s.version == STATE_VERSION &&
    (w.disk.Some? ==>
      || w.disk.value.version == STATE_VERSION
      || (1 <= w.disk.value.version < STATE_VERSION && w.disk.value.claims == map[] && s.claims == map[]))
  }

  /** Holds between calls from a completed startup on. */
  ghost predicate Settled(s: State, w: World) {
    && Safe(w)
    && WellFormed(w)
    && KeysOk(s.claims) && Agree(s.claims, DiskClaims(w))
    && MemoryOnlyReleasing(s.claims, DiskClaims(w))
    && ReasonsGiven(s.quarantined)
    && VersionOk(s, w)
  }

  ghost predicate DropsAllowed(claims: Claims, w: World, call: Call) {
    forall uid :: Lost(DiskClaims(w), claims, uid) ==> Droppable(call, uid, DiskClaims(w)[uid])
  }

  /** Whatever is on file but not in memory came there by a failed intent of this call. */
  ghost predicate OnlyIntents(claims: Claims, w: World, call: Call) {
    forall uid :: uid in DiskClaims(w) && uid !in claims ==> FailedIntent(call, uid, DiskClaims(w)[uid])
  }

  /** Holds within a call once the state file has been reloaded. */
  ghost predicate Open(s: State, w: World, call: Call) {
    && Settled(s, w) && LawfulCall(call) && EndsAt(call, w) && w.cdi.Keys <= s.claims.Keys
    && OnlyIntents(s.claims, w, call) && PromotionsLogged(s.claims, w, call)
    && QuarantineLogged(s.quarantined, w, call) && KnownLogged(s.known, call)
  }

  /** The quarantine in memory follows from the one the call began with, and from the one on file. */
  ghost predicate QuarantineLogged(q: Quarantine, w: World, call: Call) {
    Moves(LoadedQuarantine(call), q, call, 0) && MovesOnFile(q, w, call)
  }

  lemma QuarantineMovesOn(q: Quarantine, r: Quarantine, w: World, call: Call, later: Call)
    requires call != [] && QuarantineLogged(q, w, call) && Moves(q, r, later, |call|) && call <= later
    ensures QuarantineLogged(r, w, later)
  {
    MovesTrans(LoadedQuarantine(call), q, r, call, later, 0);
    MovesOnFileTrans(q, r, w, call, later);
  }

  lemma QuarantineStaysLogged(q: Quarantine, w: World, x: World, call: Call, later: Call)
    requires call != [] && QuarantineLogged(q, w, call) && call <= later
    requires DiskQuarantine(x) == DiskQuarantine(w) || DiskQuarantine(x) == q
    ensures QuarantineLogged(q, x, later)
  {
    MovesMonotone(LoadedQuarantine(call), q, call, later, 0, 0);
    MovesOnFileMonotone(q, w, call, later);
    forall n ensures MovedOnFile(q, x, later, n) { assert MovedOnFile(q, w, later, n); }
  }

  /** Writing this state file now is lawful. */
  ghost predicate Savable(s: State, w: World, call: Call) {
    && Safe(w) && w.cdi.Keys <= s.claims.Keys && LawfulCall(call) && EndsAt(call, w)
    && WellFormed(w) && KeysOk(s.claims) && ReasonsGiven(s.quarantined) && s.version == STATE_VERSION
    && DropsAllowed(s.claims, w, call) && PromotionsLogged(s.claims, w, call) && MovesOnFile(s.quarantined, w, call)
  }

  lemma OpenIsSavable(s: State, w: World, call: Call)
    requires Open(s, w, call)
    ensures Savable(s, w, call)
  {
  }

  lemma IntentIsSavable(s: State, w: World, call: Call, c: PreparedClaim)
    requires Open(s, w, call) && c.uid !in s.claims && c.uid != "" && c.phase == Preparing
    ensures Savable(s.(claims := s.claims[c.uid := c]), w, call)
  {
    var next := s.claims[c.uid := c];
    forall u ensures PromotionLogged(next, w, call, u) { assert PromotionLogged(s.claims, w, call, u); }
  }

  lemma ReleaseIsSavable(s: State, w: World, call: Call, uid: string)
    requires Open(s, w, call) && uid in s.claims && uid !in w.cdi
    requires call[|call| - 1].step == RemovedCDI(uid, true)
    requires forall d :: d in s.claims[uid].devices ==> ResetAfterUse(call, |call| - 1, d)
    ensures Savable(s.(claims := s.claims - {uid}), w, call)
  {
    var left := s.claims - {uid};
    forall u ensures PromotionLogged(left, w, call, u) { assert PromotionLogged(s.claims, w, call, u); }
    if uid in DiskClaims(w) {
      ReleasedBy(call, uid, s.claims[uid], DiskClaims(w)[uid], |call| - 1);
    }
  }

  /** What memory holds after a reload. */
  function AfterReload(s: State, w: World): State { if w.disk.Some? then Migrate(Merge(s, w.disk.value)) else s }

  lemma AfterReloadMerges(s: State, w: World)
    requires VersionOk(s, w)
    ensures var t := AfterReload(s, w);
            && t.version == STATE_VERSION && t.claims == s.claims + DiskClaims(w)
            && t.quarantined == s.quarantined + DiskQuarantine(w)
            && (w.disk.Some? ==> t.known == s.known + w.disk.value.known)
  {
    if w.disk.Some? && w.disk.value.version < STATE_VERSION {
      assert Merge(s, w.disk.value).claims == map[];
    }
  }

  ghost predicate JustReloaded(call: Call, s: State, w: World) {
    call == [Entry(Reloaded(true, s.quarantined, s.known), w, w)]
  }

  /** Reloading opens a call. */
  lemma OpenReloaded(s: State, w: World, call: Call)
    requires Settled(s, w) && JustReloaded(call, AfterReload(s, w), w)
    ensures Open(AfterReload(s, w), w, call)
  {
    AfterReloadMerges(s, w);
    LawfulOpening(call[0].step, w);
    SettledReload(s, w);
  }

  lemma SettledReload(s: State, w: World)
    requires Settled(s, w)
    ensures Settled(AfterReload(s, w), w) && DiskClaims(w).Keys <= AfterReload(s, w).claims.Keys
  {
    AfterReloadMerges(s, w);
  }

  lemma OnlyIntentsMonotone(claims: Claims, w: World, call: Call, later: Call)
    requires OnlyIntents(claims, w, call) && call <= later
    ensures OnlyIntents(claims, w, later)
  {
    forall uid | uid in DiskClaims(w) && uid !in claims ensures FailedIntent(later, uid, DiskClaims(w)[uid]) {
      FailedIntentMonotone(call, later, uid, DiskClaims(w)[uid], DiskClaims(w)[uid]);
    }
  }

  lemma OpenQuiet(s: State, t: State, w: World, call: Call, later: Call)
    requires Open(s, w, call) && Quiet(call, later, w)
    requires t.claims == s.claims && t.version == s.version && ReasonsGiven(t.quarantined)
    requires Moves(s.quarantined, t.quarantined, later, |call|)
    requires t.known == s.known || KnownLogged(t.known, later)
    ensures Open(t, w, later)
  {
    KnownStaysLogged(s.known, call, later);
    QuietLawful(call, later, w);
    OnlyIntentsMonotone(s.claims, w, call, later);
    PromotionsStayLogged(s.claims, w, w, call, later);
    QuarantineMovesOn(s.quarantined, t.quarantined, w, call, later);
  }

  lemma OpenPersist(s: State, w: World, after: World, call: Call, later: Call)
    requires Open(s, w, call) && call <= later && LawfulCall(later) && EndsAt(later, after)
    requires after.cdi == w.cdi && (after.disk == Some(s) || after.disk == w.disk)
    ensures Open(s, after, later)
  {
    OnlyIntentsMonotone(s.claims, w, call, later);
    PromotionsStayLogged(s.claims, w, w, call, later);
    KnownStaysLogged(s.known, call, later);
    QuarantineStaysLogged(s.quarantined, w, after, call, later);
  }

  // ---- Exclusive ownership ----

  /** `uid` has `d` on record, in memory or on disk. */
  ghost predicate Owns(s: State, w: World, uid: string, d: string) {
    (uid in s.claims && d in Names(s.claims[uid])) || (uid in DiskClaims(w) && d in Names(DiskClaims(w)[uid]))
  }

  ghost predicate Exclusive(s: State, w: World) {
    forall u, v, d :: Owns(s, w, u, d) && Owns(s, w, v, d) ==> u == v
  }

  /** Between two states no claim but `uid` changed, in memory or in its CDI file. */
  ghost predicate OnlyTouches(s: State, w: World, t: State, x: World, uid: string) {
    && (forall u :: u != uid ==> (u in s.claims <==> u in t.claims) && (u in s.claims ==> s.claims[u] == t.claims[u]))
    && (forall u :: u != uid ==> (u in w.cdi <==> u in x.cdi) && (u in w.cdi ==> w.cdi[u] == x.cdi[u]))
  }

  /** No claim outside `uids` changed, in memory or in its CDI file. */
  ghost predicate OnlyTouchesAll(claims: Claims, w: World, now: Claims, x: World, uids: set<string>) {
    && (forall u :: u !in uids ==> (u in claims <==> u in now) && (u in claims ==> claims[u] == now[u]))
    && (forall u :: u !in uids ==> (u in w.cdi <==> u in x.cdi) && (u in w.cdi ==> w.cdi[u] == x.cdi[u]))
  }

  lemma TouchOneMore(claims: Claims, w0: World, s: State, w: World, t: State, x: World, uids: set<string>, uid: string)
    requires OnlyTouchesAll(claims, w0, s.claims, w, uids) && OnlyTouches(s, w, t, x, uid)
    ensures OnlyTouchesAll(claims, w0, t.claims, x, uids + {uid})
  {
  }

  /** Memory records the same devices for each claim, and the file is the old one or follows memory. */
  ghost predicate SameRecords(s: State, w: World, t: State, x: World) {
    && Recorded(t.claims) == Recorded(s.claims)
    && (Recorded(DiskClaims(x)) == Recorded(DiskClaims(w)) || Recorded(DiskClaims(x)) == Recorded(t.claims))
  }

  /** The same, except that `uid` may be forgotten. */
  ghost predicate OnlyDrops(s: State, w: World, t: State, x: World, uid: string) {
    && (Recorded(t.claims) == Recorded(s.claims) || Recorded(t.claims) == Recorded(s.claims) - {uid})
    && (|| Recorded(DiskClaims(x)) == Recorded(DiskClaims(w)) || Recorded(DiskClaims(x)) == Recorded(s.claims)
        || Recorded(DiskClaims(x)) == Recorded(s.claims) - {uid})
  }

  lemma OnlyTouchesTrans(s0: State, w0: World, s1: State, w1: World, s2: State, w2: World, uid: string)
    requires OnlyTouches(s0, w0, s1, w1, uid) && OnlyTouches(s1, w1, s2, w2, uid)
    ensures OnlyTouches(s0, w0, s2, w2, uid)
  {
  }

  lemma SameClaimsTouchNothing(s: State, t: State, w: World, uid: string)
    requires s.claims == t.claims
    ensures OnlyTouches(s, w, t, w, uid) && SameRecords(s, w, t, w)
  {
  }

  lemma PersistTouchesNothing(s: State, w: World, after: World, uid: string)
    requires after.cdi == w.cdi && (after.disk == Some(s) || after.disk == w.disk)
    ensures OnlyTouches(s, w, s, after, uid) && SameRecords(s, w, s, after)
  {
  }

  lemma RephaseKeepsRecords(claims: Claims, uid: string, phase: Phase)
    requires uid in claims
    ensures Recorded(claims[uid := claims[uid].(phase := phase)]) == Recorded(claims)
  {
  }

  lemma OwnsByRecord(s: State, w: World, u: string, d: string)
    ensures Owns(s, w, u, d) <==>
              || (u in Recorded(s.claims) && d in DeviceNames(Recorded(s.claims)[u]))
              || (u in Recorded(DiskClaims(w)) && d in DeviceNames(Recorded(DiskClaims(w))[u]))
  {
  }

  lemma DroppingKeepsExclusive(s: State, w: World, t: State, x: World, uid: string)
    requires OnlyDrops(s, w, t, x, uid) || SameRecords(s, w, t, x)
    ensures Exclusive(s, w) ==> Exclusive(t, x)
  {
    forall u, d | Owns(t, x, u, d) ensures Owns(s, w, u, d) {
      OwnsByRecord(s, w, u, d);
      OwnsByRecord(t, x, u, d);
    }
  }

  /** The record of `uid` is in memory and on file, with these devices. */
  ghost predicate RecordedAs(s: State, w: World, uid: string, devices: seq<ClaimDevice>) {
    uid in s.claims && s.claims[uid].devices == devices && OnFile(w, uid, devices)
  }

  lemma SameRecordsKeep(s: State, w: World, t: State, x: World, uid: string, devices: seq<ClaimDevice>)
    requires SameRecords(s, w, t, x) && RecordedAs(s, w, uid, devices)
    ensures RecordedAs(t, x, uid, devices)
  {
    assert uid in Recorded(t.claims) && uid in Recorded(DiskClaims(x));
  }

  /** Whatever was in memory and on file outside `uids` still is. */
  ghost predicate KeepsRecords(s: State, w: World, t: State, x: World, uids: set<string>) {
    forall u, devices :: u !in uids && RecordedAs(s, w, u, devices) ==> RecordedAs(t, x, u, devices)
  }

  lemma OnlyDropsKeep(s0: State, w0: World, s: State, w: World, t: State, x: World, uids: set<string>, uid: string)
    requires KeepsRecords(s0, w0, s, w, uids) && OnlyDrops(s, w, t, x, uid)
    ensures KeepsRecords(s0, w0, t, x, uids + {uid})
  {
    forall u, devices | u != uid && RecordedAs(s, w, u, devices) ensures RecordedAs(t, x, u, devices) {
      assert u in Recorded(t.claims) && u in Recorded(DiskClaims(x));
    }
  }

  /** Every record that was on file still is, with the same devices. */
  ghost predicate RecordsKept(w: World, x: World) {
    forall uid :: uid in DiskClaims(w) ==> OnFile(x, uid, DiskClaims(w)[uid].devices)
  }

  lemma ReloadedRecords(s: State, w: World)
    requires w.disk.Some? ==> DiskClaims(w).Keys <= s.claims.Keys && Agree(s.claims, DiskClaims(w))
    ensures forall uid :: uid in DiskClaims(w) ==> RecordedAs(s, w, uid, DiskClaims(w)[uid].devices)
  {
  }

  /** Saving a state with the same claims keeps every record on file. */
  lemma SavedKeepsRecords(s: State, t: State, w: World, x: World)
    requires t.claims == s.claims && (x == w || x == w.(disk := Some(t)))
    requires DiskClaims(w).Keys <= s.claims.Keys && Agree(s.claims, DiskClaims(w))
    ensures SameRecords(s, w, t, x) && RecordsKept(w, x)
  {
  }

  // ---- Steps of preparing and releasing one claim ----

  /** What one attempt to prepare `wanted` may do to the records. */
  ghost predicate Attempted(s: State, w: World, t: State, x: World, wanted: PreparedClaim) {
    if wanted.uid in s.claims then SameRecords(s, w, t, x)
    else Unwritten(s, w, t, x, wanted) || NowRecorded(s, t, x, wanted)
  }

  /** The intent was reported as not written; the file may hold it all the same. */
  ghost predicate Unwritten(s: State, w: World, t: State, x: World, wanted: PreparedClaim) {
    && Recorded(t.claims) == Recorded(s.claims)
    && (|| Recorded(DiskClaims(x)) == Recorded(DiskClaims(w))
        || Recorded(DiskClaims(x)) == Recorded(s.claims)[wanted.uid := wanted.devices])
  }

  ghost predicate NowRecorded(s: State, t: State, x: World, wanted: PreparedClaim) {
    && Recorded(t.claims) == Recorded(s.claims)[wanted.uid := wanted.devices]
    && Recorded(DiskClaims(x)) == Recorded(t.claims)
  }

  /** Recording an intent whose write succeeded. */
  lemma OpenRecorded(s: State, t: State, w: World, x: World, call: Call, later: Call, c: PreparedClaim)
    requires Open(s, w, call) && c.uid != "" && c.uid !in s.claims && c.phase == Preparing
    requires t == s.(claims := s.claims[c.uid := c]) && x == w.(disk := Some(t)) && LawfulCall(later)
    requires EndsAt(later, x)
    requires call <= later
    ensures Open(t, x, later)
    ensures OnlyTouches(s, w, t, x, c.uid) && NowRecorded(s, t, x, c)
  {
    assert Recorded(t.claims) == Recorded(s.claims)[c.uid := c.devices];
    SavedIsSettled(t, x);
    KnownStaysLogged(s.known, call, later);
    QuarantineStaysLogged(s.quarantined, w, x, call, later);
  }

  lemma SavedIsSettled(s: State, w: World)
    requires w.disk == Some(s) && Safe(w) && KeysOk(s.claims) && ReasonsGiven(s.quarantined)
    requires s.version == STATE_VERSION
    ensures Settled(s, w)
  {
  }

  /** Recording an intent whose write was reported as failed: memory forgets it, the file may hold it. */
  lemma OpenIntentFailed(s: State, t: State, w: World, x: World, call: Call, later: Call, c: PreparedClaim)
    requires Open(s, w, call) && c.uid != "" && c.uid !in s.claims && c.phase == Preparing
    requires t == s.(claims := s.claims[c.uid := c]) && (x == w.(disk := Some(t)) || x == w)
    requires later == call + [Entry(Persisted(false), w, x)] && LawfulCall(later)
    ensures Open(s, x, later)
    ensures OnlyTouches(s, w, s, x, c.uid) && Unwritten(s, w, s, x, c)
  {
    IntentUnwritten(s, t, w, x, c);
    KnownStaysLogged(s.known, call, later);
    QuarantineStaysLogged(s.quarantined, w, x, call, later);
    if x == w {
      OnlyIntentsMonotone(s.claims, w, call, later);
      PromotionsStayLogged(s.claims, w, w, call, later);
    } else {
      IntentOnFile(s, w, x, call, c);
      SettledIntent(s, w, x, c);
      LoggedIntent(s.claims, x, later, c);
    }
  }

  lemma IntentUnwritten(s: State, t: State, w: World, x: World, c: PreparedClaim)
    requires t == s.(claims := s.claims[c.uid := c]) && (x == w.(disk := Some(t)) || x == w)
    ensures OnlyTouches(s, w, s, x, c.uid) && Unwritten(s, w, s, x, c)
  {
    assert Recorded(t.claims) == Recorded(s.claims)[c.uid := c.devices];
  }

  lemma LoggedIntent(claims: Claims, x: World, call: Call, c: PreparedClaim)
    requires c.uid !in claims && DiskClaims(x) == claims[c.uid := c]
    ensures PromotionsLogged(claims, x, call)
  {
  }

  lemma SettledIntent(s: State, w: World, x: World, c: PreparedClaim)
    requires Settled(s, w) && w.cdi.Keys <= s.claims.Keys && c.uid != "" && c.uid !in s.claims
    requires x == w.(disk := Some(s.(claims := s.claims[c.uid := c])))
    ensures Settled(s, x)
  {
  }

  lemma IntentOnFile(s: State, w: World, x: World, call: Call, c: PreparedClaim)
    requires OnlyIntents(s.claims, w, call) && c.uid !in s.claims && c.uid !in w.cdi && c.phase == Preparing
    requires x == w.(disk := Some(s.(claims := s.claims[c.uid := c])))
    ensures OnlyIntents(s.claims, x, call + [Entry(Persisted(false), w, x)])
  {
    var later := call + [Entry(Persisted(false), w, x)];
    if c.uid in DiskClaims(w) {
      FailedIntentMonotone(call, later, c.uid, DiskClaims(w)[c.uid], c);
    } else {
      assert FailedIntentAt(later, c.uid, |call|);
    }
  }

  /** A recorded claim changes phase in memory. */
  lemma OpenPhase(s: State, w: World, call: Call, later: Call, uid: string, phase: Phase)
    requires Open(s, w, call) && call <= later && LawfulCall(later) && EndsAt(later, w) && uid in s.claims
    requires uid in DiskClaims(w) || phase == Releasing
    requires phase == Prepared ==> PromotedIn(later, uid, s.claims[uid].devices)
    ensures Open(s.(claims := s.claims[uid := s.claims[uid].(phase := phase)]), w, later)
    ensures OnlyTouches(s, w, s.(claims := s.claims[uid := s.claims[uid].(phase := phase)]), w, uid)
    ensures SameRecords(s, w, s.(claims := s.claims[uid := s.claims[uid].(phase := phase)]), w)
  {
    OnlyIntentsMonotone(s.claims, w, call, later);
    PromotionsStayLogged(s.claims, w, w, call, later);
    RephaseKeepsRecords(s.claims, uid, phase);
    KnownStaysLogged(s.known, call, later);
    QuarantineStaysLogged(s.quarantined, w, w, call, later);
    SettledPhase(s, w, uid, phase);
    LoggedPhase(s.claims, w, later, uid, phase);
  }

  lemma SettledPhase(s: State, w: World, uid: string, phase: Phase)
    requires Settled(s, w) && uid in s.claims && (uid in DiskClaims(w) || phase == Releasing)
    ensures Settled(s.(claims := s.claims[uid := s.claims[uid].(phase := phase)]), w)
  {
  }

  lemma LoggedPhase(claims: Claims, w: World, call: Call, uid: string, phase: Phase)
    requires PromotionsLogged(claims, w, call) && uid in claims
    requires (phase == Prepared ==> PromotedIn(call, uid, claims[uid].devices))
    ensures PromotionsLogged(claims[uid := claims[uid].(phase := phase)], w, call)
  {
    var next := claims[uid := claims[uid].(phase := phase)];
    forall u ensures PromotionLogged(next, w, call, u) { assert PromotionLogged(claims, w, call, u); }
  }

  /** The CDI file of a recorded claim is written or removed. */
  lemma OpenCDI(s: State, w: World, x: World, call: Call, later: Call, uid: string)
    requires Open(s, w, call) && call <= later && LawfulCall(later) && EndsAt(later, x) && uid in s.claims && Safe(x)
    requires x.disk == w.disk
    requires forall u :: u != uid ==> (u in w.cdi <==> u in x.cdi) && (u in w.cdi ==> w.cdi[u] == x.cdi[u])
    ensures Open(s, x, later)
    ensures OnlyTouches(s, w, s, x, uid) && SameRecords(s, w, s, x)
  {
    OnlyIntentsMonotone(s.claims, w, call, later);
    PromotionsStayLogged(s.claims, w, x, call, later);
    KnownStaysLogged(s.known, call, later);
    QuarantineStaysLogged(s.quarantined, w, x, call, later);
  }

  predicate IsPrepared(s: State, uid: string) { uid in s.claims && s.claims[uid].phase == Prepared }

  /** The devices handed out are those of a prepared claim, and its CDI file lists exactly them. */
  ghost predicate Delivered(s: State, w: World, uid: string, devices: seq<PreparedDevice>) {
    && IsPrepared(s, uid) && devices == Results(s.claims[uid])
    && uid in w.cdi && w.cdi[uid] == SpecOf(s.claims[uid])
    && |w.cdi[uid]| == |devices| && forall i :: 0 <= i < |devices| ==> devices[i].cdiIDs == [w.cdi[uid][i].cdiID]
  }

  /** A released claim is forgotten, and the file follows or not. */
  lemma OpenReleased(s: State, t: State, w: World, x: World, call: Call, later: Call, uid: string)
    requires Open(s, w, call) && call <= later && LawfulCall(later) && EndsAt(later, x)
    requires uid in s.claims && s.claims[uid].phase == Releasing
    requires t == s.(claims := s.claims - {uid}) && uid !in w.cdi
    requires x == w.(disk := Some(t)) || x == w
    ensures Open(s, x, later)
    ensures x == w.(disk := Some(t)) ==> Open(t, x, later)
    ensures OnlyTouches(s, w, s, x, uid) && OnlyDrops(s, w, s, x, uid)
    ensures x == w.(disk := Some(t)) ==> OnlyTouches(s, w, t, x, uid) && OnlyDrops(s, w, t, x, uid)
  {
    OnlyIntentsMonotone(s.claims, w, call, later);
    PromotionsStayLogged(s.claims, w, w, call, later);
    KnownStaysLogged(s.known, call, later);
    QuarantineStaysLogged(s.quarantined, w, x, call, later);
    assert Recorded(t.claims) == Recorded(s.claims) - {uid};
    if x != w {
      SettledReleased(s, w, x, uid);
      LoggedReleased(s.claims, t.claims, w, x, later, uid);
    }
  }

  lemma SettledReleased(s: State, w: World, x: World, uid: string)
    requires Settled(s, w) && uid in s.claims && s.claims[uid].phase == Releasing && uid !in w.cdi
    requires w.cdi.Keys <= s.claims.Keys
    requires x == w.(disk := Some(s.(claims := s.claims - {uid})))
    ensures Settled(s, x) && Settled(x.disk.value, x)
  {
  }

  lemma LoggedReleased(claims: Claims, left: Claims, w: World, x: World, call: Call, uid: string)
    requires PromotionsLogged(claims, w, call) && uid in claims && claims[uid].phase == Releasing
    requires left == claims - {uid}
    requires DiskClaims(x) == left
    ensures PromotionsLogged(claims, x, call) && PromotionsLogged(left, x, call)
  {
    forall u ensures PromotionLogged(claims, x, call, u) { assert PromotionLogged(claims, w, call, u); }
    forall u ensures PromotionLogged(left, x, call, u) { assert PromotionLogged(claims, w, call, u); }
  }

  lemma ReleasedBy(call: Call, uid: string, c: PreparedClaim, rec: PreparedClaim, r: nat)
    requires r < |call| && call[r].step == RemovedCDI(uid, true) && rec.devices == c.devices
    requires forall d :: d in c.devices ==> ResetAfterUse(call, r, d)
    ensures Droppable(call, uid, rec)
  {
  }

  lemma PutBack(s: State, uid: string)
    requires uid in s.claims
    ensures s.(claims := (s.claims - {uid})[uid := s.claims[uid]]) == s
  {
  }

  lemma ForgetNew(s: State, c: PreparedClaim)
    requires c.uid !in s.claims
    ensures s.(claims := s.claims[c.uid := c] - {c.uid}) == s
  {
  }

  lemma SettledWhenSaved(s: State, w: World)
    requires w.disk == Some(s) && w.cdi.Keys <= s.claims.Keys
    requires KeysOk(s.claims) && ReasonsGiven(s.quarantined) && s.version == STATE_VERSION
    ensures Settled(s, w)
  {
  }
}
