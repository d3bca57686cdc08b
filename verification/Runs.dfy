/** Whole runs of the node agent, and what a crash at any point leaves behind. */
module Runs {
  import opened Api
  import opened Inventory
  import opened Lifecycle
  import opened Batches
  import opened Screening
  import opened Answers
  import opened Manager
  import opened Recovery

  datatype Operation =
    | PrepareClaims(claims: seq<Option<ResourceClaim>>)
    | UnprepareClaims(uids: seq<string>)
    | MonitorInventory(snapshot: Snapshot)
    | ReportInventoryFailure

  ghost predicate NamedClaims(op: Operation) {
    op.PrepareClaims? ==> forall c :: c in op.claims && c.Some? ==> c.value.uid != ""
  }

  ghost predicate Disjoint(driver: string, op: Operation) { op.PrepareClaims? ==> DisjointBatch(driver, op.claims) }

  /** The calls of a run: the finished ones and the last. */
  ghost function CallAt(past: seq<Call>, call: Call, k: nat): Call { if k < |past| then past[k] else call }

  /** The durable worlds a run went through. */
  ghost predicate PassedThrough(past: seq<Call>, call: Call, w: World) {
    exists k: nat, t: nat :: k <= |past| && t < |CallAt(past, call, k)| && CallAt(past, call, k)[t].after == w
  }

  /** Wherever the process dies, every CDI file has its record and the state file can be loaded again. */
  lemma CrashSafety(past: seq<Call>, call: Call, w: World)
    requires LawfulPast(past) && LawfulCall(call) && PassedThrough(past, call, w)
    ensures Safe(w) && WellFormed(w) && Readable(w)
  {
    var k: nat, t: nat :| k <= |past| && t < |CallAt(past, call, k)| && CallAt(past, call, k)[t].after == w;
    if k < |past| {
      LawfulPastAt(past, k);
    }
    LawfulAt(CallAt(past, call, k), t);
  }

  lemma AllCrashesSafe(past: seq<Call>, call: Call)
    requires LawfulPast(past) && LawfulCall(call)
    ensures forall w :: PassedThrough(past, call, w) ==> Safe(w) && WellFormed(w)
  {
    forall w | PassedThrough(past, call, w) ensures Safe(w) && WellFormed(w) { CrashSafety(past, call, w); }
  }

  /** The world after step `t` of call `k`. */
  ghost function WorldAt(past: seq<Call>, call: Call, k: nat, t: nat): World
    requires t < |CallAt(past, call, k)|
  {
    CallAt(past, call, k)[t].after
  }

  /** From step `s` of call `j` to step `t` of call `k` the claim was Prepared on file with these devices. */
  ghost predicate HeldSince(past: seq<Call>, call: Call, j: nat, s: nat, k: nat, t: nat, uid: string,
                            devices: seq<ClaimDevice>) {
    forall i: nat, r: nat :: Between(j, s, i, r, k, t) && r < |CallAt(past, call, i)| ==>
      PreparedOnFile(WorldAt(past, call, i, r), uid, devices)
  }

  ghost predicate Between(j: nat, s: nat, i: nat, r: nat, k: nat, t: nat) {
    (j < i || (j == i && s <= r)) && (i < k || (i == k && r <= t))
  }

  /** It became so at step `s` of call `j`, after everything that must come before, and stayed so. */
  ghost predicate ExposedSince(past: seq<Call>, call: Call, j: nat, s: nat, k: nat, t: nat, uid: string,
                               devices: seq<ClaimDevice>) {
    && j <= k && BecomesPrepared(CallAt(past, call, j), s, uid, devices)
    && ExposedBefore(CallAt(past, call, j), s, uid, devices)
    && (forall d :: d in devices ==> ResetBefore(CallAt(past, call, j), s, d, uid))
    && HeldSince(past, call, j, s, k, t, uid, devices)
  }

  ghost predicate AlwaysHeld(past: seq<Call>, call: Call, begun: World, k: nat, t: nat, uid: string,
                             devices: seq<ClaimDevice>) {
    PreparedOnFile(begun, uid, devices) && HeldSince(past, call, 0, 0, k, t, uid, devices)
  }

  ghost predicate SometimeExposed(past: seq<Call>, call: Call, k: nat, t: nat, uid: string, devices: seq<ClaimDevice>) {
    exists j: nat, s: nat :: ExposedSince(past, call, j, s, k, t, uid, devices)
  }

  /**
   * Reset before exposure, over a whole run: a claim that is Prepared on file with these devices has been so since the
   * run began, or since a call of the run recorded it, reset and audited each of these devices, saw all of them
   * healthy, wrote the CDI file and had it approved, in this order.
   */
  lemma {:induction false} ExposedByRun(past: seq<Call>, call: Call, begun: World, k: nat, t: nat, uid: string,
                                        devices: seq<ClaimDevice>)
    requires LawfulPast(past) && LawfulCall(call) && Follows(past, call) && BeginsAt(CallAt(past, call, 0), begun)
    requires k <= |past| && t < |CallAt(past, call, k)| && PreparedOnFile(WorldAt(past, call, k, t), uid, devices)
    ensures AlwaysHeld(past, call, begun, k, t, uid, devices) || SometimeExposed(past, call, k, t, uid, devices)
    decreases k, t
  {
    WorldBefore(past, call, begun, k, t);
    if !PreparedOnFile(CallAt(past, call, k)[t].before, uid, devices) {
      NewlyExposed(past, call, k, t, uid, devices);
    } else if t > 0 {
      ExposedByRun(past, call, begun, k, t - 1, uid, devices);
      HeldOneMore(past, call, k, t - 1, k, t, uid, devices);
    } else if k > 0 {
      ExposedByRun(past, call, begun, k - 1, |past[k - 1]| - 1, uid, devices);
      HeldOneMore(past, call, k - 1, |past[k - 1]| - 1, k, t, uid, devices);
    }
  }

  /** Each step begins with the world the step before it left. */
  lemma WorldBefore(past: seq<Call>, call: Call, begun: World, k: nat, t: nat)
    requires LawfulPast(past) && LawfulCall(call) && Follows(past, call) && BeginsAt(CallAt(past, call, 0), begun)
    requires k <= |past| && t < |CallAt(past, call, k)|
    ensures k > 0 ==> past[k - 1] != []
    ensures CallAt(past, call, k)[t].before ==
              if t > 0 then WorldAt(past, call, k, t - 1)
              else if k > 0 then WorldAt(past, call, k - 1, |past[k - 1]| - 1)
              else begun
  {
    CallsFollow(past, call, k);
    LawfulAt(CallAt(past, call, k), t);
  }

  lemma NewlyExposed(past: seq<Call>, call: Call, k: nat, t: nat, uid: string, devices: seq<ClaimDevice>)
    requires LawfulPast(past) && LawfulCall(call) && Follows(past, call) && k <= |past|
    requires BecomesPrepared(CallAt(past, call, k), t, uid, devices)
    ensures SometimeExposed(past, call, k, t, uid, devices)
  {
    CallsFollow(past, call, k);
    PreparedIsExposed(CallAt(past, call, k), t, uid, devices);
    HeldNow(past, call, k, t, uid, devices);
    assert ExposedSince(past, call, k, t, k, t, uid, devices);
  }

  lemma HeldNow(past: seq<Call>, call: Call, k: nat, t: nat, uid: string, devices: seq<ClaimDevice>)
    requires t < |CallAt(past, call, k)| && PreparedOnFile(WorldAt(past, call, k, t), uid, devices)
    ensures HeldSince(past, call, k, t, k, t, uid, devices)
  {
    assert forall i: nat, r: nat :: Between(k, t, i, r, k, t) ==> i == k && r == t;
  }

  /** The step after (`i`, `r`) is (`k`, `t`). */
  lemma HeldOneMore(past: seq<Call>, call: Call, i: nat, r: nat, k: nat, t: nat, uid: string, devices: seq<ClaimDevice>)
    requires k <= |past| && t < |CallAt(past, call, k)| && r < |CallAt(past, call, i)|
    requires if t > 0 then i == k && r == t - 1 else i + 1 == k && r == |CallAt(past, call, i)| - 1
    requires PreparedOnFile(WorldAt(past, call, k, t), uid, devices)
    ensures forall begun :: AlwaysHeld(past, call, begun, i, r, uid, devices) ==>
              AlwaysHeld(past, call, begun, k, t, uid, devices)
    ensures SometimeExposed(past, call, i, r, uid, devices) ==> SometimeExposed(past, call, k, t, uid, devices)
  {
    HeldOnce(past, call, i, r, k, t, uid, devices);
    if SometimeExposed(past, call, i, r, uid, devices) {
      var j: nat, s: nat :| ExposedSince(past, call, j, s, i, r, uid, devices);
      assert ExposedSince(past, call, j, s, k, t, uid, devices);
    }
  }

  lemma HeldOnce(past: seq<Call>, call: Call, i: nat, r: nat, k: nat, t: nat, uid: string, devices: seq<ClaimDevice>)
    requires k <= |past| && t < |CallAt(past, call, k)| && r < |CallAt(past, call, i)|
    requires if t > 0 then i == k && r == t - 1 else i + 1 == k && r == |CallAt(past, call, i)| - 1
    requires PreparedOnFile(WorldAt(past, call, k, t), uid, devices)
    ensures forall j: nat, s: nat :: HeldSince(past, call, j, s, i, r, uid, devices) ==>
              HeldSince(past, call, j, s, k, t, uid, devices)
  {
  }

  /** Every step of the run keeps the laws of exposure and quarantine. */
  ghost predicate StepsLawful(past: seq<Call>, call: Call) {
    && (forall k: nat, t: nat, uid, devices ::
          k <= |past| && BecomesPrepared(CallAt(past, call, k), t, uid, devices) ==>
          && ExposedBefore(CallAt(past, call, k), t, uid, devices)
          && forall d :: d in devices ==> ResetBefore(CallAt(past, call, k), t, d, uid))
    && (forall k: nat, t: nat, n :: k <= |past| && LeavesAt(CallAt(past, call, k), t, n) ==>
          LeavesCleanly(CallAt(past, call, k), t, n))
  }

  /** Step `t` takes the device out of the quarantine on file. */
  ghost predicate LeavesAt(call: Call, t: nat, n: string) {
    t < |call| && n in DiskQuarantine(call[t].before) && n !in DiskQuarantine(call[t].after)
  }

  ghost predicate LeavesCleanly(call: Call, t: nat, n: string) {
    LeavesAt(call, t, n) && CleanedIn(call[..t], 0, n, DiskQuarantine(call[t].before)[n].awaitingHealth)
  }

  lemma AllStepsLawful(past: seq<Call>, call: Call)
    requires LawfulPast(past) && LawfulCall(call) && Follows(past, call)
    ensures StepsLawful(past, call)
  {
    forall k: nat, t: nat, uid, devices | k <= |past| && BecomesPrepared(CallAt(past, call, k), t, uid, devices)
      ensures ExposedBefore(CallAt(past, call, k), t, uid, devices)
      ensures forall d :: d in devices ==> ResetBefore(CallAt(past, call, k), t, d, uid)
    {
      CallsFollow(past, call, k);
      PreparedIsExposed(CallAt(past, call, k), t, uid, devices);
    }
    forall k: nat, t: nat, n | k <= |past| && LeavesAt(CallAt(past, call, k), t, n)
      ensures LeavesCleanly(CallAt(past, call, k), t, n)
    {
      CallsFollow(past, call, k);
      LeavesClean(CallAt(past, call, k), t, n);
    }
  }

  /** A device that was in quarantine on file when the run began still is, or a call of the run cleaned it. */
  lemma {:induction false} CleanedByRun(past: seq<Call>, call: Call, begun: World, k: nat, t: nat, n: string)
    requires LawfulPast(past) && LawfulCall(call) && Follows(past, call) && BeginsAt(CallAt(past, call, 0), begun)
    requires k <= |past| && t < |CallAt(past, call, k)| && n in DiskQuarantine(begun)
    requires n !in DiskQuarantine(WorldAt(past, call, k, t))
    ensures exists j: nat, s: nat :: j <= k && LeavesCleanly(CallAt(past, call, j), s, n)
    decreases k, t
  {
    var c := CallAt(past, call, k);
    CallsFollow(past, call, k);
    LawfulAt(c, t);
    if n in DiskQuarantine(c[t].before) {
      LeavesClean(c, t, n);
      assert LeavesCleanly(c, t, n);
    } else if t > 0 {
      CleanedByRun(past, call, begun, k, t - 1, n);
    } else {
      CleanedByRun(past, call, begun, k - 1, |past[k - 1]| - 1, n);
    }
  }

  lemma CallsFollow(past: seq<Call>, call: Call, k: nat)
    requires LawfulPast(past) && LawfulCall(call) && Follows(past, call) && k <= |past|
    ensures LawfulCall(CallAt(past, call, k)) && CallAt(past, call, k) != []
    ensures k > 0 ==> EndsAt(past[k - 1], CallAt(past, call, k)[0].before)
  {
    if k < |past| {
      LawfulPastAt(past, k);
    }
  }

  /** The call at `k`, an unprepare that names the claim, released it. */
  ghost predicate ReleasedAt(past: seq<Call>, call: Call, first: nat, ops: seq<Operation>, k: nat, uid: string,
                             rec: PreparedClaim) {
    k < |ops| && ops[k].UnprepareClaims? && uid in ops[k].uids && Released(CallAt(past, call, first + k), uid, rec)
  }

  /** Of what was on file at the beginning, everything still is or was released by one of the first `n` operations. */
  ghost predicate Accounted(past: seq<Call>, call: Call, first: nat, ops: seq<Operation>, n: nat, begun: World,
                            w: World) {
    forall uid :: uid in DiskClaims(begun) ==>
      || OnFile(w, uid, DiskClaims(begun)[uid].devices)
      || exists k: nat :: k < n && ReleasedAt(past, call, first, ops, k, uid, DiskClaims(begun)[uid])
  }

  /** What one more operation does to a record on file. */
  ghost predicate Treated(op: Operation, call: Call, w: World, x: World) {
    forall uid :: uid in DiskClaims(w) && !OnFile(x, uid, DiskClaims(w)[uid].devices) ==>
      op.UnprepareClaims? && uid in op.uids && Released(call, uid, DiskClaims(w)[uid])
  }

  lemma AccountedStep(past: seq<Call>, call: Call, next: Call, first: nat, ops: seq<Operation>, n: nat, begun: World,
                      w: World, x: World)
    requires n < |ops| && first + n == |past| + 1 && Accounted(past, call, first, ops, n, begun, w)
    requires Treated(ops[n], next, w, x)
    ensures Accounted(past + [call], next, first, ops, n + 1, begun, x)
  {
    forall uid | uid in DiskClaims(begun) && !OnFile(x, uid, DiskClaims(begun)[uid].devices)
      ensures exists k: nat :: k < n + 1 && ReleasedAt(past + [call], next, first, ops, k, uid, DiskClaims(begun)[uid])
    {
      var rec := DiskClaims(begun)[uid];
      if OnFile(w, uid, rec.devices) {
        ReleasedSame(next, uid, DiskClaims(w)[uid], rec);
        assert ReleasedAt(past + [call], next, first, ops, n, uid, rec);
      } else {
        var k: nat :| k < n && ReleasedAt(past, call, first, ops, k, uid, rec);
        assert CallAt(past + [call], next, first + k) == CallAt(past, call, first + k);
        assert ReleasedAt(past + [call], next, first, ops, k, uid, rec);
      }
    }
  }

  lemma EndsWherePassed(past: seq<Call>, call: Call, w: World)
    requires EndsAt(call, w)
    ensures PassedThrough(past, call, w)
  {
    assert CallAt(past, call, |past|)[|call| - 1].after == w;
  }

  /** One operation, with any failures inside it. */
  method Perform(a: Agent, op: Operation)
    requires a.Valid() && NamedClaims(op)
    modifies a
    ensures a.Valid() && a.past == old(a.past) + [old(a.call)] && BeginsAt(a.call, old(a.world))
    ensures Treated(op, a.call, old(a.world), a.world)
    ensures old(Exclusive(a.state, a.world)) && Disjoint(a.config.driver, op) ==> Exclusive(a.state, a.world)
  {
    match op {
      case PrepareClaims(claims) =>
        if DisjointBatch(a.config.driver, claims) {
          DisjointIsUncontended(a.config, claims, a.Loaded().claims);
        }
        var r := a.PrepareResourceClaims(claims);
      case UnprepareClaims(uids) => var r := a.UnprepareResourceClaims(uids);
      case MonitorInventory(snapshot) => var filtered, safety, ok, now, later := a.Monitor(snapshot);
      case ReportInventoryFailure => var filtered, safety, ok, now := a.InventoryFailed();
    }
  }

  /** The run that began after `finished` in world `begun`, with the first `n` operations done. */
  ghost predicate InRun(a: Agent, finished: seq<Call>, begun: World, single: bool, ops: seq<Operation>, n: nat)
    reads a
  {
    && a.Valid() && |a.past| == |finished| + n && finished <= a.past
    && Accounted(a.past, a.call, |finished| + 1, ops, n, begun, a.world)
    && (single ==> Exclusive(a.state, a.world))
  }

  method PerformNext(a: Agent, ops: seq<Operation>, i: nat, ghost finished: seq<Call>, ghost begun: World,
                     ghost single: bool)
    requires i < |ops| && NamedClaims(ops[i]) && (single ==> Disjoint(a.config.driver, ops[i]))
    requires InRun(a, finished, begun, single, ops, i)
    modifies a
    ensures InRun(a, finished, begun, single, ops, i + 1)
  {
    ghost var past, call, w := a.past, a.call, a.world;
    Perform(a, ops[i]);
    RunGrows(finished, past, call, a.call, ops, i, begun, w, a.world);
  }

  lemma RunGrows(finished: seq<Call>, past: seq<Call>, call: Call, next: Call, ops: seq<Operation>, i: nat,
                 begun: World, w: World, x: World)
    requires i < |ops| && |past| == |finished| + i && finished <= past
    requires Accounted(past, call, |finished| + 1, ops, i, begun, w) && Treated(ops[i], next, w, x)
    ensures |past + [call]| == |finished| + i + 1 && finished <= past + [call]
    ensures Accounted(past + [call], next, |finished| + 1, ops, i + 1, begun, x)
  {
    AccountedStep(past, call, next, |finished| + 1, ops, i, begun, w, x);
  }

  /**
   * Any sequence of operations. A record leaves the state file only in an unprepare that names it and has reset each of
   * its devices; every world on the way can be crashed into.
   */
  method Run(a: Agent, ops: seq<Operation>)
    requires a.Valid() && forall op :: op in ops ==> NamedClaims(op)
    modifies a
    ensures a.Valid()
    ensures |a.past| == |old(a.past)| + |ops| && old(a.past) <= a.past
    ensures Accounted(a.past, a.call, |old(a.past)| + 1, ops, |ops|, old(a.world), a.world)
    ensures PassedThrough(a.past, a.call, a.world)
    ensures forall w :: PassedThrough(a.past, a.call, w) ==> Safe(w) && WellFormed(w)
    ensures StepsLawful(a.past, a.call)
    ensures old(Exclusive(a.state, a.world)) && (forall op :: op in ops ==> Disjoint(a.config.driver, op))
            ==> Exclusive(a.state, a.world)
  {
    ghost var single := Exclusive(a.state, a.world) && forall op :: op in ops ==> Disjoint(a.config.driver, op);
    RunAll(a, ops, single);
    EndsWherePassed(a.past, a.call, a.world);
    AllCrashesSafe(a.past, a.call);
    AllStepsLawful(a.past, a.call);
  }

  method RunAll(a: Agent, ops: seq<Operation>, ghost single: bool)
    requires a.Valid() && forall op :: op in ops ==> NamedClaims(op)
    requires single ==> Exclusive(a.state, a.world) && forall op :: op in ops ==> Disjoint(a.config.driver, op)
    modifies a
    ensures InRun(a, old(a.past), old(a.world), single, ops, |ops|)
  {
    for i := 0 to |ops|
      invariant InRun(a, old(a.past), old(a.world), single, ops, i)
    {
      assert ops[i] in ops;
      PerformNext(a, ops, i, old(a.past), old(a.world), single);
    }
  }

  /**
   * The process dies in any world the run went through, and a new one starts up over it: if it comes up it is ready for
   * the next call and still has every record that was on file, with its devices.
   */
  method CrashAndRestart(a: Agent, w: World, allocations: Option<seq<Option<ResourceClaim>>>,
                         inventory: Option<Snapshot>)
    returns (b: Agent, ok: bool)
    requires a.Valid() && PassedThrough(a.past, a.call, w)
    requires allocations.Some? ==> forall c :: c in allocations.value && c.Some? ==> c.value.uid != ""
    ensures fresh(b) && b.config == a.config
    ensures ok ==> b.Valid()
    ensures ok ==> forall uid :: uid in DiskClaims(w) ==>
              uid in b.state.claims && SameDevices(DiskClaims(w)[uid].devices, b.state.claims[uid].devices)
    ensures ok ==> QuarantineRestored(w, b.state, b.world)
    ensures ok ==> forall uid :: uid in b.state.claims ==>
              uid in DiskClaims(w) || ListedLive(b.config, allocations, uid)
  {
    CrashSafety(a.past, a.call, w);
    b := new Agent(a.config, w);
    ghost var live, log;
    ok, live, log := Start(b, allocations, inventory);
    if ok && (allocations.Some? || LoadedClaims(w) != map[]) {
      RestartKeeps(b.config, w, live, b.state.claims, allocations, ByName(b.lastSnapshot.devices));
    }
  }

  /** Aligning the records loses none and invents none. */
  lemma RestartKeeps(c: Config, w: World, live: Claims, now: Claims, allocations: Option<seq<Option<ResourceClaim>>>,
                     byName: map<string, InventoryDevice>)
    requires Readable(w) && AllAligned(c, LoadedClaims(w), live, now, allocations.Some?, byName)
    requires LiveMap(c, if allocations.Some? then allocations.value else [], byName, live)
    ensures forall uid :: uid in DiskClaims(w) ==>
              uid in now && SameDevices(DiskClaims(w)[uid].devices, now[uid].devices)
    ensures forall uid :: uid in now ==> uid in DiskClaims(w) || ListedLive(c, allocations, uid)
  {
    forall uid | uid in DiskClaims(w) ensures uid in now && SameDevices(DiskClaims(w)[uid].devices, now[uid].devices) {
      assert AlignedAt(c, LoadedClaims(w), live, now, allocations.Some?, byName, uid);
      AlignedSameDevices(c, LoadedClaims(w)[uid], now[uid], allocations.Some?, live, uid, byName);
    }
    forall uid | uid in now && uid !in DiskClaims(w) ensures ListedLive(c, allocations, uid) {
      assert LiveFrom(c, if allocations.Some? then allocations.value else [], byName, uid, live[uid]);
    }
  }

  /** The allocation source lists the claim with a device on this node. */
  ghost predicate ListedLive(c: Config, allocations: Option<seq<Option<ResourceClaim>>>, uid: string) {
    && allocations.Some?
    && exists i :: 0 <= i < |allocations.value| && IsLive(c, allocations.value[i])
                   && allocations.value[i].value.uid == uid
  }

  // ---- Why batches must not be contended ----

  const NODE := Config("n", "d", false, 0)
  const CARD := InventoryDevice("c", "i", "p", 1, 0, true, true, "", Healthy, "", 0, 1, [])
  const WANTED := AllocatedDevice("d", false, "r", "n", "c")

  /** A claim for the one card of the node. */
  function Wanting(uid: string): ResourceClaim { ResourceClaim(uid, "default", uid, Some(Allocation([], [WANTED]))) }

  lemma WantedIsAcceptable(uid: string)
    ensures Acceptable(NODE, uid, WANTED, map["c" := CARD], map[])
  {
    assert !IsSpace("r"[0]);
  }

  lemma WantingIsAcceptable(uid: string)
    ensures ClaimAcceptable(NODE, Wanting(uid), map["c" := CARD], map[])
    ensures "c" in AllocatedNames("d", Wanting(uid))
  {
    WantedIsAcceptable(uid);
    assert OwnResults("d", [WANTED]) == [WANTED] by {
      assert [WANTED][..0] == [];
    }
    assert WANTED in Wanting(uid).allocation.value.results;
  }

  /** Two claims for one card in one batch: some outcome leaves both on record. */
  lemma OverlappingBatchDoubles() returns (doubled: Ledger)
    ensures BatchOutcome(NODE, [Some(Wanting("u")), Some(Wanting("v"))], map["c" := CARD], 2,
                         Ledger(map[], map[], map[]), doubled)
    ensures !Single(doubled)
  {
    var claims, byName, l := [Some(Wanting("u")), Some(Wanting("v"))], map["c" := CARD], Ledger(map[], map[], map[]);
    WantingIsAcceptable("u");
    WantingIsAcceptable("v");
    assert Newcomer(NODE, claims, byName, l, 0, "u", "c") && Newcomer(NODE, claims, byName, l, 1, "v", "c");
    SingleIffUncontended(NODE, claims, byName, l);
    doubled :| BatchOutcome(NODE, claims, byName, |claims|, l, doubled) && !Single(doubled);
  }
}
