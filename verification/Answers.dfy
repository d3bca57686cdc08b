/** What a batch of prepares answers, claim by claim, and why. */
module Answers {
  import opened Api
  import opened Inventory
  import opened Lifecycle
  import opened Batches
  import opened Screening
  import opened Causes

  datatype Result<+T> = Ok(value: T) | Err(error: string)

  type Delivery = Result<seq<PreparedDevice>>

  ghost function NewSteps(call: Call, from: nat): set<Step>
    requires from <= |call|
  {
    set i | from <= i < |call| :: call[i].step
  }

  lemma StepIsNew(call: Call, later: Call, i: nat)
    requires i < |call| && call <= later
    ensures call[i].step in NewSteps(later, i)
  {
    assert later[i] == call[i];
  }

  lemma NewStepsGrow(call: Call, from: nat, earlier: nat)
    requires earlier <= from <= |call|
    ensures NewSteps(call, from) <= NewSteps(call, earlier)
  {
  }

  function BatchUIDs(claims: seq<Option<ResourceClaim>>): set<string> { set c | c in claims && c.Some? :: c.value.uid }

  /** Every claim that became Prepared did so by a lawful promotion among the steps from `from` on. */
  ghost predicate PromotedSince(s0: State, s: State, call: Call, from: nat)
    requires from <= |call|
  {
    forall uid :: PromotedAs(s0, s, call, from, uid)
  }

  ghost predicate PromotedAs(s0: State, s: State, call: Call, from: nat, uid: string)
    requires from <= |call|
  {
    IsPrepared(s, uid) && !IsPrepared(s0, uid) ==> Promoted(s.claims[uid]) in NewSteps(call, from)
  }

  ghost predicate AllDelivered(s: State, w: World, results: map<string, Delivery>) {
    forall uid :: DeliveredAs(s, w, results, uid)
  }

  ghost predicate DeliveredAs(s: State, w: World, results: map<string, Delivery>, uid: string) {
    uid in results && results[uid].Ok? ==> Delivered(s, w, uid, results[uid].value)
  }

  // ---- One claim ----

  /** What one attempt to prepare `claim` does and answers. */
  ghost predicate PrepareTurn(c: Config, claim: ResourceClaim, byName: map<string, InventoryDevice>,
                              known: map<string, string>, s: State, w: World, call: Call, t: State, x: World,
                              later: Call, owners: map<string, string>, r: Delivery) {
    && call <= later && OnlyTouches(s, w, t, x, claim.uid) && Moves(s.quarantined, t.quarantined, later, |call|)
    && ClaimOutcome(c, Some(claim), byName, LedgerOf(s, w, known), LedgerOf(t, x, owners))
    && (IsPrepared(s, claim.uid) ==> t == s)
    && (IsPrepared(t, claim.uid) && !IsPrepared(s, claim.uid) ==>
          r.Ok? && Promoted(t.claims[claim.uid]) in NewSteps(later, |call|))
    && (if r.Ok? then
          && Delivered(t, x, claim.uid, r.value) && RecordOf(c, claim, byName, t.claims[claim.uid])
          && owners == (if IsPrepared(s, claim.uid) then known
                        else WithOwner(known, claim.uid, Names(t.claims[claim.uid])))
        else owners == known && Justified(c, claim, byName, known, t, later, |call|))
    && (Hopeless(c, claim, byName, known, s) ==> r.Err? && t == s && x == w && later == call)
  }

  predicate SameClaim(a: PreparedClaim, b: PreparedClaim) {
    a.uid == b.uid && a.namespace == b.namespace && a.name == b.name && a.devices == b.devices
  }

  /** What the attempt does after `wanted` was accepted. */
  ghost predicate Tried(c: Config, wanted: PreparedClaim, s: State, w: World, call: Call, t: State, x: World,
                        later: Call, r: Delivery) {
    && call <= later && OnlyTouches(s, w, t, x, wanted.uid) && Moves(s.quarantined, t.quarantined, later, |call|)
    && Attempted(s, w, t, x, wanted) && (IsPrepared(s, wanted.uid) ==> t == s)
    && (IsPrepared(t, wanted.uid) && !IsPrepared(s, wanted.uid) ==>
          r.Ok? && Promoted(t.claims[wanted.uid]) in NewSteps(later, |call|))
    && (if r.Ok? then Delivered(t, x, wanted.uid, r.value) && SameClaim(t.claims[wanted.uid], wanted)
        else Unwanted(t, wanted) || Hindered(c, later, |call|, wanted.uid, wanted.devices))
    && (Unwanted(s, wanted) ==> r.Err? && t == s && x == w && later == call)
  }

  /** The record of the claim bars it or differs from what is wanted. */
  ghost predicate Unwanted(s: State, wanted: PreparedClaim) {
    Barred(s, wanted.uid) || (wanted.uid in s.claims && !SameClaim(s.claims[wanted.uid], wanted))
  }

  lemma TurnRefused(c: Config, claim: ResourceClaim, byName: map<string, InventoryDevice>, known: map<string, string>,
                    s: State, w: World, call: Call, r: Delivery)
    requires !ClaimAcceptable(c, claim, byName, known) && r.Err?
    ensures PrepareTurn(c, claim, byName, known, s, w, call, s, w, call, known, r)
  {
    SameClaimsTouchNothing(s, s, w, claim.uid);
  }

  lemma TurnTried(c: Config, claim: ResourceClaim, byName: map<string, InventoryDevice>, known: map<string, string>,
                  wanted: PreparedClaim, s: State, w: World, call: Call, t: State, x: World, later: Call,
                  owners: map<string, string>, r: Delivery)
    requires ClaimAcceptable(c, claim, byName, known) && RecordOf(c, claim, byName, wanted)
    requires Tried(c, wanted, s, w, call, t, x, later, r)
    requires owners == if r.Ok? && !IsPrepared(s, claim.uid) then WithOwner(known, claim.uid, Names(wanted)) else known
    ensures PrepareTurn(c, claim, byName, known, s, w, call, t, x, later, owners, r)
  {
    AttemptIsOutcome(c, claim, byName, s, w, t, x, wanted, known, owners);
  }

  /** The record is under release or recovery, or holds a device that is, or was in this call, in quarantine. */
  ghost predicate BarredSince(s: State, uid: string, call: Call) {
    && uid in s.claims
    && (|| s.claims[uid].phase in {Releasing, Recovered}
        || (s.claims[uid].phase == Prepared && exists d :: d in s.claims[uid].devices && HeldInCall(s, call, d.device)))
  }

  ghost predicate HeldInCall(s: State, call: Call, n: string) {
    n in s.quarantined || CleanedIn(call, 0, n, true)
  }

  /** Another claim on record holds a device that `claim` names. */
  ghost predicate NamedByOther(c: Config, claim: ResourceClaim, claims: Claims) {
    exists u, n :: u != claim.uid && u in claims && n in Names(claims[u]) && n in AllocatedNames(c.driver, claim)
  }

  /** Why the call did not prepare a claim. */
  ghost predicate Excused(c: Config, claim: ResourceClaim, byName: map<string, InventoryDevice>, s: State, call: Call) {
    ClaimAcceptable(c, claim, byName, map[]) ==>
      || NamedByOther(c, claim, s.claims) || BarredSince(s, claim.uid, call)
      || (claim.uid in s.claims && !RecordOf(c, claim, byName, s.claims[claim.uid]))
      || Hindered(c, call, 0, claim.uid, WantedDevices(c, claim, byName))
  }

  /** Devices if and only if the claim is prepared as allocated; an error only with an excuse. */
  ghost predicate ClaimAnswer(c: Config, claim: ResourceClaim, byName: map<string, InventoryDevice>, s: State,
                              w: World, call: Call, r: Delivery) {
    if r.Ok? then
      && Delivered(s, w, claim.uid, r.value) && RecordOf(c, claim, byName, s.claims[claim.uid])
      && ClaimAcceptable(c, claim, byName, map[])
    else Excused(c, claim, byName, s, call)
  }

  /** Every record is still there, with its devices. */
  ghost predicate DevicesStay(claims: Claims, now: Claims) { forall u :: DevicesStayOf(claims, now, u) }

  ghost predicate DevicesStayOf(claims: Claims, now: Claims, u: string) {
    u in claims ==> u in now && now[u].devices == claims[u].devices
  }

  lemma RecordStays(c: Config, claim: ResourceClaim, byName: map<string, InventoryDevice>, s: State, w: World, t: State,
                    x: World, known: map<string, string>, owners: map<string, string>)
    requires ClaimOutcome(c, Some(claim), byName, LedgerOf(s, w, known), LedgerOf(t, x, owners))
    requires OnlyTouches(s, w, t, x, claim.uid)
    ensures DevicesStay(s.claims, t.claims)
  {
    forall u | u in s.claims ensures u in t.claims && t.claims[u].devices == s.claims[u].devices {
      assert u in Recorded(s.claims) && Recorded(s.claims)[u] == s.claims[u].devices;
      assert u in Recorded(t.claims) && Recorded(t.claims)[u] == s.claims[u].devices;
    }
  }

  /** A claim that is acceptable but for the owners names a device that another record holds. */
  lemma RefusedForOwner(c: Config, claim: ResourceClaim, byName: map<string, InventoryDevice>,
                        known: map<string, string>, claims: Claims)
    requires ClaimAcceptable(c, claim, byName, map[]) && !ClaimAcceptable(c, claim, byName, known)
    requires forall n :: OwnerKept(claims, known, n)
    ensures NamedByOther(c, claim, claims)
  {
    var results := claim.allocation.value.results;
    var own := OwnResults(c.driver, results);
    OwnResultsMembers(c.driver, results);
    var i :| 0 <= i < |own| && !Acceptable(c, claim.uid, own[i], byName, known);
    assert Acceptable(c, claim.uid, own[i], byName, map[]) && own[i] in own;
    assert own[i].device in AllocatedNames(c.driver, claim) && OwnerKept(claims, known, own[i].device);
  }

  /** The answer to the claim whose turn it was. */
  lemma TurnAnswers(c: Config, claim: ResourceClaim, byName: map<string, InventoryDevice>, known: map<string, string>,
                    s: State, w: World, call: Call, t: State, x: World, later: Call, owners: map<string, string>,
                    r: Delivery)
    requires PrepareTurn(c, claim, byName, known, s, w, call, t, x, later, owners, r)
    requires OwnersKept(s, known)
    ensures ClaimAnswer(c, claim, byName, t, x, later, r)
  {
    if r.Ok? {
      FewerOwners(c, claim, byName, known, map[]);
    } else if ClaimAcceptable(c, claim, byName, map[]) && !ClaimAcceptable(c, claim, byName, known) {
      RecordStays(c, claim, byName, s, w, t, x, known, owners);
      OwnersStayKept(s.claims, t.claims, known);
      RefusedForOwner(c, claim, byName, known, t.claims);
    }
  }

  /** The answer to a claim stays right while others have their turn. */
  lemma AnswerStays(c: Config, claim: ResourceClaim, byName: map<string, InventoryDevice>, s: State, w: World,
                    call: Call, t: State, x: World, later: Call, uid: string, r: Delivery)
    requires ClaimAnswer(c, claim, byName, s, w, call, r) && uid != claim.uid && call != [] && call <= later
    requires OnlyTouches(s, w, t, x, uid) && Moves(s.quarantined, t.quarantined, later, |call|)
    requires DevicesStay(s.claims, t.claims)
    ensures ClaimAnswer(c, claim, byName, t, x, later, r)
  {
    if r.Err? && ClaimAcceptable(c, claim, byName, map[]) {
      if Hindered(c, call, 0, claim.uid, WantedDevices(c, claim, byName)) {
        HinderedStays(c, call, later, 0, 0, claim.uid, WantedDevices(c, claim, byName));
      } else if BarredSince(s, claim.uid, call) {
        BarredStays(s, call, t, later, claim.uid);
      } else if NamedByOther(c, claim, s.claims) {
        var u, n :| u != claim.uid && u in s.claims && n in Names(s.claims[u]) && n in AllocatedNames(c.driver, claim);
        assert DevicesStayOf(s.claims, t.claims, u) && n in Names(t.claims[u]);
      }
    }
  }

  lemma BarredStays(s: State, call: Call, t: State, later: Call, uid: string)
    requires BarredSince(s, uid, call) && call <= later && Moves(s.quarantined, t.quarantined, later, |call|)
    requires uid in t.claims && t.claims[uid] == s.claims[uid]
    ensures BarredSince(t, uid, later)
  {
    forall n | HeldInCall(s, call, n) ensures HeldInCall(t, later, n) {
      assert Moved(s.quarantined, t.quarantined, later, |call|, n);
      if n !in s.quarantined {
        CleanedMonotone(call, later, 0, 0, n, true);
      } else if n !in t.quarantined {
        CleanedMonotone(later, later, |call|, 0, n, s.quarantined[n].awaitingHealth);
      }
    }
  }

  /**
   * What an answer hands out: for each allocated device, in order, its request, pool and name, and one CDI ID under
   * which the CDI file exposes exactly the node that the inventory shows for it.
   */
  lemma AnswerExposes(c: Config, claim: ResourceClaim, byName: map<string, InventoryDevice>, s: State, w: World,
                      call: Call, r: Delivery)
    requires ClaimAnswer(c, claim, byName, s, w, call, r) && r.Ok?
    ensures var own := OwnResults(c.driver, claim.allocation.value.results);
            && |r.value| == |own| && claim.uid in w.cdi && |w.cdi[claim.uid]| == |own|
            && forall i :: 0 <= i < |own| ==>
                  && own[i].device in byName
                  && r.value[i].requests == [own[i].request] && r.value[i].pool == own[i].pool
                  && r.value[i].device == own[i].device && r.value[i].cdiIDs == [w.cdi[claim.uid][i].cdiID]
                  && w.cdi[claim.uid][i].cdiID ==
                     "tenstorrent.com/accelerator=" + claim.uid + "-" + ReplaceSlashes(own[i].device)
                  && w.cdi[claim.uid][i].path == byName[own[i].device].path
                  && w.cdi[claim.uid][i].major == byName[own[i].device].major
                  && w.cdi[claim.uid][i].minor == byName[own[i].device].minor
  {
    var own := OwnResults(c.driver, claim.allocation.value.results);
    forall i | 0 <= i < |own| ensures own[i].device in byName {
      assert Acceptable(c, claim.uid, own[i], byName, map[]);
    }
  }

  // ---- The owners a batch knows ----

  /** Every known owner holds the device on record, and what a prepared claim holds has a known owner. */
  ghost predicate OwnersKept(s: State, owners: map<string, string>) {
    (forall n :: OwnerKept(s.claims, owners, n)) && forall u, n :: PreparedKnown(s, owners, u, n)
  }

  ghost predicate OwnerKept(claims: Claims, owners: map<string, string>, n: string) {
    n in owners ==> owners[n] in claims && n in Names(claims[owners[n]])
  }

  ghost predicate PreparedKnown(s: State, owners: map<string, string>, u: string, n: string) {
    IsPrepared(s, u) && n in Names(s.claims[u]) ==> n in owners
  }

  /** Each claim answered with devices is the known owner of all of them. */
  ghost predicate ServedOwn(s: State, owners: map<string, string>, results: map<string, Delivery>) {
    forall u, n :: ServedBy(s, owners, results, u, n)
  }

  ghost predicate ServedBy(s: State, owners: map<string, string>, results: map<string, Delivery>, u: string,
                           n: string) {
    u in results && results[u].Ok? && u in s.claims && n in Names(s.claims[u]) ==> n in owners && owners[n] == u
  }

  lemma OwnersStayKept(claims: Claims, now: Claims, owners: map<string, string>)
    requires (forall n :: OwnerKept(claims, owners, n)) && DevicesStay(claims, now)
    ensures forall n :: OwnerKept(now, owners, n)
  {
    forall n ensures OwnerKept(now, owners, n) {
      assert OwnerKept(claims, owners, n);
      if n in owners {
        assert DevicesStayOf(claims, now, owners[n]);
      }
    }
  }

  lemma OwnersTurn(c: Config, claim: ResourceClaim, byName: map<string, InventoryDevice>, known: map<string, string>,
                   s: State, w: World, call: Call, t: State, x: World, later: Call, owners: map<string, string>,
                   r: Delivery, results: map<string, Delivery>)
    requires PrepareTurn(c, claim, byName, known, s, w, call, t, x, later, owners, r)
    requires OwnersKept(s, known) && ServedOwn(s, known, results)
    ensures OwnersKept(t, owners) && ServedOwn(t, owners, results[claim.uid := r])
  {
    RecordStays(c, claim, byName, s, w, t, x, known, owners);
    if r.Ok? {
      WantedNames(c, claim, byName);
      forall n | n in known && n in Names(t.claims[claim.uid]) ensures known[n] == claim.uid {
        AcceptableIsUnowned(c, claim, byName, known, n);
      }
      if !IsPrepared(s, claim.uid) {
        OwnerGained(s, t, known, claim.uid, results, r);
      } else {
        OwnerServed(s, known, claim.uid, results, r);
      }
    } else {
      OwnersSame(s, t, known, claim.uid, results, r);
    }
  }

  /** A claim that already was prepared is answered again. */
  lemma OwnerServed(s: State, known: map<string, string>, uid: string, results: map<string, Delivery>, r: Delivery)
    requires OwnersKept(s, known) && ServedOwn(s, known, results) && IsPrepared(s, uid)
    requires forall n :: n in known && n in Names(s.claims[uid]) ==> known[n] == uid
    ensures ServedOwn(s, known, results[uid := r])
  {
    var next := results[uid := r];
    forall u, n ensures ServedBy(s, known, next, u, n) {
      assert ServedBy(s, known, results, u, n) && PreparedKnown(s, known, uid, n);
    }
  }

  /** A failure teaches nothing about owners. */
  lemma OwnersSame(s: State, t: State, known: map<string, string>, uid: string, results: map<string, Delivery>,
                   r: Delivery)
    requires OwnersKept(s, known) && ServedOwn(s, known, results) && DevicesStay(s.claims, t.claims) && r.Err?
    requires forall u :: u != uid ==>
               (u in s.claims <==> u in t.claims) && (u in s.claims ==> s.claims[u] == t.claims[u])
    requires IsPrepared(t, uid) ==> t == s
    ensures OwnersKept(t, known) && ServedOwn(t, known, results[uid := r])
  {
    OwnersStayKept(s.claims, t.claims, known);
    forall u, n ensures PreparedKnown(t, known, u, n) { assert PreparedKnown(s, known, u, n); }
    var next := results[uid := r];
    forall u, n ensures ServedBy(t, known, next, u, n) { assert ServedBy(s, known, results, u, n); }
  }

  /** A new owner of devices that nobody else is known to own. */
  lemma OwnerGained(s: State, t: State, known: map<string, string>, uid: string, results: map<string, Delivery>,
                    r: Delivery)
    requires OwnersKept(s, known) && ServedOwn(s, known, results) && uid in t.claims && DevicesStay(s.claims, t.claims)
    requires forall u :: u != uid ==>
               (u in s.claims <==> u in t.claims) && (u in s.claims ==> s.claims[u] == t.claims[u])
    requires forall n :: n in known && n in Names(t.claims[uid]) ==> known[n] == uid
    ensures var owners := WithOwner(known, uid, Names(t.claims[uid]));
            OwnersKept(t, owners) && ServedOwn(t, owners, results[uid := r])
  {
    var names := Names(t.claims[uid]);
    var owners := WithOwner(known, uid, names);
    OwnersStayKept(s.claims, t.claims, known);
    forall n ensures OwnerKept(t.claims, owners, n) { assert OwnerKept(t.claims, known, n); }
    forall u, n ensures PreparedKnown(t, owners, u, n) { assert PreparedKnown(s, known, u, n); }
    var next := results[uid := r];
    forall u, n ensures ServedBy(t, owners, next, u, n) { assert ServedBy(s, known, results, u, n); }
  }

  // ---- The batch ----

  /** The keys under which the first `n` claims are answered. */
  ghost function AnswerKeys(claims: seq<Option<ResourceClaim>>, n: nat): set<string>
    requires n <= |claims|
  {
    set i | 0 <= i < n :: if claims[i].Some? then claims[i].value.uid else ""
  }

  /** Of the first `n` claims none after claim `i` has its UID. */
  ghost predicate LastNamed(claims: seq<Option<ResourceClaim>>, n: nat, i: nat)
    requires i < n <= |claims|
  {
    && claims[i].Some?
    && forall j :: i < j < n && claims[j].Some? ==> claims[j].value.uid != claims[i].value.uid
  }

  ghost predicate Twice(claims: seq<Option<ResourceClaim>>, n: nat, uid: string)
    requires n <= |claims|
  {
    exists i, j :: 0 <= i < j < n && claims[i].Some? && claims[j].Some? && claims[i].value.uid == uid
                   && claims[j].value.uid == uid
  }

  ghost predicate AnswersHold(c: Config, claims: seq<Option<ResourceClaim>>, byName: map<string, InventoryDevice>,
                              n: nat, s: State, w: World, call: Call, results: map<string, Delivery>)
    requires n <= |claims|
  {
    forall i :: AnswerHolds(c, claims, byName, n, s, w, call, results, i)
  }

  /** The last claim with a UID decides what that UID is answered. */
  ghost predicate AnswerHolds(c: Config, claims: seq<Option<ResourceClaim>>, byName: map<string, InventoryDevice>,
                              n: nat, s: State, w: World, call: Call, results: map<string, Delivery>, i: int)
    requires n <= |claims|
  {
    0 <= i < n && LastNamed(claims, n, i) ==>
      && claims[i].value.uid in results
      && ClaimAnswer(c, claims[i].value, byName, s, w, call, results[claims[i].value.uid])
  }

  ghost predicate PreparedAnswered(claims: seq<Option<ResourceClaim>>, n: nat, s0: State, s: State,
                                   results: map<string, Delivery>)
    requires n <= |claims|
  {
    forall u :: NewlyAnswered(claims, n, s0, s, results, u)
  }

  ghost predicate NewlyAnswered(claims: seq<Option<ResourceClaim>>, n: nat, s0: State, s: State,
                                results: map<string, Delivery>, u: string)
    requires n <= |claims|
  {
    u in results && results[u].Err? && IsPrepared(s, u) && !IsPrepared(s0, u) ==> Twice(claims, n, u)
  }

  /**
   * Every claim is answered: with devices, or with an error that has an excuse. One that became Prepared and is named
   * only once is answered with devices, and no two claims are answered with a common device.
   */
  ghost predicate Answered(c: Config, claims: seq<Option<ResourceClaim>>, byName: map<string, InventoryDevice>, n: nat,
                           s0: State, s: State, w: World, call: Call, results: map<string, Delivery>)
    requires n <= |claims|
  {
    && results.Keys == AnswerKeys(claims, n) && AllDelivered(s, w, results)
    && AnswersHold(c, claims, byName, n, s, w, call, results) && PreparedAnswered(claims, n, s0, s, results)
    && forall u, v :: u != v ==> ShareNothing(s, results, u, v)
  }

  ghost predicate ShareNothing(s: State, results: map<string, Delivery>, u: string, v: string) {
    u in results && v in results && results[u].Ok? && results[v].Ok? && u in s.claims && v in s.claims ==>
      Names(s.claims[u]) !! Names(s.claims[v])
  }

  lemma DeliveriesStay(s: State, w: World, t: State, x: World, uid: string,
                       results: map<string, Delivery>, r: Delivery)
    requires AllDelivered(s, w, results) && (r.Ok? ==> Delivered(t, x, uid, r.value))
    requires forall u :: u != uid ==>
               (u in s.claims <==> u in t.claims) && (u in s.claims ==> s.claims[u] == t.claims[u])
    requires forall u :: u != uid ==> (u in w.cdi <==> u in x.cdi) && (u in w.cdi ==> w.cdi[u] == x.cdi[u])
    ensures AllDelivered(t, x, results[uid := r])
  {
    var next := results[uid := r];
    forall u ensures DeliveredAs(t, x, next, u) { assert DeliveredAs(s, w, results, u); }
  }

  lemma PromotionsStay(s0: State, s: State, t: State, uid: string, before: Call, call: Call, from: nat)
    requires from <= |before| && before <= call
    requires forall u :: u != uid ==>
               (u in s.claims <==> u in t.claims) && (u in s.claims ==> s.claims[u] == t.claims[u])
    requires PromotedSince(s0, s, before, from)
    requires IsPrepared(t, uid) && !IsPrepared(s, uid) ==> Promoted(t.claims[uid]) in NewSteps(call, |before|)
    requires IsPrepared(t, uid) && IsPrepared(s, uid) ==> t.claims[uid] == s.claims[uid]
    ensures PromotedSince(s0, t, call, from)
  {
    NewStepsGrow(call, |before|, from);
    forall u ensures PromotedAs(s0, t, call, from, u) {
      assert PromotedAs(s0, s, before, from, u);
      assert forall i :: 0 <= i < |before| ==> before[i] == call[i];
    }
  }

  /** What the first `n` claims of a batch have done since state `s0`. */
  ghost predicate BatchProgress(c: Config, claims: seq<Option<ResourceClaim>>, byName: map<string, InventoryDevice>,
                                n: nat, known: map<string, string>, s0: State, w0: World, from: nat, s: State,
                                w: World, call: Call, owners: map<string, string>, results: map<string, Delivery>)
    requires n <= |claims| && from <= |call|
  {
    && BatchOutcome(c, claims, byName, n, LedgerOf(s0, w0, known), LedgerOf(s, w, owners))
    && OnlyTouchesAll(s0.claims, w0, s.claims, w, BatchUIDs(claims[..n]))
    && PromotedSince(s0, s, call, from)
    && OwnersKept(s, owners) && ServedOwn(s, owners, results)
    && results.Keys == AnswerKeys(claims, n) && AllDelivered(s, w, results)
    && AnswersHold(c, claims, byName, n, s, w, call, results) && PreparedAnswered(claims, n, s0, s, results)
  }

  lemma BatchBegins(c: Config, claims: seq<Option<ResourceClaim>>, byName: map<string, InventoryDevice>,
                    known: map<string, string>, s: State, w: World, call: Call)
    requires IsOwners(known, Recorded(s.claims))
    ensures BatchProgress(c, claims, byName, 0, known, s, w, |call|, s, w, call, known, map[])
  {
    forall u, n ensures PreparedKnown(s, known, u, n) { assert u in s.claims ==> u in Recorded(s.claims); }
    forall n ensures OwnerKept(s.claims, known, n) { assert n in known ==> known[n] in Recorded(s.claims); }
    assert AnswerKeys(claims, 0) == {};
  }

  /** A missing claim is answered with an error. */
  lemma BatchSkips(c: Config, claims: seq<Option<ResourceClaim>>, byName: map<string, InventoryDevice>, n: nat,
                   known: map<string, string>, s0: State, w0: World, from: nat, s: State, w: World, call: Call,
                   owners: map<string, string>, results: map<string, Delivery>, r: Delivery)
    requires n < |claims| && claims[n].None? && r.Err? && KeysOk(s.claims) && from <= |call|
    requires forall c :: c in claims && c.Some? ==> c.value.uid != ""
    requires BatchProgress(c, claims, byName, n, known, s0, w0, from, s, w, call, owners, results)
    ensures BatchProgress(c, claims, byName, n + 1, known, s0, w0, from, s, w, call, owners, results["" := r])
  {
    NothingMore(c, claims, byName, n, n + 1, LedgerOf(s0, w0, known), LedgerOf(s, w, owners));
    BatchUIDsNext(claims, n);
    OwnersSame(s, s, owners, "", results, r);
    DeliveriesStay(s, w, s, w, "", results, r);
    SkipAnswers(c, claims, byName, n, s0, s, w, call, results, r);
  }

  lemma SkipAnswers(c: Config, claims: seq<Option<ResourceClaim>>, byName: map<string, InventoryDevice>, n: nat,
                    s0: State, s: State, w: World, call: Call, results: map<string, Delivery>, r: Delivery)
    requires n < |claims| && claims[n].None? && r.Err? && "" !in s.claims
    requires forall c :: c in claims && c.Some? ==> c.value.uid != ""
    requires AnswersHold(c, claims, byName, n, s, w, call, results) && PreparedAnswered(claims, n, s0, s, results)
    ensures AnswersHold(c, claims, byName, n + 1, s, w, call, results["" := r])
    ensures PreparedAnswered(claims, n + 1, s0, s, results["" := r])
  {
    TwiceStays(claims, n);
    var next, m := results["" := r], n + 1;
    forall i ensures AnswerHolds(c, claims, byName, m, s, w, call, next, i) {
      assert AnswerHolds(c, claims, byName, n, s, w, call, results, i);
      assert 0 <= i < n ==> claims[i] in claims;
    }
    forall u ensures NewlyAnswered(claims, m, s0, s, next, u) {
      assert NewlyAnswered(claims, n, s0, s, results, u);
    }
  }

  lemma TwiceStays(claims: seq<Option<ResourceClaim>>, n: nat)
    requires n < |claims|
    ensures forall u :: Twice(claims, n, u) ==> Twice(claims, n + 1, u)
  {
  }

  /** One more claim of a batch. */
  lemma BatchTurn(c: Config, claims: seq<Option<ResourceClaim>>, byName: map<string, InventoryDevice>, n: nat,
                  known0: map<string, string>, s0: State, w0: World, from: nat, s: State, w: World, call: Call,
                  known: map<string, string>, results: map<string, Delivery>, t: State, x: World, later: Call,
                  owners: map<string, string>, r: Delivery)
    requires n < |claims| && claims[n].Some? && from <= |call| && call != []
    requires BatchProgress(c, claims, byName, n, known0, s0, w0, from, s, w, call, known, results)
    requires PrepareTurn(c, claims[n].value, byName, known, s, w, call, t, x, later, owners, r)
    ensures BatchProgress(c, claims, byName, n + 1, known0, s0, w0, from, t, x, later, owners,
                          results[claims[n].value.uid := r])
  {
    var claim := claims[n].value;
    assert OutcomeVia(c, claims, byName, n + 1, LedgerOf(s0, w0, known0), LedgerOf(s, w, known),
                      LedgerOf(t, x, owners));
    BatchUIDsNext(claims, n);
    TouchOneMore(s0.claims, w0, s, w, t, x, BatchUIDs(claims[..n]), claim.uid);
    PromotionsStay(s0, s, t, claim.uid, call, later, from);
    DeliveriesStay(s, w, t, x, claim.uid, results, r);
    OwnersTurn(c, claim, byName, known, s, w, call, t, x, later, owners, r, results);
    TurnAnswers(c, claim, byName, known, s, w, call, t, x, later, owners, r);
    RecordStays(c, claim, byName, s, w, t, x, known, owners);
    AnswersTurn(c, claims, byName, n, s, w, call, results, t, x, later, r);
    PreparedTurn(claims, n, s0, s, t, results, r);
  }

  lemma AnswersTurn(c: Config, claims: seq<Option<ResourceClaim>>, byName: map<string, InventoryDevice>, n: nat,
                    s: State, w: World, call: Call, results: map<string, Delivery>, t: State, x: World, later: Call,
                    r: Delivery)
    requires n < |claims| && claims[n].Some? && call != [] && call <= later && DevicesStay(s.claims, t.claims)
    requires AnswersHold(c, claims, byName, n, s, w, call, results)
    requires ClaimAnswer(c, claims[n].value, byName, t, x, later, r)
    requires OnlyTouches(s, w, t, x, claims[n].value.uid) && Moves(s.quarantined, t.quarantined, later, |call|)
    ensures AnswersHold(c, claims, byName, n + 1, t, x, later, results[claims[n].value.uid := r])
  {
    var uid, next, m := claims[n].value.uid, results[claims[n].value.uid := r], n + 1;
    forall i ensures AnswerHolds(c, claims, byName, m, t, x, later, next, i) {
      assert AnswerHolds(c, claims, byName, n, s, w, call, results, i);
      if 0 <= i < n && LastNamed(claims, n + 1, i) {
        assert LastNamed(claims, n, i) && claims[i].value.uid != uid;
        AnswerStays(c, claims[i].value, byName, s, w, call, t, x, later, uid, results[claims[i].value.uid]);
      }
    }
  }

  lemma PreparedTurn(claims: seq<Option<ResourceClaim>>, n: nat, s0: State, s: State, t: State,
                     results: map<string, Delivery>, r: Delivery)
    requires n < |claims| && claims[n].Some? && PreparedAnswered(claims, n, s0, s, results)
    requires forall u :: u !in BatchUIDs(claims[..n]) ==> (IsPrepared(s, u) <==> IsPrepared(s0, u))
    requires forall u :: u != claims[n].value.uid ==>
               (u in s.claims <==> u in t.claims) && (u in s.claims ==> s.claims[u] == t.claims[u])
    requires IsPrepared(t, claims[n].value.uid) && !IsPrepared(s, claims[n].value.uid) ==> r.Ok?
    ensures PreparedAnswered(claims, n + 1, s0, t, results[claims[n].value.uid := r])
  {
    var uid := claims[n].value.uid;
    TwiceStays(claims, n);
    if r.Err? && IsPrepared(t, uid) && !IsPrepared(s0, uid) {
      assert IsPrepared(s, uid);
      var i :| 0 <= i < n && claims[i].Some? && claims[i].value.uid == uid;
    }
    var next, m := results[uid := r], n + 1;
    forall u ensures NewlyAnswered(claims, m, s0, t, next, u) {
      assert NewlyAnswered(claims, n, s0, s, results, u);
    }
  }

  /** Claims answered with devices share none. */
  lemma ServedDisjoint(s: State, owners: map<string, string>, results: map<string, Delivery>)
    requires ServedOwn(s, owners, results)
    ensures forall u, v :: u != v ==> ShareNothing(s, results, u, v)
  {
    forall u, v, n |
      u in results && v in results && results[u].Ok? && results[v].Ok? && u in s.claims && v in s.claims
      && n in Names(s.claims[u]) && n in Names(s.claims[v])
      ensures u == v
    {
      assert ServedBy(s, owners, results, u, n) && ServedBy(s, owners, results, v, n);
    }
  }

  lemma BatchUIDsNext(claims: seq<Option<ResourceClaim>>, n: nat)
    requires n < |claims|
    ensures BatchUIDs(claims[..n + 1]) == BatchUIDs(claims[..n]) + if claims[n].Some? then {claims[n].value.uid} else {}
    ensures AnswerKeys(claims, n + 1) == AnswerKeys(claims, n) + {if claims[n].Some? then claims[n].value.uid else ""}
  {
    assert claims[..n + 1] == claims[..n] + [claims[n]];
  }

  /** The answers once the state has been saved. */
  lemma AnswersSaved(c: Config, claims: seq<Option<ResourceClaim>>, byName: map<string, InventoryDevice>, s0: State,
                     s: State, w: World, call: Call, x: World, later: Call, results: map<string, Delivery>)
    requires forall c :: c in claims && c.Some? ==> c.value.uid != ""
    requires call != [] && call <= later && x.cdi == w.cdi
    requires Answered(c, claims, byName, |claims|, s0, s, w, call, results)
    ensures Answered(c, claims, byName, |claims|, s0, s, x, later, results)
  {
    forall u ensures DeliveredAs(s, x, results, u) { assert DeliveredAs(s, w, results, u); }
    forall i ensures AnswerHolds(c, claims, byName, |claims|, s, x, later, results, i) {
      assert AnswerHolds(c, claims, byName, |claims|, s, w, call, results, i);
      if 0 <= i < |claims| && LastNamed(claims, |claims|, i) {
        assert claims[i] in claims;
        AnswerStays(c, claims[i].value, byName, s, w, call, s, x, later, "", results[claims[i].value.uid]);
      }
    }
  }

  lemma PromotedStays(s0: State, s: State, call: Call, later: Call, from: nat)
    requires from <= |call| && call <= later && PromotedSince(s0, s, call, from)
    ensures PromotedSince(s0, s, later, from)
  {
    forall u ensures PromotedAs(s0, s, later, from, u) {
      assert PromotedAs(s0, s, call, from, u);
      assert forall i :: 0 <= i < |call| ==> call[i] == later[i];
    }
  }

  /** What counts of the state before a batch is which claims were prepared. */
  lemma SameStart(c: Config, claims: seq<Option<ResourceClaim>>, byName: map<string, InventoryDevice>, s0: State,
                  s1: State, s: State, w: World, call: Call, from: nat, r: Result<map<string, Delivery>>)
    requires from <= |call| && s0.claims == s1.claims && PromotedSince(s1, s, call, from)
    requires r.Ok? ==> Answered(c, claims, byName, |claims|, s1, s, w, call, r.value)
    ensures PromotedSince(s0, s, call, 0)
    ensures r.Ok? ==> Answered(c, claims, byName, |claims|, s0, s, w, call, r.value)
  {
    NewStepsGrow(call, from, 0);
    forall u ensures PromotedAs(s0, s, call, 0, u) { assert PromotedAs(s1, s, call, from, u); }
    if r.Ok? {
      forall u ensures NewlyAnswered(claims, |claims|, s0, s, r.value, u) {
        assert NewlyAnswered(claims, |claims|, s1, s, r.value, u);
      }
    }
  }

  /**
   * What a batch answers as a whole: with an error only if a step failed, else for each claim, judged by the inventory
   * it looked at first.
   */
  ghost predicate BatchAnswered(c: Config, claims: seq<Option<ResourceClaim>>, s0: State, s: State, w: World,
                                call: Call, r: Result<map<string, Delivery>>) {
    if r.Err? then Rough(c, call, 0)
    else
      && |call| > 1 && call[1].step.Looked? && call[1].step.seen.Some?
      && Answered(c, claims, ByName(call[1].step.seen.value.devices), |claims|, s0, s, w, call, r.value)
  }

  // ---- Releases ----

  /** Why a claim was not released: a step failed, or one of its devices was not there. */
  ghost predicate ReleaseHindered(c: Config, byName: map<string, InventoryDevice>, call: Call, from: nat,
                                  claims: Claims, uid: string) {
    uid in claims && (Rough(c, call, from) || Unavailable(byName, claims[uid].devices))
  }

  /** The releases that failed among `results`. */
  ghost predicate FailuresExplained(c: Config, byName: map<string, InventoryDevice>, call: Call, from: nat,
                                    claims: Claims, results: map<string, bool>) {
    forall uid :: uid in results && !results[uid] ==> ReleaseHindered(c, byName, call, from, claims, uid)
  }

  lemma ReleaseExplained(c: Config, byName: map<string, InventoryDevice>, s: State, w: World, t: State, x: World,
                         call: Call, later: Call, from: nat, results: map<string, bool>, uid: string, ok: bool)
    requires FailuresExplained(c, byName, call, from, s.claims, results) && OnlyTouches(s, w, t, x, uid)
    requires call <= later && from <= |call|
    requires !ok ==> ReleaseHindered(c, byName, later, |call|, t.claims, uid)
    ensures FailuresExplained(c, byName, later, from, t.claims, results[uid := ok])
  {
    if Rough(c, call, from) {
      RoughStays(c, call, later, from, from);
    }
  }

  lemma ExplainedStays(c: Config, byName: map<string, InventoryDevice>, call: Call, later: Call, from: nat,
                       claims: Claims, results: map<string, bool>)
    requires FailuresExplained(c, byName, call, from, claims, results) && call <= later
    ensures FailuresExplained(c, byName, later, from, claims, results)
  {
    if Rough(c, call, from) {
      RoughStays(c, call, later, from, from);
    }
  }

  /**
   * What a batch of releases answers: with an error only if a step failed, else for each claim that was named; a claim
   * is released unless a step failed or the inventory did not show each of its devices present.
   */
  ghost predicate ReleasesAnswered(c: Config, uids: set<string>, claims: Claims, call: Call,
                                   r: Result<map<string, bool>>) {
    if r.Err? then Rough(c, call, 0)
    else
      && r.value.Keys == uids && |call| > 1 && call[1].step.Looked? && call[1].step.seen.Some?
      && forall uid :: uid in uids ==>
            && (r.value[uid] <==> uid !in claims)
            && (uid in claims ==> Rough(c, call, 0) || SomeAbsent(call[1].step.seen.value, claims[uid].devices))
  }
}
