/** One node's device observations. */
module Inventory {
  import opened Api

  datatype Health = Healthy | Unhealthy | Unknown

  /** A link state, trimmed and lower-cased. */
  datatype FabricLink = FabricLink(name: string, state: string)

  /** `name` is the published DRA name. */
  datatype InventoryDevice = InventoryDevice(
    name: string, stableID: string, path: string, major: nat, minor: nat, present: bool,
    eligible: bool, rejectionReason: string, health: Health, faultCode: string,
    iommuGroup: int, iommuGroupSize: int, links: seq<FabricLink>)

  datatype Snapshot = Snapshot(devices: seq<InventoryDevice>, observedAt: Option<int>)

  datatype Config = Config(nodeName: string, driver: string, requireIOMMU: bool, maxInventoryAge: int)

  /** Nanoseconds. */
  const FUTURE_TOLERANCE := 5_000_000_000

  predicate FreshAt(s: Snapshot, maxAge: int, now: int) {
    s.observedAt.Some? && -FUTURE_TOLERANCE <= now - s.observedAt.value <= maxAge
  }

  function HealthText(h: Health): string {
    match h case Healthy => "Healthy" case Unhealthy => "Unhealthy" case Unknown => "Unknown"
  }

  function LinkReason(links: seq<FabricLink>): string {
    if links == [] then ""
    else if links[0].state != "" && links[0].state != "up" then "fabric link " + links[0].name + " is " + links[0].state
    else LinkReason(links[1..])
  }

  /** `deviceUnsafeReason`: the first fault that blocks a device; empty if there is none. */
  function UnsafeReason(c: Config, d: InventoryDevice): string {
    if !d.present then "character device is unavailable"
    else if !d.eligible && d.rejectionReason != "" then d.rejectionReason
    else if !d.eligible then "device is ineligible"
    else if d.health != Healthy then "device health is " + HealthText(d.health)
    else if d.faultCode != "" && d.faultCode != "0" then "hardware fault " + d.faultCode
    else if c.requireIOMMU && d.iommuGroup < 0 then "device has no IOMMU group"
    else if c.requireIOMMU && d.iommuGroupSize != 1 then "IOMMU group contains other devices"
    else LinkReason(d.links)
  }

  ghost predicate LinksUp(links: seq<FabricLink>) {
    forall i :: 0 <= i < |links| ==> links[i].state == "" || links[i].state == "up"
  }

  ghost predicate Isolated(c: Config, d: InventoryDevice) {
    c.requireIOMMU ==> d.iommuGroup >= 0 && d.iommuGroupSize == 1
  }

  /** Present, eligible, healthy, fault-free, isolated if required, and with no link down. */
  ghost predicate SafeDevice(c: Config, d: InventoryDevice) {
    && d.present && d.eligible && d.health == Healthy && (d.faultCode == "" || d.faultCode == "0")
    && Isolated(c, d) && LinksUp(d.links)
  }

  lemma {:induction false} LinkReasonEmpty(links: seq<FabricLink>)
    ensures LinkReason(links) == "" <==> LinksUp(links)
  {
    if links != [] {
      LinkReasonEmpty(links[1..]);
      assert links == [links[0]] + links[1..];
    }
  }

  /** A device is safe exactly when no unsafe reason is reported. */
  lemma SafeDeviceMeans(c: Config, d: InventoryDevice)
    ensures SafeDevice(c, d) <==> UnsafeReason(c, d) == ""
  {
    LinkReasonEmpty(d.links);
  }

  /** The `byName` map: a later device replaces an earlier one with the same name. */
  function ByName(devices: seq<InventoryDevice>): map<string, InventoryDevice> {
    if devices == [] then map[]
    else
      var last := devices[|devices| - 1];
      ByName(devices[..|devices| - 1])[last.name := last]
  }

  ghost predicate DistinctNames(s: Snapshot) {
    forall i, j :: 0 <= i < j < |s.devices| ==> s.devices[i].name != s.devices[j].name
  }

  lemma {:induction false} ByNameMembers(devices: seq<InventoryDevice>)
    ensures forall n :: n in ByName(devices) ==> ByName(devices)[n] in devices && ByName(devices)[n].name == n
    ensures forall d :: d in devices ==> d.name in ByName(devices)
  {
    if devices != [] {
      ByNameMembers(devices[..|devices| - 1]);
      assert devices == devices[..|devices| - 1] + [devices[|devices| - 1]];
    }
  }

  lemma ByNameDistinct(s: Snapshot, d: InventoryDevice)
    requires DistinctNames(s) && d in s.devices
    ensures d.name in ByName(s.devices) && ByName(s.devices)[d.name] == d
  {
    ByNameMembers(s.devices);
    var i :| 0 <= i < |s.devices| && s.devices[i] == d;
    var j :| 0 <= j < |s.devices| && s.devices[j] == ByName(s.devices)[d.name];
    assert i == j;
  }
}
