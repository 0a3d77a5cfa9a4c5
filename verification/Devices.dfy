/** The ResourceSlice content built from the tracked set, and the comparison that
    decides whether it has to be published again. */
module Devices {
  import opened Types
  import opened Sorting
  import opened Reconcile

  const NO_EXECUTE: string := "NoExecute"
  const NANOSECONDS: int := 1_000_000_000

  // The ResourceSlice attribute names of the consts package.
  datatype AttributeName =
    | AttrType | AttrSoC | AttrVendor | AttrModel | AttrKMD | AttrCoreCount
    | AttrShaderCores | AttrDeviceNode | AttrDeviceGID | AttrFunction | AttrBlock

  datatype Attribute = StringValue(s: string) | IntValue(i: int)

  datatype Range = Range(min: int, max: int, step: Option<int>)

  datatype RequestPolicy = RequestPolicy(default: int, validRange: Option<Range>)

  datatype Taint = Taint(key: string, value: string, effect: string, timeAdded: Option<Time>)

  datatype ResourceDevice = ResourceDevice(
    name: string,
    attributes: map<AttributeName, Attribute>,
    allowMultipleAllocations: bool,
    shares: int,
    policy: RequestPolicy,
    taints: seq<Taint>)

  // NoPools is the zero DriverResources a DeviceState starts with.
  datatype Resources = NoPools | Pool(node: string, devices: seq<ResourceDevice>)

  // ---- One device ----

  function ShareRequestPolicy(maxAlloc: int): RequestPolicy {
    if maxAlloc < 1 then RequestPolicy(1, None)
    else RequestPolicy(1, Some(Range(1, maxAlloc, if maxAlloc >= 2 then Some(1) else None)))
  }

  // A request the scheduler accepts under the policy: within the range and on
  // its step lattice. Without a range only the default is meaningful.
  predicate Admits(p: RequestPolicy, request: int) {
    p.validRange.Some? &&
    var r := p.validRange.value;
    && r.min <= request <= r.max
    && (r.step.Some? ==> r.step.value > 0 && (request - r.min) % r.step.value == 0)
  }

  /** A device with capacity is offered in exactly 1..capacity shares, a claim that
      names no count takes the least of them, so that as many such claims fit as there
      are shares, and the policy meets the API's own bounds on Min, Default, Step and
      Max. Without capacity nothing is offered. */
  lemma SharePolicyLattice(maxAlloc: int)
    ensures forall request :: Admits(ShareRequestPolicy(maxAlloc), request) <==> 1 <= request <= maxAlloc
    ensures var p := ShareRequestPolicy(maxAlloc);
            && p.default == 1 && (forall request :: Admits(p, request) ==> p.default <= request)
            && (maxAlloc >= 1 ==> Admits(p, p.default))
            && (maxAlloc >= 1 <==> p.validRange.Some?)
    ensures var p := ShareRequestPolicy(maxAlloc);
            p.validRange.Some? ==>
              && p.validRange.value.min <= p.default <= p.validRange.value.max == maxAlloc
              && (p.validRange.value.step.Some? ==> p.validRange.value.min + p.validRange.value.step.value <= maxAlloc)
              && (p.validRange.value.step.None? ==> maxAlloc == 1)
  {
    forall request ensures Admits(ShareRequestPolicy(maxAlloc), request) <==> 1 <= request <= maxAlloc {
      assert (request - 1) % 1 == 0;
    }
  }

  function AttributeOf(d: Device, key: AttributeName): Option<Attribute> {
    match key
    case AttrType => Some(StringValue(d.kind))
    case AttrVendor => Some(StringValue(d.vendor))
    case AttrModel => Some(StringValue(d.model))
    case AttrKMD => Some(StringValue(d.kmd))
    case AttrDeviceNode => Some(StringValue(d.deviceNode))
    case AttrDeviceGID => if d.deviceGID.Some? then Some(IntValue(d.deviceGID.value)) else None
    case AttrSoC => OptionalString(d.soc)
    case AttrCoreCount => OptionalCount(d.coreCount)
    case AttrShaderCores => OptionalCount(d.shaderCores)
    case AttrFunction => OptionalString(d.purpose)
    case AttrBlock => OptionalString(d.block)
  }

  function OptionalString(value: string): Option<Attribute> {
    if value != "" then Some(StringValue(value)) else None
  }

  function OptionalCount(value: int): Option<Attribute> {
    if value > 0 then Some(IntValue(value)) else None
  }

  function Attributes(d: Device): map<AttributeName, Attribute> {
    map key: AttributeName | AttributeOf(d, key).Some? :: AttributeOf(d, key).value
  }

  function Taints(td: TrackedDevice): seq<Taint> {
    if td.status == Unhealthy then
      [Taint(TAINT_UNHEALTHY, td.taintValue, NO_EXECUTE, if td.taintedAt != 0 then Some(td.taintedAt) else None)]
    else []
  }

  function ToResourceDevice(td: TrackedDevice): ResourceDevice {
    ResourceDevice(td.device.name, Attributes(td.device), true, td.device.maxAllocations,
                   ShareRequestPolicy(td.device.maxAllocations), Taints(td))
  }

  // Reading a published device back, as a consumer of the attributes would.
  function StringAttribute(m: map<AttributeName, Attribute>, key: AttributeName): string {
    if key in m && m[key].StringValue? then m[key].s else ""
  }

  function CountAttribute(m: map<AttributeName, Attribute>, key: AttributeName): int {
    if key in m && m[key].IntValue? then m[key].i else 0
  }

  function FromResourceDevice(rd: ResourceDevice): Device {
    var a := rd.attributes;
    Device(rd.name, StringAttribute(a, AttrType), StringAttribute(a, AttrSoC), StringAttribute(a, AttrVendor),
           StringAttribute(a, AttrModel), StringAttribute(a, AttrKMD), CountAttribute(a, AttrCoreCount),
           CountAttribute(a, AttrShaderCores), StringAttribute(a, AttrDeviceNode), rd.shares,
           StringAttribute(a, AttrFunction), StringAttribute(a, AttrBlock),
           if AttrDeviceGID in a && a[AttrDeviceGID].IntValue? then Some(a[AttrDeviceGID].i) else None)
  }

  /** Nothing about a device is lost by publishing it. */
  lemma PublishRoundTrip(td: TrackedDevice)
    requires td.device.coreCount >= 0 && td.device.shaderCores >= 0
    ensures FromResourceDevice(ToResourceDevice(td)) == td.device
  {}

  /** What every device says of itself is always there; the rest only if it says
      something: no published attribute is an empty string or a count of zero but those. */
  lemma AttributesSaySomething(td: TrackedDevice, key: AttributeName)
    ensures var a := ToResourceDevice(td).attributes;
            && (key in {AttrType, AttrVendor, AttrModel, AttrKMD, AttrDeviceNode} ==> key in a)
            && (key in a && key !in {AttrType, AttrVendor, AttrModel, AttrKMD, AttrDeviceNode, AttrDeviceGID} ==>
                  match a[key]
                  case StringValue(text) => text != ""
                  case IntValue(count) => count > 0)
            && (key in a ==> (a[key].IntValue? <==> key in {AttrCoreCount, AttrShaderCores, AttrDeviceGID}))
  {}

  /** A well-formed entry is published with one taint, timestamped, exactly when it
      is unhealthy; the taint tells a lost node from an unlisted device. */
  lemma TaintedIffUnhealthy(name: string, td: TrackedDevice)
    requires WellFormed(name, td)
    ensures var taints := ToResourceDevice(td).taints;
            if td.status == Unhealthy then
              && |taints| == 1 && taints[0].timeAdded == Some(td.taintedAt)
              && taints[0].key == "dra.rockchip.com/unhealthy" && taints[0].effect == "NoExecute"
              && taints[0].value == (if td.retained then "not-discovered" else "node-missing")
              && td.message == (if td.retained then "device no longer discovered" else "device node missing")
            else taints == []
  {}

  // ---- The whole set ----

  predicate NameLess(a: TrackedDevice, b: TrackedDevice) {
    StringLess(a.device.name, b.device.name)
  }

  lemma NameLessStrict()
    ensures StrictOrder(NameLess)
  {
    forall a: TrackedDevice, b: TrackedDevice ensures !(NameLess(a, b) && NameLess(b, a)) {
      StringLessAsymmetric(a.device.name, b.device.name);
    }
    forall a, b, c | NameLess(a, b) && NameLess(b, c) ensures NameLess(a, c) {
      StringLessTransitive(a.device.name, b.device.name, c.device.name);
    }
  }

  function Published(list: seq<TrackedDevice>): (r: seq<ResourceDevice>) {
    seq(|list|, i requires 0 <= i < |list| => ToResourceDevice(list[i]))
  }

  /** devicesToResources: sort a copy by name, then project it device by device. */
  method DevicesToResources(node: string, devices: seq<TrackedDevice>) returns (r: Resources)
    ensures r == Pool(node, Published(Sort(devices, NameLess)))
  {
    var sorted := Sort(devices, NameLess);
    var out := [];
    for i := 0 to |sorted|
      invariant out == Published(sorted[..i])
    {
      out := out + [ToResourceDevice(sorted[i])];
    }
    assert sorted[..|sorted|] == sorted;
    r := Pool(node, out);
  }

  predicate KeysAreNames(m: Tracked) {
    forall name :: name in m ==> m[name].device.name == name
  }

  predicate Holds(m: Tracked, td: TrackedDevice) {
    td.device.name in m && m[td.device.name] == td
  }

  ghost predicate DistinctNames(list: seq<TrackedDevice>) {
    forall i, j :: 0 <= i < j < |list| ==> list[i].device.name != list[j].device.name
  }

  // The list holds every entry of the map once, in any order.
  ghost predicate Lists(list: seq<TrackedDevice>, m: Tracked) {
    DistinctNames(list) && forall td :: td in list <==> Holds(m, td)
  }

  /** Go walks the map in an unspecified order; whatever it is, the list holds
      every entry once. */
  method TrackedList(m: Tracked) returns (list: seq<TrackedDevice>)
    ensures KeysAreNames(m) ==> Lists(list, m)
  {
    list := [];
    var todo := m.Keys;
    while todo != {}
      invariant todo <= m.Keys
      invariant KeysAreNames(m) ==> DistinctNames(list)
      invariant KeysAreNames(m) ==> forall td :: td in list <==> Holds(m, td) && td.device.name !in todo
      decreases todo
    {
      var name :| name in todo;
      todo := todo - {name};
      list := list + [m[name]];
    }
  }

  // The entries of the map in name order.
  ghost function CanonicalList(m: Tracked): (list: seq<TrackedDevice>)
    requires KeysAreNames(m)
    ensures Lists(list, m) && StrictlySorted(list, NameLess)
  {
    if m == map[] then []
    else
      var name :| name in m;
      var rest := CanonicalList(m - {name});
      ExtendCanonical(m, name, rest);
      Insert(m[name], rest, NameLess)
  }

  lemma ExtendCanonical(m: Tracked, name: string, rest: seq<TrackedDevice>)
    requires KeysAreNames(m) && name in m
    requires Lists(rest, m - {name}) && StrictlySorted(rest, NameLess)
    ensures var list := Insert(m[name], rest, NameLess);
            Lists(list, m) && StrictlySorted(list, NameLess)
  {
    var list := Insert(m[name], rest, NameLess);
    NameLessStrict();
    forall td | td in rest ensures NameLess(m[name], td) || NameLess(td, m[name]) {
      assert Holds(m - {name}, td);
      StringLessConnected(m[name].device.name, td.device.name);
    }
    InsertStrict(m[name], rest, NameLess);
    forall td ensures td in list <==> Holds(m, td) {
      assert td in list <==> td in multiset(list);
      assert td in rest <==> td in multiset(rest);
      assert td in rest <==> Holds(m - {name}, td);
    }
    SortedDistinct(list);
  }

  lemma SortedDistinct(list: seq<TrackedDevice>)
    requires StrictlySorted(list, NameLess)
    ensures DistinctNames(list)
  {
    forall i, j | 0 <= i < j < |list| ensures list[i].device.name != list[j].device.name {
      assert NameLess(list[i], list[j]);
      StringLessAsymmetric(list[i].device.name, list[j].device.name);
    }
  }

  ghost function ResourcesOf(node: string, m: Tracked): Resources
    requires KeysAreNames(m)
  {
    Pool(node, Published(CanonicalList(m)))
  }

  /** Canonical publication: every order in which the map can be walked yields the
      same ResourceSlice, in strict name order. */
  lemma CanonicalPublication(m: Tracked, list: seq<TrackedDevice>)
    requires KeysAreNames(m) && Lists(list, m)
    ensures Sort(list, NameLess) == CanonicalList(m)
    ensures StrictlySorted(Sort(list, NameLess), NameLess)
    ensures multiset(CanonicalList(m)) == multiset(list)
  {
    NameLessStrict();
    forall i, j | 0 <= i < j < |list| ensures NameLess(list[i], list[j]) || NameLess(list[j], list[i]) {
      StringLessConnected(list[i].device.name, list[j].device.name);
    }
    SortStrict(list, NameLess);
    SameElements(list, Sort(list, NameLess));
    StrictlySortedUnique(Sort(list, NameLess), CanonicalList(m), NameLess);
  }

  // ---- resourcesEqual ----

  // JSON keeps a taint's time only to the second (metav1.Time), so the bytes
  // resourcesEqual compares are those of the content with times cut down.
  function Wire(t: Taint): Taint {
    t.(timeAdded := if t.timeAdded.Some? then Some(t.timeAdded.value / NANOSECONDS) else None)
  }

  function WireDevice(rd: ResourceDevice): ResourceDevice {
    rd.(taints := seq(|rd.taints|, i requires 0 <= i < |rd.taints| => Wire(rd.taints[i])))
  }

  function WireForm(r: Resources): Resources {
    match r
    case NoPools => NoPools
    case Pool(node, devices) => Pool(node, seq(|devices|, i requires 0 <= i < |devices| => WireDevice(devices[i])))
  }

  predicate ResourcesEqual(a: Resources, b: Resources) {
    WireForm(a) == WireForm(b)
  }

  /** Comparing to the second is not comparing: two contents may differ and pass
      for equal. */
  lemma WireFormLosesTime()
    ensures exists a, b :: a != b && ResourcesEqual(a, b)
  {
    var d := Device("npu-0", "npu", "", "", "", "", 0, 0, "", 1, "", "", None);
    var td := TrackedDevice(d, Unhealthy, MSG_NODE_MISSING, true, 1, TAINT_NODE_MISSING, false);
    var a := Pool("n", [ToResourceDevice(td)]);
    var b := Pool("n", [ToResourceDevice(td.(taintedAt := 2))]);
    assert a.devices[0].taints[0].timeAdded != b.devices[0].taints[0].timeAdded;
    assert WireDevice(a.devices[0]) == WireDevice(b.devices[0]);
    assert ResourcesEqual(a, b);
  }

  // A device tainted on both sides carries the same time.
  ghost predicate TaintTimesKept(prev: Tracked, next: Tracked) {
    forall name :: name in prev && name in next && prev[name].status == Unhealthy && next[name].status == Unhealthy
                   ==> prev[name].taintedAt == next[name].taintedAt
  }

  lemma PassKeepsTaintTimes(prev: Tracked, found: seq<Device>, snapshots: map<string, Device>, env: Env)
    requires AllWellFormed(prev)
    ensures TaintTimesKept(prev, NextTracked(prev, found, snapshots, env))
  {
    var next := NextTracked(prev, found, snapshots, env);
    forall name | name in prev && name in next && prev[name].status == Unhealthy && next[name].status == Unhealthy
      ensures prev[name].taintedAt == next[name].taintedAt
    {
      assert WellFormed(name, prev[name]);
      assert next[name] == NextEntry(prev, found, snapshots, env, name);
    }
  }

  /** ... but from one pass to the next it is exact: a taint time cannot change
      without the taint first going away. */
  lemma ResourcesEqualExact(node: string, prev: Tracked, next: Tracked)
    requires KeysAreNames(prev) && KeysAreNames(next) && TaintTimesKept(prev, next)
    ensures ResourcesEqual(ResourcesOf(node, prev), ResourcesOf(node, next)) <==>
            ResourcesOf(node, prev) == ResourcesOf(node, next)
  {
    var p, n := CanonicalList(prev), CanonicalList(next);
    if ResourcesEqual(ResourcesOf(node, prev), ResourcesOf(node, next)) {
      var wp, wn := WireForm(ResourcesOf(node, prev)).devices, WireForm(ResourcesOf(node, next)).devices;
      assert |p| == |wp| == |wn| == |n|;
      forall i | 0 <= i < |p| ensures ToResourceDevice(p[i]) == ToResourceDevice(n[i]) {
        assert wp[i] == WireDevice(ToResourceDevice(p[i])) && wn[i] == WireDevice(ToResourceDevice(n[i]));
        assert p[i] in p && n[i] in n;
        SameWireSameDevice(prev, next, p[i], n[i]);
      }
      assert Published(p) == Published(n);
    }
  }

  lemma SameWireSameDevice(prev: Tracked, next: Tracked, a: TrackedDevice, b: TrackedDevice)
    requires TaintTimesKept(prev, next) && Holds(prev, a) && Holds(next, b)
    requires WireDevice(ToResourceDevice(a)) == WireDevice(ToResourceDevice(b))
    ensures ToResourceDevice(a) == ToResourceDevice(b)
  {
    var wa, wb := WireDevice(ToResourceDevice(a)), WireDevice(ToResourceDevice(b));
    assert wa.name == a.device.name && wb.name == b.device.name;
    assert |Taints(a)| == |wa.taints| == |wb.taints| == |Taints(b)|;
    if a.status == Unhealthy {
      assert wa.taints[0] == Wire(Taints(a)[0]) && wb.taints[0] == Wire(Taints(b)[0]);
      assert prev[a.device.name] == a && next[a.device.name] == b;
    }
    assert Taints(a) == Taints(b);
  }

  /** A device is tracked exactly when it is published. */
  lemma PublishedNames(node: string, m: Tracked, name: string)
    requires KeysAreNames(m)
    ensures var devices := ResourcesOf(node, m).devices;
            name in m <==> exists i :: 0 <= i < |devices| && devices[i].name == name
    ensures name in m ==> ToResourceDevice(m[name]) in ResourcesOf(node, m).devices
  {
    var list, devices := CanonicalList(m), ResourcesOf(node, m).devices;
    if name in m {
      assert Holds(m, m[name]);
      var i :| 0 <= i < |list| && list[i] == m[name];
      assert devices[i] == ToResourceDevice(m[name]);
    }
    if i :| 0 <= i < |devices| && devices[i].name == name {
      assert devices[i] == ToResourceDevice(list[i]) && list[i] in list;
      assert Holds(m, list[i]);
    }
  }
}
