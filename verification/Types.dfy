/** The values the kubelet plugin passes around: discovered accelerators, the
    health it tracks for them, and the claims it prepares. */
module Types {

  datatype Option<+T> = None | Some(value: T)

  datatype Result<+T> = Ok(value: T) | Err(error: string)

  type UID = string

  // time.Time: zero is the Go zero value, on which IsZero holds.
  type Time = nat

  // A reading of the clock; time.Now never returns the zero time.
  type Instant = t: nat | t > 0 witness 1

  const TAINT_UNHEALTHY: string := "dra.rockchip.com/unhealthy"
  const TAINT_NODE_MISSING: string := "node-missing"
  const TAINT_NOT_DISCOVERED: string := "not-discovered"
  const MSG_NODE_MISSING: string := "device node missing"
  const MSG_NOT_DISCOVERED: string := "device no longer discovered"
  const MSG_NOT_YET_PRESENT: string := "device node not yet present"

  datatype Device = Device(
    name: string,
    kind: string,
    soc: string,
    vendor: string,
    model: string,
    kmd: string,
    coreCount: int,
    shaderCores: int,
    deviceNode: string,
    maxAllocations: int,
    purpose: string,
    block: string,
    deviceGID: Option<int>)

  // Unset is the empty string a fresh trackedDevice starts with.
  datatype Status = Unset | Unknown | Healthy | Unhealthy

  datatype TrackedDevice = TrackedDevice(
    device: Device,
    status: Status,
    message: string,
    nodeSeen: bool,
    taintedAt: Time,
    taintValue: string,
    retained: bool)

  type Tracked = map<string, TrackedDevice>

  datatype AllocationResult = AllocationResult(
    request: string,
    driver: string,
    pool: string,
    device: string,
    shareID: Option<string>)

  datatype Claim = Claim(uid: UID, allocation: Option<seq<AllocationResult>>)

  datatype PreparedDevice = PreparedDevice(
    requestName: string,
    poolName: string,
    deviceName: string,
    cdiDeviceIDs: seq<string>,
    shareID: Option<string>,
    discovered: Device)

  function Lookup<V>(m: map<string, V>, key: string): Option<V> {
    if key in m then Some(m[key]) else None
  }

  function Names(devices: seq<Device>): set<string> {
    set d | d in devices :: d.name
  }

  // What foundByName[name] holds once the whole list has been stored: the last
  // device of that name.
  function LastNamed(devices: seq<Device>, name: string): (r: Option<Device>)
    ensures forall d :: d in devices && d.name == name ==> r.Some?
    ensures r.Some? ==> r.value in devices && r.value.name == name
  {
    if devices == [] then None
    else
      var rest, last := devices[..|devices| - 1], devices[|devices| - 1];
      assert devices == rest + [last];
      if last.name == name then Some(last) else LastNamed(rest, name)
  }

  lemma StoreNext(devices: seq<Device>, d: Device)
    ensures Names(devices + [d]) == Names(devices) + {d.name}
    ensures forall name ::
              LastNamed(devices + [d], name) == if name == d.name then Some(d) else LastNamed(devices, name)
  {
    assert (devices + [d])[..|devices|] == devices;
    assert forall x :: x in devices + [d] <==> x in devices || x == d;
  }
}
