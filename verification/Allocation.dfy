/** Which devices a claim may be prepared with, and what is remembered of them. */
module Allocation {
  import opened Types
  import opened Reconcile
  import opened Cdi

  // What identifies one plugin on one node for its whole life.
  datatype Plugin = Plugin(driver: string, node: string, mock: bool)

  function PrepareError(td: TrackedDevice, mock: bool, nodeExists: bool): Option<string> {
    if td.status == Unhealthy then
      Some("device " + td.device.name + " is unhealthy (" + TAINT_UNHEALTHY + "=" + td.taintValue + "): " + td.message)
    else if !mock && td.device.deviceNode != "" && !nodeExists then
      Some("device " + td.device.name + " node " + td.device.deviceNode + " is not available")
    else None
  }

  // The result of one allocation entry, or nothing when it is another driver's.
  function PrepareOne(p: Plugin, tracked: Tracked, uid: UID, r: AllocationResult,
                      stat: string -> bool): Result<PreparedDevice> {
    if r.device !in tracked then Err("requested device is not allocatable: " + r.device)
    else
      var td := tracked[r.device];
      match PrepareError(td, p.mock, NodeExists(p.mock, stat, td.device.deviceNode))
      case Some(e) => Err(e)
      case None =>
        Ok(PreparedDevice(r.request, r.pool, r.device, ClaimDeviceIDs(p.driver, uid, r.device, r.shareID), r.shareID,
                          td.device))
  }

  function PrepareAll(p: Plugin, tracked: Tracked, uid: UID, results: seq<AllocationResult>,
                      stat: string -> bool): Result<seq<PreparedDevice>> {
    if results == [] then Ok([])
    else
      var last := results[|results| - 1];
      match PrepareAll(p, tracked, uid, results[..|results| - 1], stat)
      case Err(e) => Err(e)
      case Ok(prepared) =>
        if last.driver != p.driver then Ok(prepared)
        else
          match PrepareOne(p, tracked, uid, last, stat)
          case Err(e) => Err(e)
          case Ok(device) => Ok(prepared + [device])
  }

  function ComputeDevices(p: Plugin, tracked: Tracked, claim: Claim,
                          stat: string -> bool): Result<seq<PreparedDevice>> {
    if claim.allocation.None? then Err("claim not yet allocated")
    else PrepareAll(p, tracked, claim.uid, claim.allocation.value, stat)
  }

  /** The loop of computeDevices: it stops at the first entry it must reject. */
  method PrepareResults(p: Plugin, tracked: Tracked, claim: Claim,
                        stat: string -> bool) returns (r: Result<seq<PreparedDevice>>)
    ensures r == ComputeDevices(p, tracked, claim, stat)
  {
    if claim.allocation.None? {
      return Err("claim not yet allocated");
    }
    var results := claim.allocation.value;
    var prepared := [];
    for i := 0 to |results|
      invariant PrepareAll(p, tracked, claim.uid, results[..i], stat) == Ok(prepared)
    {
      PrepareNext(p, tracked, claim.uid, results, i, stat);
      if results[i].driver != p.driver {
        continue;
      }
      var one := PrepareOne(p, tracked, claim.uid, results[i], stat);
      if one.Err? {
        FirstErrorStands(p, tracked, claim.uid, results, i + 1, stat);
        return Err(one.error);
      }
      prepared := prepared + [one.value];
    }
    assert results[..|results|] == results;
    r := Ok(prepared);
  }

  lemma PrepareNext(p: Plugin, tracked: Tracked, uid: UID, results: seq<AllocationResult>, i: nat, stat: string -> bool)
    requires i < |results| && PrepareAll(p, tracked, uid, results[..i], stat).Ok?
    ensures var prepared := PrepareAll(p, tracked, uid, results[..i], stat).value;
            PrepareAll(p, tracked, uid, results[..i + 1], stat) ==
              if results[i].driver != p.driver then Ok(prepared)
              else match PrepareOne(p, tracked, uid, results[i], stat)
                   case Err(e) => Err(e)
                   case Ok(device) => Ok(prepared + [device])
  {
    assert results[..i + 1][..i] == results[..i];
  }

  lemma {:induction false} FirstErrorStands(p: Plugin, tracked: Tracked, uid: UID, results: seq<AllocationResult>,
                                            i: nat, stat: string -> bool)
    requires i <= |results| && PrepareAll(p, tracked, uid, results[..i], stat).Err?
    ensures PrepareAll(p, tracked, uid, results, stat) == PrepareAll(p, tracked, uid, results[..i], stat)
  {
    if i == |results| {
      assert results[..i] == results;
    } else {
      assert results[..|results| - 1][..i] == results[..i];
      FirstErrorStands(p, tracked, uid, results[..|results| - 1], i, stat);
    }
  }

  // An entry this driver may prepare: tracked, not unhealthy, its node present
  // unless devices are mocked or the device has no node.
  predicate Preparable(p: Plugin, tracked: Tracked, r: AllocationResult, stat: string -> bool) {
    && r.device in tracked
    && tracked[r.device].status != Unhealthy
    && (p.mock || tracked[r.device].device.deviceNode == "" || stat(tracked[r.device].device.deviceNode))
  }

  // What a prepared entry tells of the allocation entry and the device behind it.
  predicate PreparedFrom(p: Plugin, tracked: Tracked, uid: UID, d: PreparedDevice, r: AllocationResult) {
    && d.deviceName == r.device && d.requestName == r.request && d.poolName == r.pool && d.shareID == r.shareID
    && r.device in tracked && d.discovered == tracked[r.device].device
    && d.cdiDeviceIDs == ClaimDeviceIDs(p.driver, uid, r.device, r.shareID)
  }

  function Ours(p: Plugin, results: seq<AllocationResult>): seq<AllocationResult> {
    if results == [] then []
    else
      var rest := Ours(p, results[..|results| - 1]);
      if results[|results| - 1].driver == p.driver then rest + [results[|results| - 1]] else rest
  }

  ghost predicate AllPreparable(p: Plugin, tracked: Tracked, ours: seq<AllocationResult>, stat: string -> bool) {
    forall r :: r in ours ==> Preparable(p, tracked, r, stat)
  }

  /** A claim is prepared exactly when every entry for this driver is preparable,
      and then with one device per entry, in order. */
  lemma {:induction false} AllOrNothing(p: Plugin, tracked: Tracked, uid: UID, results: seq<AllocationResult>,
                                        stat: string -> bool)
    ensures var r, ours := PrepareAll(p, tracked, uid, results, stat), Ours(p, results);
            && (r.Ok? <==> AllPreparable(p, tracked, ours, stat))
            && (r.Ok? ==> |r.value| == |ours| && forall i :: 0 <= i < |ours| ==>
                PreparedFrom(p, tracked, uid, r.value[i], ours[i]))
  {
    if results != [] {
      var rest, last := results[..|results| - 1], results[|results| - 1];
      AllOrNothing(p, tracked, uid, rest, stat);
      if last.driver == p.driver {
        assert PrepareOne(p, tracked, uid, last, stat).Ok? <==> Preparable(p, tracked, last, stat);
        assert forall r :: r in Ours(p, results) <==> r in Ours(p, rest) || r == last;
      }
    }
  }

  /** A rejected claim is rejected for its first entry that is not preparable. */
  lemma {:induction false} FirstRejected(p: Plugin, tracked: Tracked, uid: UID, results: seq<AllocationResult>,
                                         stat: string -> bool) returns (i: nat)
    requires PrepareAll(p, tracked, uid, results, stat).Err?
    ensures i < |Ours(p, results)|
    ensures RejectedAt(p, tracked, uid, Ours(p, results), stat, i, PrepareAll(p, tracked, uid, results, stat).error)
  {
    var rest, last := results[..|results| - 1], results[|results| - 1];
    var ours, earlier := Ours(p, results), Ours(p, rest);
    if PrepareAll(p, tracked, uid, rest, stat).Err? {
      i := FirstRejected(p, tracked, uid, rest, stat);
      assert ours[..i] == earlier[..i];
    } else {
      AllOrNothing(p, tracked, uid, rest, stat);
      assert ours == earlier + [last];
      i := |earlier|;
      assert ours[..i] == earlier;
      assert PrepareOne(p, tracked, uid, last, stat).Ok? <==> Preparable(p, tracked, last, stat);
    }
  }

  ghost predicate RejectedAt(p: Plugin, tracked: Tracked, uid: UID, ours: seq<AllocationResult>, stat: string -> bool,
                             i: nat, error: string)
    requires i < |ours|
  {
    && AllPreparable(p, tracked, ours[..i], stat) && !Preparable(p, tracked, ours[i], stat)
    && PrepareOne(p, tracked, uid, ours[i], stat) == Err(error)
  }

  predicate Quotes(text: string, part: string) {
    exists i, j :: 0 <= i <= j <= |text| && text[i..j] == part
  }

  lemma QuotesMiddle(before: string, part: string, after: string)
    ensures Quotes(before + part + after, part)
  {
    var text := before + part + after;
    assert text[|before|..|before| + |part|] == part;
  }

  /** The error of a rejected entry names the device asked for; for an unhealthy one
      also its taint and message, for a missing node the node. */
  lemma RejectionSays(p: Plugin, tracked: Tracked, uid: UID, r: AllocationResult, stat: string -> bool)
    requires !Preparable(p, tracked, r, stat) && (r.device in tracked ==> tracked[r.device].device.name == r.device)
    ensures var one := PrepareOne(p, tracked, uid, r, stat);
            && one.Err? && Quotes(one.error, r.device)
            && (r.device in tracked ==>
                  var td := tracked[r.device];
                  if td.status == Unhealthy then Quotes(one.error, td.taintValue) && Quotes(one.error, td.message)
                  else Quotes(one.error, td.device.deviceNode))
  {
    if r.device !in tracked {
      var reason := "requested device is not allocatable: ";
      assert reason + r.device == reason + r.device + "";
      QuotesMiddle(reason, r.device, "");
    } else {
      ReasonSays(tracked[r.device], r.device);
    }
  }

  lemma ReasonSays(td: TrackedDevice, name: string)
    requires td.device.name == name
    ensures td.status == Unhealthy ==>
              var e := PrepareError(td, false, false).value;
              Quotes(e, name) && Quotes(e, td.taintValue) && Quotes(e, td.message)
    ensures td.status != Unhealthy && td.device.deviceNode != "" ==>
              var e := PrepareError(td, false, false).value; Quotes(e, name) && Quotes(e, td.device.deviceNode)
  {
    var a, b, c := " is unhealthy (" + TAINT_UNHEALTHY + "=", "): ", " is not available";
    if td.status == Unhealthy {
      var e := PrepareError(td, false, false).value;
      assert e == "device " + name + (a + td.taintValue + b + td.message);
      assert e == ("device " + name + a) + td.taintValue + (b + td.message);
      assert e == ("device " + name + a + td.taintValue + b) + td.message + "";
      QuotesMiddle("device ", name, a + td.taintValue + b + td.message);
      QuotesMiddle("device " + name + a, td.taintValue, b + td.message);
      QuotesMiddle("device " + name + a + td.taintValue + b, td.message, "");
    } else if td.device.deviceNode != "" {
      var node := td.device.deviceNode;
      assert PrepareError(td, false, false).value == "device " + name + (" node " + node + c);
      QuotesMiddle("device ", name, " node " + node + c);
      QuotesMiddle("device " + name + " node ", node, c);
    }
  }

  function Snapshots(prepared: seq<PreparedDevice>): seq<Device> {
    seq(|prepared|, i requires 0 <= i < |prepared| => prepared[i].discovered)
  }

  /** deviceSnapshots. */
  method DeviceSnapshots(prepared: seq<PreparedDevice>) returns (out: seq<Device>)
    ensures out == Snapshots(prepared)
  {
    out := [];
    for i := 0 to |prepared|
      invariant out == Snapshots(prepared[..i])
    {
      out := out + [prepared[i].discovered];
    }
    assert prepared[..|prepared|] == prepared;
  }

  // A prepared entry that still reflects a device the plugin vouches for.
  predicate Vouched(tracked: Tracked, d: PreparedDevice) {
    && d.deviceName in tracked
    && tracked[d.deviceName].status != Unhealthy
    && d.discovered == tracked[d.deviceName].device
  }

  lemma ComputedVouched(p: Plugin, tracked: Tracked, claim: Claim, stat: string -> bool)
    requires ComputeDevices(p, tracked, claim, stat).Ok?
    ensures forall d :: d in ComputeDevices(p, tracked, claim, stat).value ==> Vouched(tracked, d)
  {
    AllOrNothing(p, tracked, claim.uid, claim.allocation.value, stat);
    var ours := Ours(p, claim.allocation.value);
    var prepared := ComputeDevices(p, tracked, claim, stat).value;
    forall i | 0 <= i < |prepared| ensures Vouched(tracked, prepared[i]) {
      assert ours[i] in ours && PreparedFrom(p, tracked, claim.uid, prepared[i], ours[i]);
    }
  }
}
