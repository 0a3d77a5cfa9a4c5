/** Runs that reach the states the general results warn about, for any plugin, any
    device an enumeration may list and any claim. */
module Scenarios {
  import opened Types
  import opened Reconcile
  import opened Devices
  import opened Cdi
  import opened Discovery
  import opened Allocation
  import opened Protocol
  import opened Safety
  import opened Refinement

  predicate Present(path: string) { true }

  function AlwaysOne(name: string): Instant { 1 }

  function Calm(p: Plugin): Env {
    Env(p.mock, Present, AlwaysOne)
  }

  // The plugin serves and tracks this one device, in good health.
  ghost predicate Tracks(s: State, d: Device) {
    && Serving(s) && s.proc.tracked.Keys == {d.name}
    && s.proc.tracked[d.name].device == d && s.proc.tracked[d.name].status == Healthy
  }

  lemma FirstPass(p: Plugin, d: Device)
    requires Sound(d)
    ensures var tracked := NextTracked(map[], [d], map[], Calm(p));
            tracked.Keys == {d.name} && tracked[d.name].device == d && tracked[d.name].status == Healthy
  {
    assert Names([d]) == {d.name};
    assert LastNamed([d], d.name) == Some(d) by { assert d in [d]; }
  }

  lemma ComesUp(p: Plugin, d: Device) returns (s: State)
    requires Sound(d)
    ensures Reachable(p, s) && Tracks(s, d) && s.disk == INITIAL.disk && s.cleared == {}
  {
    assert Exec(p, INITIAL, []) == INITIAL;
    assert ValidEnumeration([d]);
    var begun := Step(p, INITIAL, Restart([d]));
    ReachableStep(p, INITIAL, Restart([d]));
    assert Pruned(map[], []) == map[];
    assert begun.proc == Up(false, map[], NoPools, ReconcileApply([d], [], map[]));
    s := Step(p, begun, Apply(map[], Calm(p)));
    ReachableStep(p, begun, Apply(map[], Calm(p)));
    FirstPass(p, d);
  }

  function ClaimOn(p: Plugin, uid: UID, d: Device): Claim {
    Claim(uid, Some([AllocationResult("r", p.driver, p.node, d.name, None)]))
  }

  lemma Computes(p: Plugin, tracked: Tracked, uid: UID, d: Device)
    requires Sound(d) && d.name in tracked && tracked[d.name].device == d && tracked[d.name].status == Healthy
    ensures var r := ComputeDevices(p, tracked, ClaimOn(p, uid, d), Present); r.Ok? && Snapshots(r.value) == [d]
  {
    var results := ClaimOn(p, uid, d).allocation.value;
    assert results[..0] == [];
    assert PrepareAll(p, tracked, uid, [], Present) == Ok([]);
  }

  // The claim is prepared with exactly this device.
  ghost predicate HoldsOne(s: State, uid: UID, d: Device) {
    Prepared(s.disk) == [uid] && s.disk.claims == map[uid := [d]]
  }

  lemma PreparesOne(p: Plugin, uid: UID, d: Device) returns (s: State)
    requires Sound(d)
    ensures Reachable(p, s) && Tracks(s, d) && HoldsOne(s, uid, d) && !s.disk.checkpoint.Torn? && s.cleared == {}
  {
    var up := ComesUp(p, d);
    Computes(p, up.proc.tracked, uid, d);
    var devices := ComputeDevices(p, up.proc.tracked, ClaimOn(p, uid, d), Present).value;
    var begun := Step(p, up, BeginPrepare(ClaimOn(p, uid, d), Present));
    ReachableStep(p, up, BeginPrepare(ClaimOn(p, uid, d), Present));
    assert begun == At(up, PrepareSpec(uid, devices, [], SpecFor(p.driver, uid, devices)));
    s := ThreeDone(p, begun);
  }

  lemma ThreeDone(p: Plugin, s: State) returns (t: State)
    requires Reachable(p, s) && s.proc.Up? && s.proc.ready && s.proc.op.PrepareSpec? && s.proc.op.uid !in s.proc.op.cp
    ensures Reachable(p, t) && Serving(t) && t.proc.tracked == s.proc.tracked &&
            t.cleared == s.cleared - {s.proc.op.uid}
    ensures var op := s.proc.op;
            && t.disk.checkpoint == Valid(op.cp + [op.uid])
            && t.disk.claims == s.disk.claims[op.uid := Snapshots(op.devices)]
  {
    var s1 := Step(p, s, Write(Done));
    var s2 := Step(p, s1, Write(Done));
    t := Step(p, s2, Write(Done));
    ReachableStep(p, s, Write(Done));
    ReachableStep(p, s1, Write(Done));
    ReachableStep(p, s2, Write(Done));
  }

  lemma BeginsUnprepare(p: Plugin, uid: UID, d: Device) returns (s: State)
    requires Sound(d)
    ensures Reachable(p, s) && s.proc.Up? && s.proc.op == UnprepareCommit(uid, [uid]) && HoldsOne(s, uid, d)
  {
    var held := PreparesOne(p, uid, d);
    var begun := Step(p, held, BeginUnprepare(uid));
    ReachableStep(p, held, BeginUnprepare(uid));
    s := Step(p, begun, Write(Done));
    ReachableStep(p, begun, Write(Done));
  }

  /** A torn checkpoint is reached: an Unprepare cut short while writing it. The device
      of the claim stays tracked, and no later restart brings the plugin up. */
  lemma TornReached(p: Plugin, uid: UID, d: Device, labels: seq<Label>) returns (s: State)
    requires Sound(d)
    ensures Reachable(p, s) && Serving(s) && s.disk.checkpoint.Torn? && d.name in s.proc.tracked
    ensures var t := Exec(p, Step(p, s, Crash), labels); t.proc.Down? && t.disk == s.disk
  {
    var at := BeginsUnprepare(p, uid, d);
    InPlaceServes(p, at);
    s := Step(p, at, Write(CutShort));
    ReachableStep(p, at, Write(CutShort));
    assert d in at.disk.claims[uid];
    RetentionSafety(p, at);
    ReachableStep(p, s, Crash);
    InvReachable(p, Step(p, s, Crash));
    TornFreezes(p, Step(p, s, Crash), labels);
  }

  /** The swapped order of Unprepare's last writes does lose a device. */
  lemma SwapLosesReached(p: Plugin, uid: UID, d: Device) returns (s: State)
    requires Sound(d)
    ensures Reachable(p, s) && s.proc.Up? && s.proc.op == UnprepareCommit(uid, [uid]) && HoldsOne(s, uid, d)
    ensures var swapped := s.(disk := s.disk.(claims := s.disk.claims - {uid}), proc := Down);
            var t := Exec(p, swapped, [Restart([]), Write(Done), Apply(map[], Calm(p))]);
            t.proc.Up? && t.proc.ready && uid in Prepared(t.disk) && d.name !in t.proc.tracked
  {
    s := BeginsUnprepare(p, uid, d);
    assert ValidEnumeration([]);
    assert d in s.disk.claims[uid];
    SwappedOrderLosesDevice(p, s, d.name, [], map[], Calm(p));
  }

  /** A spec that disagrees with the claim's snapshot is reached: a repeated Prepare,
      now for no device, crashes after its spec write. */
  lemma SpecDisagreesReached(p: Plugin, uid: UID, d: Device) returns (s: State)
    requires Sound(d)
    ensures Reachable(p, s) && uid in Prepared(s.disk) && uid !in s.cleared && uid in s.disk.specs &&
            uid in s.disk.claims
    ensures SpecDevices(s.disk.specs[uid]) != s.disk.claims[uid]
  {
    var held := PreparesOne(p, uid, d);
    var again := Claim(uid, Some([]));
    var begun := Step(p, held, BeginPrepare(again, Present));
    ReachableStep(p, held, BeginPrepare(again, Present));
    assert begun == At(held, PrepareSpec(uid, [], [uid], SpecFor(p.driver, uid, [])));
    s := Step(p, begun, Write(Done));
    ReachableStep(p, begun, Write(Done));
    assert |SpecDevices(s.disk.specs[uid])| == 0 && |s.disk.claims[uid]| == 1;
  }
}
