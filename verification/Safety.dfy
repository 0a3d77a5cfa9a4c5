/** What holds in every reachable state of the durable protocol, crashes, failed
    writes and torn checkpoints included. */
module Safety {
  import opened Types
  import opened Reconcile
  import opened Devices
  import opened Discovery
  import opened Allocation
  import opened Protocol
  import opened Cdi
  import opened Naming
  import opened History

  lemma {:induction false} WithoutNoDuplicates(cp: seq<UID>, uid: UID)
    requires NoDuplicates(cp)
    ensures NoDuplicates(Without(cp, uid))
  {
    if cp != [] {
      var rest := cp[..|cp| - 1];
      WithoutNoDuplicates(rest, uid);
      forall i | 0 <= i < |Without(rest, uid)| ensures Without(rest, uid)[i] != cp[|cp| - 1] {
        assert Without(rest, uid)[i] in rest;
      }
    }
  }

  lemma SnapshotsSound(tracked: Tracked, devices: seq<PreparedDevice>)
    requires AllVouched(tracked, devices)
    requires forall name :: name in tracked ==> Sound(tracked[name].device)
    ensures forall d :: d in Snapshots(devices) ==> Sound(d)
  {
    forall i | 0 <= i < |devices| ensures Sound(Snapshots(devices)[i]) {
      assert devices[i] in devices;
    }
  }

  lemma SnapshotsTracked(tracked: NamedTracked, devices: seq<PreparedDevice>)
    requires AllVouched(tracked, devices)
    ensures Names(Snapshots(devices)) <= tracked.Keys
  {
    forall d | d in Snapshots(devices) ensures d.name in tracked {
      var i :| 0 <= i < |devices| && Snapshots(devices)[i] == d;
      assert devices[i] in devices;
    }
  }

  ghost function Landed(s: State): State
    requires s.proc.Up? && Writes(s.proc.op)
  {
    var cleared := if s.proc.op.PrepareSpec? then s.cleared - {s.proc.op.uid} else s.cleared;
    s.(disk := Written(s.disk, s.proc.op), cleared := cleared)
  }

  lemma PrepareWriteDisk(p: Plugin, s: State)
    requires Inv(p, s) && s.proc.Up?
    requires s.proc.op.PrepareSpec? || s.proc.op.PrepareRecord? || s.proc.op.PrepareCommit?
    ensures DiskInv(Landed(s).disk, Landed(s).cleared)
  {
    var op, t := s.proc.op, Landed(s);
    if op.PrepareRecord? {
      SnapshotsSound(s.proc.tracked, op.devices);
    }
    if op.PrepareCommit? {
      assert forall u :: u in op.cp + [op.uid] <==> u in op.cp || u == op.uid;
    }
  }

  lemma OtherWriteDisk(p: Plugin, s: State)
    requires Inv(p, s) && s.proc.Up? && Writes(s.proc.op)
    requires !(s.proc.op.PrepareSpec? || s.proc.op.PrepareRecord? || s.proc.op.PrepareCommit?)
    ensures DiskInv(Landed(s).disk, Landed(s).cleared)
  {
    if s.proc.op.UnprepareCommit? {
      WithoutNoDuplicates(s.proc.op.cp, s.proc.op.uid);
    }
  }

  // A write that adds only tracked names to the prepared claims keeps every
  // prepared claim's devices tracked.
  lemma RetainedKept(s: State, t: State, changed: Option<UID>)
    requires s.proc.Up? && t.proc.Up? && t.proc.tracked == s.proc.tracked && Retained(s)
    requires forall u :: u in t.disk.claims && u in Prepared(t.disk) && Some(u) != changed ==>
               u in s.disk.claims && u in Prepared(s.disk) && s.disk.claims[u] == t.disk.claims[u]
    requires changed.Some? && changed.value in t.disk.claims && changed.value in Prepared(t.disk) ==>
               Names(t.disk.claims[changed.value]) <= s.proc.tracked.Keys
    ensures Retained(t)
  {
    forall name | ClaimedName(Prepared(t.disk), t.disk.claims, name) ensures name in t.proc.tracked {
      var u :| u in t.disk.claims && u in Prepared(t.disk) && name in Names(t.disk.claims[u]);
      if Some(u) != changed {
        assert name in Names(s.disk.claims[u]);
        assert ClaimedName(Prepared(s.disk), s.disk.claims, name);
      }
    }
  }

  lemma PrepareRetained(p: Plugin, s: State)
    requires Inv(p, s) && s.proc.Up? && (s.proc.op.PrepareRecord? || s.proc.op.PrepareCommit?)
    ensures Retained(Landed(s))
  {
    SnapshotsTracked(s.proc.tracked, s.proc.op.devices);
    RetainedKept(s, Landed(s), Some(s.proc.op.uid));
  }

  lemma ShrinkRetained(s: State)
    requires s.proc.Up? && Retained(s) && (s.proc.op.UnprepareCommit? || s.proc.op.UnprepareForget? ||
                                           s.proc.op.ReconcilePrune?)
    requires s.proc.op.UnprepareCommit? ==> s.proc.op.cp == Prepared(s.disk)
    requires s.proc.op.ReconcilePrune? ==> s.proc.op.kept == Pruned(s.disk.claims, Prepared(s.disk))
    ensures Retained(Landed(s))
  {
    RetainedKept(s, Landed(s), None);
  }

  lemma WriteRetained(p: Plugin, s: State)
    requires Inv(p, s) && s.proc.Up? && s.proc.ready && Writes(s.proc.op)
    ensures Retained(Landed(s))
  {
    var op := s.proc.op;
    if op.PrepareRecord? || op.PrepareCommit? {
      PrepareRetained(p, s);
    } else if op.UnprepareCommit? || op.UnprepareForget? || op.ReconcilePrune? {
      ShrinkRetained(s);
    }
  }

  lemma LandedInv(p: Plugin, s: State)
    requires Inv(p, s) && s.proc.Up? && Writes(s.proc.op)
    ensures DiskInv(Landed(s).disk, Landed(s).cleared) && (s.proc.ready ==> Retained(Landed(s)))
  {
    if s.proc.op.PrepareSpec? || s.proc.op.PrepareRecord? || s.proc.op.PrepareCommit? {
      PrepareWriteDisk(p, s);
    } else {
      OtherWriteDisk(p, s);
    }
    if s.proc.ready { WriteRetained(p, s); }
  }

  lemma OpAfterPrepare(s: State)
    requires s.proc.Up? && OpInv(s) && (s.proc.op.PrepareSpec? || s.proc.op.PrepareRecord? || s.proc.op.PrepareCommit?)
    ensures OpInv(At(Landed(s), After(s.proc.op)))
  {}

  lemma OpAfterOther(s: State)
    requires s.proc.Up? && OpInv(s) && Writes(s.proc.op)
    requires !(s.proc.op.PrepareSpec? || s.proc.op.PrepareRecord? || s.proc.op.PrepareCommit?)
    ensures OpInv(At(Landed(s), After(s.proc.op)))
  {
    if s.proc.op.ReconcilePrune? {
      assert Pruned(s.proc.op.kept, Prepared(s.disk)) == s.proc.op.kept;
    }
  }

  lemma InvLanded(p: Plugin, s: State, o: Outcome)
    requires Inv(p, s) && s.proc.Up? && Writes(s.proc.op) && o != CutShort
    requires DiskInv(Landed(s).disk, Landed(s).cleared) && (s.proc.ready ==> Retained(Landed(s)))
    requires OpInv(At(Landed(s), After(s.proc.op)))
    ensures Inv(p, StepWrite(s, o))
  {
    if o == Done {
      assert StepWrite(s, o) == At(Landed(s), After(s.proc.op));
    } else {
      assert StepWrite(s, o) == if s.proc.ready then At(Landed(s), Idle) else Landed(s).(proc := Down);
    }
  }

  lemma InvWrite(p: Plugin, s: State, o: Outcome)
    requires Inv(p, s) && s.proc.Up? && Writes(s.proc.op)
    ensures Inv(p, StepWrite(s, o))
  {
    if o != CutShort {
      LandedInv(p, s);
      if s.proc.op.PrepareSpec? || s.proc.op.PrepareRecord? || s.proc.op.PrepareCommit? {
        OpAfterPrepare(s);
      } else {
        OpAfterOther(s);
      }
      InvLanded(p, s, o);
    } else if InPlace(s.proc.op) {
      TornInv(p, s);
    }
  }

  lemma TornInv(p: Plugin, s: State)
    requires Inv(p, s) && s.proc.Up? && InPlace(s.proc.op)
    ensures Inv(p, Abort(s.(disk := s.disk.(checkpoint := Torn))))
  {
    var t := Abort(s.(disk := s.disk.(checkpoint := Torn)));
    assert Prepared(t.disk) == [];
  }

  lemma NextSound(prev: Tracked, found: seq<Device>, cp: seq<UID>, claims: map<UID, seq<Device>>,
                  snapshots: map<string, Device>, env: Env)
    requires ValidEnumeration(found) && AllSound(claims) && SnapshotChoice(cp, claims, snapshots)
    requires forall name :: name in prev ==> Sound(prev[name].device)
    ensures var next := NextTracked(prev, found, snapshots, env);
            forall name :: name in next ==> Sound(next[name].device)
  {
    forall name | name in Names(found) + snapshots.Keys
      ensures Sound(NextEntry(prev, found, snapshots, env, name).device)
    {
      EntryDevice(prev, found, snapshots, env, name);
      if LastNamed(found, name).Some? {
        var i :| 0 <= i < |found| && found[i] == LastNamed(found, name).value;
        assert Sound(found[i]);
      } else {
        SnapshotNamed(cp, claims, snapshots, name);
      }
    }
  }

  lemma InvApply(p: Plugin, s: State, snapshots: map<string, Device>, env: Env)
    requires Inv(p, s) && s.proc.Up? && s.proc.op.ReconcileApply?
    requires SnapshotChoice(s.proc.op.cp, s.proc.op.kept, snapshots)
    ensures Inv(p, StepApply(p, s, snapshots, env))
  {
    var op := s.proc.op;
    NextWellFormed(s.proc.tracked, op.cp, op.kept, op.found, snapshots, env);
    NextSound(s.proc.tracked, op.found, op.cp, op.kept, snapshots, env);
  }

  lemma InvStart(p: Plugin, s: State, found: seq<Device>)
    requires Inv(p, s) && s.proc.Up? && s.proc.op.Idle? && ValidEnumeration(found)
    ensures Inv(p, StartPass(s, found))
  {}

  lemma InvRestart(p: Plugin, s: State, found: seq<Device>)
    requires Inv(p, s) && s.proc.Down? && ValidEnumeration(found)
    ensures Inv(p, StartPass(s.(proc := Up(false, map[], NoPools, Idle)), found))
  {}

  lemma InvStep(p: Plugin, s: State, l: Label)
    requires Inv(p, s)
    ensures Inv(p, Step(p, s, l))
  {
    match l {
      case BeginPrepare(claim, stat) =>
        if Serving(s) && ComputeDevices(p, s.proc.tracked, claim, stat).Ok? {
          ComputedVouched(p, s.proc.tracked, claim, stat);
        }
      case BeginUnprepare(uid) =>
      case BeginReconcile(found) =>
        if Serving(s) && ValidEnumeration(found) { InvStart(p, s, found); }
      case Write(o) =>
        if s.proc.Up? && Writes(s.proc.op) { InvWrite(p, s, o); }
      case Apply(snapshots, env) =>
        if s.proc.Up? && s.proc.op.ReconcileApply? && SnapshotChoice(s.proc.op.cp, s.proc.op.kept, snapshots) {
          InvApply(p, s, snapshots, env);
        }
      case Fail =>
      case Crash =>
      case Restart(found) =>
        if s.proc.Down? && ValidEnumeration(found) { InvRestart(p, s, found); }
    }
  }

  lemma {:induction false} InvAlways(p: Plugin, labels: seq<Label>)
    ensures Inv(p, Exec(p, INITIAL, labels))
  {
    if labels != [] {
      InvAlways(p, labels[..|labels| - 1]);
      InvStep(p, Exec(p, INITIAL, labels[..|labels| - 1]), labels[|labels| - 1]);
    }
  }

  ghost predicate Reachable(p: Plugin, s: State) {
    exists labels :: s == Exec(p, INITIAL, labels)
  }

  lemma InvReachable(p: Plugin, s: State)
    requires Reachable(p, s)
    ensures Inv(p, s)
  {
    var labels :| s == Exec(p, INITIAL, labels);
    InvAlways(p, labels);
  }

  lemma {:induction false} ExecJoin(p: Plugin, s: State, first: seq<Label>, second: seq<Label>)
    ensures Exec(p, Exec(p, s, first), second) == Exec(p, s, first + second)
  {
    if second == [] {
      assert first + second == first;
    } else {
      var before := second[..|second| - 1];
      ExecJoin(p, s, first, before);
      assert (first + second)[..|first + second| - 1] == first + before;
    }
  }

  /** Runs compose: a call that is a run takes a reachable state to a reachable one. */
  lemma ReachableExtends(p: Plugin, s: State, labels: seq<Label>)
    requires Reachable(p, s)
    ensures Reachable(p, Exec(p, s, labels))
  {
    var first :| s == Exec(p, INITIAL, first);
    ExecJoin(p, INITIAL, first, labels);
  }

  lemma ReachableStep(p: Plugin, s: State, l: Label)
    requires Reachable(p, s)
    ensures Reachable(p, Step(p, s, l))
  {
    assert [l][..0] == [];
    assert Exec(p, s, []) == s;
    assert Exec(p, s, [l]) == Step(p, s, l);
    ReachableExtends(p, s, [l]);
  }

  // ---- Theorems about every run ----

  /** Retention: a checkpointed claim always has its snapshot, and while the plugin
      serves, every device of every such snapshot is tracked and published, even if
      the last enumeration was stale or empty. A torn checkpoint names no claim;
      Refinement.TornKeepsDevices says what becomes of the claims it named. */
  lemma RetentionSafety(p: Plugin, s: State)
    requires Reachable(p, s)
    ensures forall uid :: uid in Prepared(s.disk) ==> uid in s.disk.claims
    ensures s.proc.Up? && s.proc.ready ==> s.proc.resources == ResourcesOf(p.node, s.proc.tracked)
    ensures s.proc.Up? && s.proc.ready ==>
              forall uid, d :: uid in Prepared(s.disk) && d in s.disk.claims[uid] ==>
                d.name in s.proc.tracked && ToResourceDevice(s.proc.tracked[d.name]) in s.proc.resources.devices
  {
    InvReachable(p, s);
    if s.proc.Up? && s.proc.ready {
      forall uid, d | uid in Prepared(s.disk) && d in s.disk.claims[uid]
        ensures d.name in s.proc.tracked && ToResourceDevice(s.proc.tracked[d.name]) in s.proc.resources.devices
      {
        assert Sound(d) && d.name in Names(s.disk.claims[uid]);
        assert ClaimedName(Prepared(s.disk), s.disk.claims, d.name);
        PublishedNames(p.node, s.proc.tracked, d.name);
      }
    }
  }

  /** Every published device carries exactly the taint its health calls for, a
      capacity of at least one share, and a policy that meets the API's bounds, offers
      1..capacity shares and gives a claim that asks for nothing the least of them; this
      includes devices republished from a snapshot after a restart. */
  lemma PublishedAlwaysSound(p: Plugin, s: State, i: nat)
    requires Reachable(p, s) && s.proc.Up? && s.proc.ready && s.proc.resources.Pool? && i < |s.proc.resources.devices|
    ensures var rd := s.proc.resources.devices[i];
            && rd.name in s.proc.tracked
            && WellFormed(rd.name, s.proc.tracked[rd.name])
            && (s.proc.tracked[rd.name].status == Unhealthy <==> |rd.taints| == 1 && rd.taints[0].timeAdded.Some?)
            && (s.proc.tracked[rd.name].status != Unhealthy <==> rd.taints == [])
            && rd.shares >= 1
            && (forall request :: Admits(rd.policy, request) <==> 1 <= request <= rd.shares)
            && rd.allowMultipleAllocations
            && Admits(rd.policy, rd.policy.default)
            && (forall request :: Admits(rd.policy, request) ==> rd.policy.default <= request)
            && rd.policy.validRange.Some?
            && var range := rd.policy.validRange.value;
            && range.min <= rd.policy.default <= range.max == rd.shares
            && (range.step.Some? ==> range.min + range.step.value <= range.max)
            && (range.step.None? ==> rd.shares == 1)
            && FromResourceDevice(rd) == s.proc.tracked[rd.name].device
  {
    InvReachable(p, s);
    var list := CanonicalList(s.proc.tracked);
    var td := list[i];
    assert td in list;
    assert Holds(s.proc.tracked, td);
    assert s.proc.resources.devices[i] == ToResourceDevice(td);
    SharePolicyLattice(td.device.maxAllocations);
    PublishRoundTrip(td);
  }

  /** A device is prepared only if the latest successful pass enumerated it, it is
      not unhealthy, and its node was there when the claim was checked. */
  lemma PrepareSafety(p: Plugin, s: State, claim: Claim, stat: string -> bool, d: PreparedDevice)
    requires Reachable(p, s) && Serving(s)
    requires ComputeDevices(p, s.proc.tracked, claim, stat).Ok? &&
             d in ComputeDevices(p, s.proc.tracked, claim, stat).value
    ensures d.deviceName in s.enumerated && d.deviceName in s.proc.tracked
    ensures s.proc.tracked[d.deviceName].status != Unhealthy
    ensures d.discovered == s.proc.tracked[d.deviceName].device
    ensures p.mock || stat(d.discovered.deviceNode)
  {
    InvReachable(p, s);
    AllOrNothing(p, s.proc.tracked, claim.uid, claim.allocation.value, stat);
    var ours, devices := Ours(p, claim.allocation.value), ComputeDevices(p, s.proc.tracked, claim, stat).value;
    var i :| 0 <= i < |devices| && devices[i] == d;
    assert ours[i] in ours && Preparable(p, s.proc.tracked, ours[i], stat);
    assert PreparedFrom(p, s.proc.tracked, claim.uid, devices[i], ours[i]);
    assert WellFormed(d.deviceName, s.proc.tracked[d.deviceName]);
  }

  lemma PreparedAddressed(p: Plugin, s: State, claim: Claim, stat: string -> bool)
    requires Reachable(p, s) && Serving(s) && ComputeDevices(p, s.proc.tracked, claim, stat).Ok?
    ensures var devices := ComputeDevices(p, s.proc.tracked, claim, stat).value;
            forall i :: 0 <= i < |devices| ==> Addressed(p.driver, claim.uid, devices[i])
  {
    InvReachable(p, s);
    AllOrNothing(p, s.proc.tracked, claim.uid, claim.allocation.value, stat);
    var ours, devices := Ours(p, claim.allocation.value), ComputeDevices(p, s.proc.tracked, claim, stat).value;
    forall i | 0 <= i < |devices| ensures Addressed(p.driver, claim.uid, devices[i]) {
      assert PreparedFrom(p, s.proc.tracked, claim.uid, devices[i], ours[i]);
      assert Sound(s.proc.tracked[devices[i].deviceName].device);
    }
  }

  /** Every ID a Prepare hands out leads a runtime to its own entry of the spec written
      for the claim, and to no other one exactly when the claim's (device, share) pairs
      differ. The driver name must be free of the ID's separators, as a DNS name is. */
  lemma PreparedIDsResolve(p: Plugin, s: State, claim: Claim, stat: string -> bool)
    requires Reachable(p, s) && Serving(s) && ComputeDevices(p, s.proc.tracked, claim, stat).Ok?
    requires Plain(p.driver)
    ensures var devices := ComputeDevices(p, s.proc.tracked, claim, stat).value;
            && (forall i :: 0 <= i < |devices| ==> Resolves(p.driver, claim.uid, devices, i, i))
            && (DistinctPairs(devices) <==>
                forall i, j :: 0 <= i < |devices| && 0 <= j < |devices| && Resolves(p.driver, claim.uid, devices, i, j)
                               ==> i == j)
  {
    PreparedAddressed(p, s, claim, stat);
    IDsResolve(p.driver, claim.uid, ComputeDevices(p, s.proc.tracked, claim, stat).value);
  }

  /** What each ID says: exactly for such driver names it reads as the plugin's vendor,
      the class and the name of the device's entry in the spec. */
  lemma PreparedIDsRead(p: Plugin, s: State, claim: Claim, stat: string -> bool, i: nat)
    requires Reachable(p, s) && Serving(s) && ComputeDevices(p, s.proc.tracked, claim, stat).Ok?
    requires i < |ComputeDevices(p, s.proc.tracked, claim, stat).value|
    ensures var devices := ComputeDevices(p, s.proc.tracked, claim, stat).value;
            var ids, entry := devices[i].cdiDeviceIDs, SpecFor(p.driver, claim.uid, devices).devices[i];
            |ids| == 1 &&
            (ParseID(ids[0]) == Some(ParsedID("k8s." + p.driver, "dra", entry.name)) <==> Plain(p.driver))
  {
    PreparedAddressed(p, s, claim, stat);
    var devices := ComputeDevices(p, s.proc.tracked, claim, stat).value;
    assert Addressed(p.driver, claim.uid, devices[i]);
    IDReadsBack(p.driver, SpecFor(p.driver, claim.uid, devices).devices[i].name);
  }

  /** A claim with any entry this driver must reject changes nothing at all. */
  lemma RejectedChangesNothing(p: Plugin, s: State, claim: Claim, stat: string -> bool)
    requires claim.allocation.None? || (s.proc.Up? &&
                                        !AllPreparable(p, s.proc.tracked, Ours(p, claim.allocation.value), stat))
    ensures Step(p, s, BeginPrepare(claim, stat)) == s
  {
    if claim.allocation.Some? {
      AllOrNothing(p, s.proc.tracked, claim.uid, claim.allocation.value, stat);
    }
  }

  /** A checkpointed claim lacks its CDI spec only if an Unprepare of it began after
      the spec was last written. */
  lemma SpecPresent(p: Plugin, s: State, uid: UID)
    requires Reachable(p, s) && uid in Prepared(s.disk)
    ensures uid in s.disk.specs || uid in s.cleared
  {
    InvReachable(p, s);
  }

  // What a completed pass leaves: files and memory hold the prepared claims and
  // nothing else.
  ghost predicate Settled(s: State) {
    && Serving(s) && !s.disk.checkpoint.Torn?
    && NoDuplicates(Prepared(s.disk))
    && (forall uid :: uid in s.disk.claims <==> uid in Prepared(s.disk))
    && (forall name :: name in s.proc.tracked <==>
        name in s.enumerated || ClaimedName(Prepared(s.disk), s.disk.claims, name))
  }

  /** After every successful pass the tracked names are the enumerated ones and the
      ones in snapshots of prepared claims, and claim-devices holds exactly the
      prepared claims. */
  lemma PassSettles(p: Plugin, s: State, snapshots: map<string, Device>, env: Env)
    requires Reachable(p, s) && s.proc.Up? && s.proc.op.ReconcileApply? && env.mock == p.mock
    requires SnapshotChoice(s.proc.op.cp, s.proc.op.kept, snapshots)
    ensures var t := Step(p, s, Apply(snapshots, env));
            Settled(t) && t.enumerated == Names(s.proc.op.found) && t.disk == s.disk
  {
    ApplyTaken(p, s, snapshots, env);
    assert Inv(p, s) by { InvReachable(p, s); }
    ApplySettles(p, s, snapshots, env);
  }

  lemma ApplyTaken(p: Plugin, s: State, snapshots: map<string, Device>, env: Env)
    requires s.proc.Up? && s.proc.op.ReconcileApply? && env.mock == p.mock
    requires SnapshotChoice(s.proc.op.cp, s.proc.op.kept, snapshots)
    ensures Step(p, s, Apply(snapshots, env)) == StepApply(p, s, snapshots, env)
  {}

  lemma ApplySettles(p: Plugin, s: State, snapshots: map<string, Device>, env: Env)
    requires Inv(p, s) && s.proc.Up? && s.proc.op.ReconcileApply? &&
             SnapshotChoice(s.proc.op.cp, s.proc.op.kept, snapshots)
    ensures var t := StepApply(p, s, snapshots, env);
            Settled(t) && t.enumerated == Names(s.proc.op.found) && t.disk == s.disk
  {
    var op := s.proc.op;
    NextWellFormed(s.proc.tracked, op.cp, op.kept, op.found, snapshots, env);
    forall uid ensures uid in s.disk.claims <==> uid in Prepared(s.disk) {
      assert uid in s.disk.claims ==> uid in Pruned(s.disk.claims, op.cp);
    }
  }

  lemma Exec3(p: Plugin, s: State, a: Label, b: Label, c: Label)
    ensures Exec(p, s, [a, b, c]) == Step(p, Step(p, Step(p, s, a), b), c)
  {
    assert [a, b, c][..2] == [a, b] && [a, b][..1] == [a] && [a][..0] == [];
    assert Exec(p, s, [a]) == Step(p, s, a);
    assert Exec(p, s, [a, b]) == Step(p, Step(p, s, a), b);
  }

  lemma RestartPrunes(p: Plugin, s: State, found: seq<Device>)
    requires s.proc.Down? && !s.disk.checkpoint.Torn? && ValidEnumeration(found)
    ensures var cp := Prepared(s.disk);
            var kept := Pruned(s.disk.claims, cp);
            Step(p, Step(p, s, Restart(found)), Write(Done)) ==
              s.(disk := s.disk.(claims := kept), proc := Up(false, map[], NoPools, ReconcileApply(found, cp, kept)))
  {}

  /** The order of Unprepare's last two writes matters. Take any Unprepare about to
      write the checkpoint; had it forgotten the snapshot first, a crash right after
      and a clean restart would lose a device whose claim is still checkpointed. */
  lemma SwappedOrderLosesDevice(p: Plugin, s: State, name: string, found: seq<Device>,
                                snapshots: map<string, Device>, env: Env)
    requires Reachable(p, s) && s.proc.Up? && s.proc.op.UnprepareCommit? && s.proc.op.uid in Prepared(s.disk)
    requires forall u :: u in Prepared(s.disk) && u in s.disk.claims ==>
               (name in Names(s.disk.claims[u]) <==> u == s.proc.op.uid)
    requires ValidEnumeration(found) && name !in Names(found) && env.mock == p.mock
    requires SnapshotChoice(Prepared(s.disk), Pruned(s.disk.claims - {s.proc.op.uid}, Prepared(s.disk)), snapshots)
    ensures var uid := s.proc.op.uid;
            var swapped := s.(disk := s.disk.(claims := s.disk.claims - {uid}), proc := Down);
            var t := Exec(p, swapped, [Restart(found), Write(Done), Apply(snapshots, env)]);
            t.proc.Up? && t.proc.ready && uid in Prepared(t.disk) && name !in t.proc.tracked
  {
    assert !s.disk.checkpoint.Torn? by { InvReachable(p, s); }
    var uid, cp := s.proc.op.uid, Prepared(s.disk);
    var swapped := s.(disk := s.disk.(claims := s.disk.claims - {uid}), proc := Down);
    RestartPrunes(p, swapped, found);
    Exec3(p, swapped, Restart(found), Write(Done), Apply(snapshots, env));
    assert !ClaimedName(cp, Pruned(s.disk.claims - {uid}, cp), name);
  }

  // ---- What a claim's spec lists ----

  // The devices of Prepares whose spec write took effect with no snapshot write and
  // no removal of the spec since: after a crash or an error, Prepares that stopped
  // between the two.
  ghost function NextDrafts(drafts: map<UID, seq<Device>>, s: State, l: Label): map<UID, seq<Device>> {
    if !(l.Write? && l.outcome != CutShort && s.proc.Up?) then drafts
    else
      match s.proc.op
      case PrepareSpec(uid, devices, _, _) => drafts[uid := Snapshots(devices)]
      case PrepareRecord(uid, _, _) => drafts - {uid}
      case UnprepareSpec(uid, _) => drafts - {uid}
      case _ => drafts
  }

  ghost function Drafts(p: Plugin, labels: seq<Label>): map<UID, seq<Device>> {
    if labels == [] then map[]
    else
      var before := labels[..|labels| - 1];
      NextDrafts(Drafts(p, before), Exec(p, INITIAL, before), labels[|labels| - 1])
  }

  ghost predicate SpecsMatch(d: Disk, drafts: map<UID, seq<Device>>) {
    && (forall uid :: uid in drafts ==> uid in d.specs && SpecDevices(d.specs[uid]) == drafts[uid])
    && (forall uid :: uid in d.specs && uid in d.claims && uid !in drafts ==>
        SpecDevices(d.specs[uid]) == d.claims[uid])
  }

  ghost predicate DraftKnown(op: Op, drafts: map<UID, seq<Device>>) {
    && (op.PrepareSpec? ==> SpecDevices(op.spec) == Snapshots(op.devices))
    && (op.PrepareRecord? ==> op.uid in drafts && drafts[op.uid] == Snapshots(op.devices))
  }

  lemma SpecForDevices(driver: string, uid: UID, devices: seq<PreparedDevice>)
    ensures SpecDevices(SpecFor(driver, uid, devices)) == Snapshots(devices)
  {}

  lemma WrittenMatch(s: State, o: Outcome, drafts: map<UID, seq<Device>>)
    requires s.proc.Up? && Writes(s.proc.op) && SpecsMatch(s.disk, drafts) && DraftKnown(s.proc.op, drafts)
    requires s.proc.op.ReconcilePrune? ==> s.proc.op.kept == Pruned(s.disk.claims, Prepared(s.disk))
    ensures var t, after := StepWrite(s, o), NextDrafts(drafts, s, Write(o));
            SpecsMatch(t.disk, after) && (t.proc.Up? ==> DraftKnown(t.proc.op, after))
  {}

  lemma SpecsMatchStep(p: Plugin, s: State, l: Label, drafts: map<UID, seq<Device>>)
    requires Inv(p, s) && SpecsMatch(s.disk, drafts) && (s.proc.Up? ==> DraftKnown(s.proc.op, drafts))
    ensures var t, after := Step(p, s, l), NextDrafts(drafts, s, l);
            SpecsMatch(t.disk, after) && (t.proc.Up? ==> DraftKnown(t.proc.op, after))
  {
    if l.Write? && s.proc.Up? && Writes(s.proc.op) {
      WrittenMatch(s, l.outcome, drafts);
    } else {
      OnlyWritesTouchDisk(p, s, l);
      assert NextDrafts(drafts, s, l) == drafts;
      BeginsWithSpec(p, s, l);
    }
  }

  lemma OnlyWritesTouchDisk(p: Plugin, s: State, l: Label)
    requires !(l.Write? && s.proc.Up? && Writes(s.proc.op))
    ensures Step(p, s, l).disk == s.disk
  {}

  lemma BeginsWithSpec(p: Plugin, s: State, l: Label)
    requires !(l.Write? && s.proc.Up? && Writes(s.proc.op))
    ensures var t := Step(p, s, l);
            && (t.proc.Up? && t.proc.op.PrepareRecord? ==> s.proc.Up? && t.proc.op == s.proc.op)
            && (t.proc.Up? && t.proc.op.PrepareSpec? ==>
                  || (s.proc.Up? && t.proc.op == s.proc.op)
                  || SpecDevices(t.proc.op.spec) == Snapshots(t.proc.op.devices))
  {
    if l.BeginPrepare? && Serving(s) && ComputeDevices(p, s.proc.tracked, l.claim, l.stat).Ok? {
      SpecForDevices(p.driver, l.claim.uid, ComputeDevices(p, s.proc.tracked, l.claim, l.stat).value);
    }
  }

  lemma {:induction false} SpecsMatchAlways(p: Plugin, labels: seq<Label>)
    ensures var s, drafts := Exec(p, INITIAL, labels), Drafts(p, labels);
            SpecsMatch(s.disk, drafts) && (s.proc.Up? ==> DraftKnown(s.proc.op, drafts))
  {
    if labels != [] {
      var before := labels[..|labels| - 1];
      SpecsMatchAlways(p, before);
      InvAlways(p, before);
      SpecsMatchStep(p, Exec(p, INITIAL, before), labels[|labels| - 1], Drafts(p, before));
    }
  }

  /** In every run the spec of a checkpointed claim that no Unprepare has begun to take
      down lists exactly the devices of the claim's snapshot, unless a repeated Prepare
      stopped between its spec write and its snapshot write; then it lists that
      Prepare's devices, and agrees with the snapshot only if those are the same. */
  lemma SpecListsSnapshot(p: Plugin, labels: seq<Label>, uid: UID)
    requires var s := Exec(p, INITIAL, labels); uid in Prepared(s.disk) && uid !in s.cleared
    ensures var d, drafts := Exec(p, INITIAL, labels).disk, Drafts(p, labels);
            && uid in d.specs && uid in d.claims
            && SpecDevices(d.specs[uid]) == (if uid in drafts then drafts[uid] else d.claims[uid])
            && (SpecDevices(d.specs[uid]) == d.claims[uid] <==> uid !in drafts || drafts[uid] == d.claims[uid])
  {
    InvAlways(p, labels);
    SpecsMatchAlways(p, labels);
  }

  // ---- The CDI directory as a whole ----

  ghost predicate EntryOf(uid: UID, e: SpecDevice) {
    exists device, share :: ValidName(device) && e.name == CdiDeviceName(uid, device, share)
  }

  // A spec of this plugin for this claim.
  ghost predicate SpecOf(p: Plugin, uid: UID, spec: Spec) {
    spec.kind == Cdi.Kind(p.driver) && forall i :: 0 <= i < |spec.devices| ==> EntryOf(uid, spec.devices[i])
  }

  ghost predicate SpecsOwned(p: Plugin, s: State) {
    && (forall uid :: uid in s.disk.specs ==> SpecOf(p, uid, s.disk.specs[uid]))
    && (s.proc.Up? && s.proc.op.PrepareSpec? ==> SpecOf(p, s.proc.op.uid, s.proc.op.spec))
  }

  lemma BegunOwned(p: Plugin, s: State, claim: Claim, stat: string -> bool)
    requires Reachable(p, s) && Serving(s) && ComputeDevices(p, s.proc.tracked, claim, stat).Ok?
    ensures SpecOf(p, claim.uid, SpecFor(p.driver, claim.uid, ComputeDevices(p, s.proc.tracked, claim, stat).value))
  {
    PreparedAddressed(p, s, claim, stat);
    var devices := ComputeDevices(p, s.proc.tracked, claim, stat).value;
    forall i | 0 <= i < |devices| ensures EntryOf(claim.uid, EntryFor(claim.uid, devices[i])) {
      assert Addressed(p.driver, claim.uid, devices[i]);
    }
  }

  lemma OwnedWrite(p: Plugin, s: State, o: Outcome)
    requires s.proc.Up? && Writes(s.proc.op) && SpecsOwned(p, s)
    ensures SpecsOwned(p, StepWrite(s, o))
  {}

  lemma OwnedStep(p: Plugin, s: State, l: Label)
    requires Reachable(p, s) && SpecsOwned(p, s)
    ensures SpecsOwned(p, Step(p, s, l))
  {
    if l.Write? && s.proc.Up? && Writes(s.proc.op) {
      OwnedWrite(p, s, l.outcome);
    } else {
      OnlyWritesTouchDisk(p, s, l);
      if l.BeginPrepare? && Serving(s) && ComputeDevices(p, s.proc.tracked, l.claim, l.stat).Ok? {
        BegunOwned(p, s, l.claim, l.stat);
      }
    }
  }

  lemma {:induction false} OwnedAlways(p: Plugin, labels: seq<Label>)
    ensures SpecsOwned(p, Exec(p, INITIAL, labels))
  {
    if labels != [] {
      var before := labels[..|labels| - 1];
      OwnedAlways(p, before);
      assert Reachable(p, Exec(p, INITIAL, before));
      OwnedStep(p, Exec(p, INITIAL, before), labels[|labels| - 1]);
    }
  }

  /** In every reachable state the ID of an entry leads a runtime to no entry of another
      claim's spec, unless one UID continues the other with a device name. */
  lemma NoCrossTalk(p: Plugin, s: State, uid: UID, i: nat, other: UID, j: nat)
    requires Reachable(p, s) && Plain(p.driver) && uid in s.disk.specs && other in s.disk.specs
    requires i < |s.disk.specs[uid].devices| && j < |s.disk.specs[other].devices| && uid != other
    requires var id := QualifiedName(Vendor(p.driver), CDI_CLASS, s.disk.specs[uid].devices[i].name);
             Finds(s.disk.specs[other], j, id)
    ensures Continues(uid, other) || Continues(other, uid)
  {
    var labels :| s == Exec(p, INITIAL, labels);
    OwnedAlways(p, labels);
    var e, f := s.disk.specs[uid].devices[i], s.disk.specs[other].devices[j];
    assert EntryOf(uid, e) && EntryOf(other, f);
    FindsIff(p.driver, s.disk.specs[other], j, e.name);
    var device, share :| ValidName(device) && e.name == CdiDeviceName(uid, device, share);
    var device', share' :| ValidName(device') && f.name == CdiDeviceName(other, device', share');
    assert Collide(uid, other);
    CollideIffContinues(uid, other);
  }

  // ---- Health over a whole run ----

  // The passes the current process has completed.
  ghost function PassesOf(p: Plugin, labels: seq<Label>): seq<Pass> {
    if labels == [] then []
    else
      var before, l := labels[..|labels| - 1], labels[|labels| - 1];
      var s := Exec(p, INITIAL, before);
      if Step(p, s, l).proc.Down? then []
      else if l.Apply? && Step(p, s, l) != s then PassesOf(p, before) + [Pass(s.proc.op.found, l.snapshots, l.env)]
      else PassesOf(p, before)
  }

  lemma TrackedStep(p: Plugin, s: State, l: Label, passes: seq<Pass>)
    requires if s.proc.Up? then s.proc.tracked == TrackedAfter(passes) else passes == []
    ensures var t := Step(p, s, l);
            t.proc.Up? ==> if l.Apply? && t != s
                           then s.proc.Up? && s.proc.op.ReconcileApply? &&
                             t.proc.tracked == TrackedAfter(passes + [Pass(s.proc.op.found, l.snapshots, l.env)])
                           else t.proc.tracked == TrackedAfter(passes)
  {
    if l.Apply? && Step(p, s, l) != s {
      var longer := passes + [Pass(s.proc.op.found, l.snapshots, l.env)];
      assert longer[..|passes|] == passes;
    } else if l.Restart? && s.proc.Down? {
      assert TrackedAfter([]) == map[];
    }
  }

  lemma {:induction false} TrackedFromPasses(p: Plugin, labels: seq<Label>)
    ensures var s := Exec(p, INITIAL, labels);
            if s.proc.Up? then s.proc.tracked == TrackedAfter(PassesOf(p, labels)) else PassesOf(p, labels) == []
  {
    if labels != [] {
      var before, l := labels[..|labels| - 1], labels[|labels| - 1];
      TrackedFromPasses(p, before);
      TrackedStep(p, Exec(p, INITIAL, before), l, PassesOf(p, before));
    }
  }

  /** In every run, through calls, failures and restarts, what is tracked of a device
      is what its observations in the passes of this process determine. */
  lemma RunHealth(p: Plugin, labels: seq<Label>, name: string)
    requires Exec(p, INITIAL, labels).proc.Up?
    ensures var tracked, h := Exec(p, INITIAL, labels).proc.tracked, Observations(PassesOf(p, labels), name);
            (name in tracked <==> h != []) && (name in tracked ==> History.Matches(tracked[name], h))
  {
    TrackedFromPasses(p, labels);
    HistoryDeterminesTracked(PassesOf(p, labels), name);
  }

  lemma {:induction false} PassesShareMode(p: Plugin, labels: seq<Label>)
    ensures forall i :: 0 <= i < |PassesOf(p, labels)| ==> PassesOf(p, labels)[i].env.mock == p.mock
  {
    if labels != [] {
      PassesShareMode(p, labels[..|labels| - 1]);
    }
  }

  /** Health as the host shows it, in every run. In mock mode every tracked device the
      last pass listed is healthy, whatever nodes exist; otherwise it is healthy exactly
      when that pass found its node. */
  lemma RunNodeHealth(p: Plugin, labels: seq<Label>, name: string)
    requires var s := Exec(p, INITIAL, labels); s.proc.Up? && name in s.proc.tracked && !s.proc.tracked[name].retained
    ensures PassesOf(p, labels) != []
    ensures var td, passes := Exec(p, INITIAL, labels).proc.tracked[name], PassesOf(p, labels);
            if p.mock then td.status == Healthy && td.nodeSeen
            else td.status == Healthy <==> passes[|passes| - 1].env.stat(td.device.deviceNode)
  {
    TrackedFromPasses(p, labels);
    PassesShareMode(p, labels);
    LastPassDecides(PassesOf(p, labels), name);
    HasNode(p, labels, name);
  }

  lemma HasNode(p: Plugin, labels: seq<Label>, name: string)
    requires var s := Exec(p, INITIAL, labels); s.proc.Up? && name in s.proc.tracked
    ensures Exec(p, INITIAL, labels).proc.tracked[name].device.deviceNode != ""
  {
    InvAlways(p, labels);
  }
}
