/** DeviceState itself: the calls as the plugin makes them, over a plugin directory
    that outlives the process. Every call is proved to be a run of the protocol. */
module DeviceState {
  import opened Types
  import opened Reconcile
  import opened Devices
  import opened Cdi
  import opened Discovery
  import opened Allocation
  import opened Protocol
  import opened Refinement

  // How one write fares: it succeeds, nothing is written, it is written but
  // reported as failed, or it is cut short.
  datatype IO = Good | Lost | Reported | Cut

  function LabelOf(io: IO): Label {
    match io
    case Good => Write(Done)
    case Lost => Fail
    case Reported => Write(Late)
    case Cut => Write(CutShort)
  }

  // The disk after the pending write of op fared as io.
  function Reached(d: Disk, op: Op, io: IO): Disk {
    match io
    case Good => Written(d, op)
    case Reported => Written(d, op)
    case Lost => d
    case Cut => if InPlace(op) then d.(checkpoint := Torn) else d
  }

  // The claims whose spec is known to be taken down, after the same write.
  function Cleared(cleared: set<UID>, op: Op, io: IO): set<UID> {
    if op.PrepareSpec? && (io.Good? || io.Reported?) then cleared - {op.uid} else cleared
  }

  // One write of a call, however it fares, is one step of the protocol.
  lemma IoStep(p: Plugin, start: State, labels: seq<Label>, s: State, op: Op, io: IO)
    requires s.proc.Up? && Writes(op) && Exec(p, start, labels) == At(s, op)
    requires s.proc.ready ==> s.proc.op.Idle?
    ensures var after := s.(disk := Reached(s.disk, op, io), cleared := Cleared(s.cleared, op, io));
            Exec(p, start, labels + [LabelOf(io)]) ==
              if io.Good? then At(after, After(op)) else if s.proc.ready then after else after.(proc := Down)
  {
    ExecSnoc(p, start, labels, LabelOf(io));
  }

  lemma ApplyStep(p: Plugin, s: State, snapshots: map<string, Device>, env: Env)
    requires s.proc.Up? && s.proc.op.ReconcileApply? && env.mock == p.mock
    requires SnapshotChoice(s.proc.op.cp, s.proc.op.kept, snapshots)
    ensures var next := NextTracked(s.proc.tracked, s.proc.op.found, snapshots, env);
            && KeysAreNames(next)
            && Step(p, s, Apply(snapshots, env)) ==
               State(s.disk, Up(true, next, ResourcesOf(p.node, next), Idle), Names(s.proc.op.found), s.cleared)
  {
    NextNamed(s.proc.tracked, s.proc.op.cp, s.proc.op.kept, s.proc.op.found, snapshots, env);
  }

  lemma ExecSnoc(p: Plugin, s: State, labels: seq<Label>, l: Label)
    ensures Exec(p, s, labels + [l]) == Step(p, Exec(p, s, labels), l)
  {
    assert (labels + [l])[..|labels|] == labels;
  }

  lemma ExecOne(p: Plugin, s: State, l: Label)
    ensures Exec(p, s, [l]) == Step(p, s, l)
  {
    assert [l][..0] == [];
    assert Exec(p, s, []) == s;
  }

  // The plugin directory and the CDI root.
  class PluginDir {
    var checkpoint: CheckpointFile
    var claims: map<UID, seq<Device>>
    var specs: map<UID, Spec>
    ghost var enumerated: set<string>
    ghost var cleared: set<UID>

    constructor ()
      ensures Contents() == INITIAL.disk && enumerated == {} && cleared == {}
    {
      checkpoint, claims, specs := Missing, map[], map[];
      enumerated, cleared := {}, {};
    }

    ghost function Contents(): Disk
      reads this
    {
      Disk(checkpoint, claims, specs)
    }

    method ReadCheckpoint(ioError: bool) returns (r: Result<seq<UID>>)
      ensures r.Ok? <==> !ioError && !checkpoint.Torn?
      ensures r.Ok? ==> r.value == Prepared(Contents())
    {
      if ioError || checkpoint.Torn? {
        return Err("unable to read checkpoint");
      }
      r := Ok(if checkpoint.Valid? then checkpoint.prepared else []);
    }

    method WriteCheckpoint(cp: seq<UID>, io: IO) returns (ok: bool)
      modifies this`checkpoint
      ensures ok <==> io.Good?
      ensures checkpoint == match io
                            case Good => Valid(cp)
                            case Reported => Valid(cp)
                            case Lost => old(checkpoint)
                            case Cut => Torn
    {
      match io {
        case Good => checkpoint := Valid(cp);
        case Reported => checkpoint := Valid(cp);
        case Lost =>
        case Cut => checkpoint := Torn;
      }
      ok := io.Good?;
    }

    method WriteClaims(file: map<UID, seq<Device>>, io: IO) returns (ok: bool)
      modifies this`claims
      ensures ok <==> io.Good?
      ensures claims == if io.Good? || io.Reported? then file else old(claims)
    {
      if io.Good? || io.Reported? {
        claims := file;
      }
      ok := io.Good?;
    }

    method WriteSpec(uid: UID, spec: Spec, io: IO) returns (ok: bool)
      modifies this`specs, this`cleared
      ensures ok <==> io.Good?
      ensures specs == if io.Good? || io.Reported? then old(specs)[uid := spec] else old(specs)
      ensures cleared == if io.Good? || io.Reported? then old(cleared) - {uid} else old(cleared)
    {
      if io.Good? || io.Reported? {
        specs := specs[uid := spec];
        cleared := cleared - {uid};
      }
      ok := io.Good?;
    }

    method RemoveSpec(uid: UID, io: IO) returns (ok: bool)
      modifies this`specs
      ensures ok <==> io.Good?
      ensures specs == if io.Good? || io.Reported? then old(specs) - {uid} else old(specs)
    {
      if io.Good? || io.Reported? {
        specs := specs - {uid};
      }
      ok := io.Good?;
    }
  }

  datatype PrepareIO = PrepareIO(readFails: bool, spec: IO, claimsReadFails: bool, claims: IO, checkpoint: IO)

  datatype UnprepareIO = UnprepareIO(readFails: bool, spec: IO, checkpoint: IO, claimsReadFails: bool, claims: IO)

  datatype ReconcileIO = ReconcileIO(readFails: bool, claimsReadFails: bool, prune: IO)

  datatype ReconcileResult = ReconcileResult(resourcesChanged: bool, healthChanged: bool, resources: Resources)

  class DeviceState {
    const plugin: Plugin
    const config: Config
    const dir: PluginDir
    var tracked: NamedTracked
    var driverResources: Resources
    // Set once NewDeviceState has returned the state to its caller.
    ghost var ready: bool

    constructor (plugin: Plugin, config: Config, dir: PluginDir)
      requires config.mock == plugin.mock
      ensures this.plugin == plugin && this.config == config && this.dir == dir
      ensures !ready && Valid()
    {
      this.plugin, this.config, this.dir := plugin, config, dir;
      tracked, driverResources, ready := map[], NoPools, false;
    }

    ghost predicate Valid()
      reads this
    {
      config.mock == plugin.mock && (!ready ==> tracked == map[] && driverResources == NoPools)
    }

    ghost function View(): State
      reads this, dir
    {
      var proc := if ready then Up(true, tracked, driverResources, Idle) else Down;
      State(dir.Contents(), proc, dir.enumerated, dir.cleared)
    }

    // Prepare at its first write.
    ghost function Preparing(uid: UID, devices: seq<PreparedDevice>, cp: seq<UID>): Op {
      PrepareSpec(uid, devices, cp, SpecFor(plugin.driver, uid, devices))
    }

    /** Prepare: a run of the protocol however the files fare; on success the claim
        table has gained exactly this claim with the devices returned. */
    method Prepare(claim: Claim, stat: string -> bool,
                   io: PrepareIO) returns (r: Result<seq<PreparedDevice>>, ghost labels: seq<Label>)
      requires Valid() && ready
      modifies dir
      ensures Valid() && Exec(plugin, old(View()), labels) == View()
      ensures r.Ok? ==> r == ComputeDevices(plugin, tracked, claim, stat)
      ensures r.Ok? ==> var was := old(dir.Contents());
                        CoreOf(dir.Contents()) == Completed(was, Preparing(claim.uid, r.value, Prepared(was)))
      ensures r.Ok? ==> dir.specs == old(dir.specs)[claim.uid := SpecFor(plugin.driver, claim.uid, r.value)]
      ensures r.Ok? ==> dir.claims == old(dir.claims)[claim.uid := Snapshots(r.value)]
      ensures ComputeDevices(plugin, tracked, claim, stat).Err? || old(dir.checkpoint).Torn? ==>
              r.Err? && dir.Contents() == old(dir.Contents())
      ensures io == PrepareIO(false, Good, false, Good, Good) && !old(dir.checkpoint).Torn? ==>
              r == ComputeDevices(plugin, tracked, claim, stat)
    {
      labels := [];
      var read := dir.ReadCheckpoint(io.readFails);
      if read.Err? {
        return Err(read.error), [];
      }
      var cp := read.value;
      r := PrepareResults(plugin, tracked, claim, stat);
      if r.Err? {
        return;
      }
      ghost var at := View();
      labels := [BeginPrepare(claim, stat)];
      ExecOne(plugin, at, labels[0]);
      DiskRunsThrough(dir.Contents(), Preparing(claim.uid, r.value, cp));
      var ok;
      ok, labels := WritePrepared(claim.uid, r.value, cp, io, old(View()), labels);
      if !ok {
        r := Err("unable to prepare claim");
      }
    }

    // The three writes of Prepare, each only if those before it went through.
    method WritePrepared(uid: UID, devices: seq<PreparedDevice>, cp: seq<UID>, io: PrepareIO,
                         ghost start: State, ghost labels: seq<Label>)
      returns (ok: bool, ghost longer: seq<Label>)
      requires ready && Exec(plugin, start, labels) == At(View(), Preparing(uid, devices, cp))
      modifies dir
      ensures Exec(plugin, start, longer) == View()
      ensures ok <==> io.spec.Good? && !io.claimsReadFails && io.claims.Good? && (uid in cp || io.checkpoint.Good?)
      ensures ok ==> var op := Preparing(uid, devices, cp);
                     dir.Contents() == Written(Written(Written(old(dir.Contents()), op), After(op)), After(After(op)))
    {
      ok, longer := PutSpec(uid, devices, cp, io.spec, start, labels);
      if !ok {
        return;
      }
      if io.claimsReadFails {
        ExecSnoc(plugin, start, longer, Fail);
        return false, longer + [Fail];
      }
      ok, longer := PutSnapshots(uid, devices, cp, io.claims, start, longer);
      if !ok || uid in cp {
        return;
      }
      ok, longer := PutCheckpoint(cp + [uid], io.checkpoint, PrepareCommit(uid, devices, cp), start, longer);
    }

    // CreateClaimSpecFile as a step of Prepare.
    method PutSpec(uid: UID, devices: seq<PreparedDevice>, cp: seq<UID>, io: IO, ghost start: State,
                   ghost labels: seq<Label>)
      returns (ok: bool, ghost longer: seq<Label>)
      requires ready && Exec(plugin, start, labels) == At(View(), Preparing(uid, devices, cp))
      modifies dir`specs, dir`cleared
      ensures ok <==> io.Good?
      ensures dir.Contents() == Reached(old(dir.Contents()), Preparing(uid, devices, cp), io)
      ensures Exec(plugin, start, longer) == if ok then At(View(), PrepareRecord(uid, devices, cp)) else View()
    {
      IoStep(plugin, start, labels, View(), Preparing(uid, devices, cp), io);
      longer := labels + [LabelOf(io)];
      var spec := BuildSpec(plugin.driver, uid, devices);
      ok := dir.WriteSpec(uid, spec, io);
    }

    // recordClaimDevicesLocked as a step of Prepare.
    method PutSnapshots(uid: UID, devices: seq<PreparedDevice>, cp: seq<UID>, io: IO,
                        ghost start: State, ghost labels: seq<Label>)
      returns (ok: bool, ghost longer: seq<Label>)
      requires ready && Exec(plugin, start, labels) == At(View(), PrepareRecord(uid, devices, cp))
      modifies dir`claims
      ensures ok <==> io.Good?
      ensures dir.Contents() == Reached(old(dir.Contents()), PrepareRecord(uid, devices, cp), io)
      ensures Exec(plugin, start, longer) == if ok then At(View(), After(PrepareRecord(uid, devices, cp))) else View()
    {
      IoStep(plugin, start, labels, View(), PrepareRecord(uid, devices, cp), io);
      longer := labels + [LabelOf(io)];
      var snapshots := DeviceSnapshots(devices);
      ok := dir.WriteClaims(dir.claims[uid := snapshots], io);
    }

    // writeCheckpoint as a step of either call.
    method PutCheckpoint(cp: seq<UID>, io: IO, ghost op: Op, ghost start: State, ghost labels: seq<Label>)
      returns (ok: bool, ghost longer: seq<Label>)
      requires ready && InPlace(op) && Written(dir.Contents(), op).checkpoint == CheckpointFile.Valid(cp)
      requires Exec(plugin, start, labels) == At(View(), op)
      modifies dir`checkpoint
      ensures ok <==> io.Good?
      ensures dir.Contents() == Reached(old(dir.Contents()), op, io)
      ensures Exec(plugin, start, longer) == if ok then At(View(), After(op)) else View()
    {
      IoStep(plugin, start, labels, View(), op, io);
      longer := labels + [LabelOf(io)];
      ok := dir.WriteCheckpoint(cp, io);
    }

    /** Unprepare, likewise: on success the claim is out of the checkpoint and out of
        claim-devices, and its spec is gone. */
    method Unprepare(uid: UID, io: UnprepareIO) returns (ok: bool, ghost labels: seq<Label>)
      requires Valid() && ready
      modifies dir
      ensures Valid() && Exec(plugin, old(View()), labels) == View()
      ensures ok ==> var was := old(dir.Contents());
                     CoreOf(dir.Contents()) == Completed(was, UnprepareSpec(uid, Prepared(was)))
      ensures ok ==> uid !in Prepared(dir.Contents())
      ensures ok ==> dir.claims == old(dir.claims) - {uid} && dir.specs == old(dir.specs) - {uid}
      ensures old(dir.checkpoint).Torn? ==> !ok && dir.Contents() == old(dir.Contents())
      ensures io == UnprepareIO(false, Good, Good, false, Good) && !old(dir.checkpoint).Torn? ==> ok
    {
      ok, labels := false, [];
      var read := dir.ReadCheckpoint(io.readFails);
      if read.Err? {
        return;
      }
      var cp := read.value;
      ghost var at := View();
      labels := [BeginUnprepare(uid)];
      ExecOne(plugin, at, labels[0]);
      DiskRunsThrough(dir.Contents(), UnprepareSpec(uid, cp));
      dir.cleared := dir.cleared + {uid};
      ok, labels := WriteUnprepared(uid, cp, io, old(View()), labels);
    }

    // The three writes of Unprepare: spec, checkpoint, snapshot.
    method WriteUnprepared(uid: UID, cp: seq<UID>, io: UnprepareIO, ghost start: State, ghost labels: seq<Label>)
      returns (ok: bool, ghost longer: seq<Label>)
      requires ready && Exec(plugin, start, labels) == At(View(), UnprepareSpec(uid, cp))
      modifies dir
      ensures Exec(plugin, start, longer) == View()
      ensures ok <==> && io.spec.Good? && io.checkpoint.Good? && !io.claimsReadFails
                      && (uid !in old(dir.claims) || io.claims.Good?)
      ensures ok ==> var op := UnprepareSpec(uid, cp);
                     dir.Contents() == Written(Written(Written(old(dir.Contents()), op), After(op)), After(After(op)))
    {
      ok, longer := DropSpec(uid, cp, io.spec, start, labels);
      if !ok {
        return;
      }
      var rest := RemoveClaim(cp, uid);
      ok, longer := PutCheckpoint(rest, io.checkpoint, UnprepareCommit(uid, cp), start, longer);
      if !ok {
        return;
      }
      if io.claimsReadFails {
        ExecSnoc(plugin, start, longer, Fail);
        return false, longer + [Fail];
      }
      ok, longer := DropSnapshots(uid, io.claims, start, longer);
    }

    // DeleteClaimSpecFile as a step of Unprepare.
    method DropSpec(uid: UID, cp: seq<UID>, io: IO, ghost start: State, ghost labels: seq<Label>)
      returns (ok: bool, ghost longer: seq<Label>)
      requires ready && Exec(plugin, start, labels) == At(View(), UnprepareSpec(uid, cp))
      modifies dir`specs
      ensures ok <==> io.Good?
      ensures dir.Contents() == Reached(old(dir.Contents()), UnprepareSpec(uid, cp), io)
      ensures Exec(plugin, start, longer) == if ok then At(View(), UnprepareCommit(uid, cp)) else View()
    {
      IoStep(plugin, start, labels, View(), UnprepareSpec(uid, cp), io);
      longer := labels + [LabelOf(io)];
      ok := dir.RemoveSpec(uid, io);
    }

    // deleteClaimDevicesLocked as a step of Unprepare: no write is made when there is
    // nothing to forget.
    method DropSnapshots(uid: UID, io: IO, ghost start: State, ghost labels: seq<Label>)
      returns (ok: bool, ghost longer: seq<Label>)
      requires ready && Exec(plugin, start, labels) == At(View(), UnprepareForget(uid))
      modifies dir`claims
      ensures ok <==> uid !in old(dir.claims) || io.Good?
      ensures ok ==> dir.Contents() == Written(old(dir.Contents()), UnprepareForget(uid))
      ensures Exec(plugin, start, longer) == View()
    {
      if uid !in dir.claims {
        assert dir.claims - {uid} == dir.claims;
        IoStep(plugin, start, labels, View(), UnprepareForget(uid), Good);
        return true, labels + [LabelOf(Good)];
      }
      IoStep(plugin, start, labels, View(), UnprepareForget(uid), io);
      longer := labels + [LabelOf(io)];
      ok := dir.WriteClaims(dir.claims - {uid}, io);
    }

    /** Reconcile enumerates before it takes the lock; the list it then applies is
        the one Enumerate returned. During startup the same call brings the plugin
        up, or fails and leaves it down. */
    method Reconcile(host: Sysfs, stat: string -> bool, clock: string -> Instant, io: ReconcileIO)
      returns (r: Result<ReconcileResult>, ghost labels: seq<Label>)
      requires Valid() && PathsGiven(host)
      modifies this`tracked, this`driverResources, this`ready, dir
      ensures Valid() && Exec(plugin, old(View()), labels) == View()
      ensures r.Ok? ==> ready && driverResources == ResourcesOf(plugin.node, tracked)
      ensures r.Ok? ==> exists snapshots ::
                          && SnapshotChoice(Prepared(old(dir.Contents())), dir.claims, snapshots)
                          && tracked == NextTracked(old(tracked), Enumeration(config, host), snapshots,
                                                    Env(plugin.mock, stat, clock))
      ensures r.Ok? ==> dir.claims == Pruned(old(dir.claims), Prepared(old(dir.Contents())))
      ensures r.Ok? ==> dir.checkpoint == old(dir.checkpoint)
      ensures r.Ok? ==> r.value == ReconcileResult(!ResourcesEqual(old(driverResources), driverResources),
                                                   HealthView(old(tracked)) != HealthView(tracked), driverResources)
      ensures r.Err? ==> tracked == old(tracked) && driverResources == old(driverResources) && ready == old(ready)
      ensures r.Ok? <==> !old(dir.checkpoint).Torn? && !io.readFails && !io.claimsReadFails
                         && (io.prune.Good? ||
                             Pruned(old(dir.claims), Prepared(old(dir.Contents()))) == old(dir.claims))
    {
      var found := Enumerate(config, host);
      var begun;
      ghost var at;
      begun, labels, at := BeginPass(found, io);
      if begun.Err? {
        return Err(begun.error), labels;
      }
      var snapshots := ClaimedSnapshots(begun.value, dir.claims);
      ghost var env := Env(plugin.mock, stat, clock);
      NextNamed(tracked, begun.value, dir.claims, found, snapshots, env);
      ExecSnoc(plugin, old(View()), labels, Apply(snapshots, env));
      ApplyStep(plugin, at, snapshots, env);
      labels := labels + [Apply(snapshots, env)];
      var result := ApplyPass(found, snapshots, stat, clock);
      dir.enumerated, ready := Names(found), true;
      r := Ok(result);
    }

    // The part of applyDiscoveryLocked that reads the files and prunes.
    method BeginPass(found: seq<Device>,
                     io: ReconcileIO) returns (r: Result<seq<UID>>, ghost labels: seq<Label>, ghost at: State)
      requires Valid() && ValidEnumeration(found)
      modifies dir
      ensures dir.checkpoint == old(dir.checkpoint) && dir.specs == old(dir.specs)
      ensures dir.enumerated == old(dir.enumerated) && dir.cleared == old(dir.cleared)
      ensures Exec(plugin, old(View()), labels) == at
      ensures r.Err? ==> at == View()
      ensures r.Ok? ==> r.value == Prepared(old(dir.Contents())) && dir.claims == Pruned(old(dir.claims), r.value)
      ensures r.Ok? ==> at == State(dir.Contents(),
                                    Up(ready, tracked, driverResources, ReconcileApply(found, r.value, dir.claims)),
                                    dir.enumerated, dir.cleared)
      ensures r.Ok? <==> !old(dir.checkpoint).Torn? && !io.readFails && !io.claimsReadFails
                         && (io.prune.Good? ||
                             Pruned(old(dir.claims), Prepared(old(dir.Contents()))) == old(dir.claims))
    {
      at := View();
      var read := dir.ReadCheckpoint(io.readFails);
      if read.Err? || io.claimsReadFails {
        return Err("read state"), [], at;
      }
      labels := [if ready then BeginReconcile(found) else Restart(found)];
      ExecOne(plugin, at, labels[0]);
      at := Step(plugin, at, labels[0]);
      var kept, changed := PruneClaimDevices(read.value, dir.claims);
      if changed {
        ghost var op := ReconcilePrune(found, read.value, kept);
        IoStep(plugin, old(View()), labels, at.(proc := at.proc.(op := Idle)), op, io.prune);
        labels := labels + [LabelOf(io.prune)];
        at := Exec(plugin, old(View()), labels);
        var ok := dir.WriteClaims(kept, io.prune);
        if !ok {
          return Err("prune claim devices"), labels, at;
        }
      }
      r := read;
    }

    // The part of applyDiscoveryLocked that works in memory.
    method ApplyPass(found: seq<Device>, snapshots: map<string, Device>, stat: string -> bool,
                     clock: string -> Instant) returns (r: ReconcileResult)
      requires KeysAreNames(NextTracked(tracked, found, snapshots, Env(plugin.mock, stat, clock)))
      modifies this`tracked, this`driverResources
      ensures tracked == NextTracked(old(tracked), found, snapshots, Env(plugin.mock, stat, clock))
      ensures driverResources == ResourcesOf(plugin.node, tracked)
      ensures r == ReconcileResult(!ResourcesEqual(old(driverResources), driverResources),
                                   HealthView(old(tracked)) != HealthView(tracked), driverResources)
    {
      var next := BuildNext(tracked, found, snapshots, Env(plugin.mock, stat, clock));
      var list := TrackedList(next);
      var resources := DevicesToResources(plugin.node, list);
      CanonicalPublication(next, list);
      var same := HealthEqual(tracked, next);
      r := ReconcileResult(!ResourcesEqual(driverResources, resources), !same, resources);
      tracked, driverResources := next, resources;
    }
  }

  /** slices.DeleteFunc on the checkpoint's claims. */
  method RemoveClaim(cp: seq<UID>, uid: UID) returns (r: seq<UID>)
    ensures r == Without(cp, uid)
  {
    r := [];
    for i := 0 to |cp|
      invariant r == Without(cp[..i], uid)
    {
      assert cp[..i + 1][..i] == cp[..i];
      if cp[i] != uid {
        r := r + [cp[i]];
      }
    }
    assert cp[..|cp|] == cp;
  }

  /** pruneClaimDevices: drop the snapshots of claims no longer checkpointed, in any
      order, and say whether there were any. */
  method PruneClaimDevices(cp: seq<UID>,
                           claims: map<UID, seq<Device>>) returns (kept: map<UID, seq<Device>>, changed: bool)
    ensures kept == Pruned(claims, cp)
    ensures changed <==> kept != claims
  {
    kept, changed := claims, false;
    var todo := claims.Keys;
    while todo != {}
      invariant todo <= claims.Keys
      invariant forall uid :: uid in kept <==> uid in claims && (uid in todo || uid in cp)
      invariant forall uid :: uid in kept ==> kept[uid] == claims[uid]
      invariant changed <==> kept.Keys != claims.Keys
      decreases todo
    {
      var uid :| uid in todo;
      todo := todo - {uid};
      if uid !in cp {
        kept := kept - {uid};
        changed := true;
        assert uid in claims.Keys && uid !in kept.Keys;
      }
    }
  }

  /** NewDeviceState: a process over an existing plugin directory, up only if its
      first pass succeeds. */
  method NewDeviceState(plugin: Plugin, config: Config, dir: PluginDir, host: Sysfs, stat: string -> bool,
                        clock: string -> Instant, io: ReconcileIO)
    returns (s: DeviceState?, ghost labels: seq<Label>)
    requires config.mock == plugin.mock && PathsGiven(host)
    modifies dir
    ensures s != null ==> fresh(s) && s.Valid() && s.ready && s.plugin == plugin && s.dir == dir
    ensures s != null <==> !old(dir.checkpoint).Torn? && !io.readFails && !io.claimsReadFails
                           && (io.prune.Good? ||
                               Pruned(old(dir.claims), Prepared(old(dir.Contents()))) == old(dir.claims))
    ensures var down := State(old(dir.Contents()), Down, old(dir.enumerated), old(dir.cleared));
            Exec(plugin, down, labels) == if s != null then s.View()
              else State(dir.Contents(), Down, dir.enumerated, dir.cleared)
  {
    var state := new DeviceState(plugin, config, dir);
    var r;
    r, labels := state.Reconcile(host, stat, clock, io);
    s := if r.Ok? then state else null;
  }
}
