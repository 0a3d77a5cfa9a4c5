/** The three durable objects refine one table of claims with atomic operations, and
    a crash inside an operation is as if it had run fully or not at all. */
module Refinement {
  import opened Types
  import opened Reconcile
  import opened Devices
  import opened Discovery
  import opened Allocation
  import opened Protocol
  import opened Safety

  // ---- The abstract claim table ----

  // Wedged: the checkpoint no longer parses and every call is refused.
  datatype Table = Table(claims: map<UID, seq<Device>>) | Wedged

  datatype Action = Stutter | Prepare(uid: UID, devices: seq<Device>) | Unprepare(uid: UID) | Wedge

  function Act(t: Table, a: Action): Table {
    match (t, a)
    case (Table(claims), Prepare(uid, devices)) => Table(claims[uid := devices])
    case (Table(claims), Unprepare(uid)) => Table(claims - {uid})
    case (_, Wedge) => Wedged
    case (_, _) => t
  }

  function Abstract(d: Disk): Table {
    if d.checkpoint.Torn? then Wedged else Table(Pruned(d.claims, Prepared(d)))
  }

  // The write at which a call takes effect: a first Prepare and an Unprepare at
  // the checkpoint, a repeated Prepare already at its snapshot.
  function ActionOf(op: Op, o: Outcome): Action {
    match op
    case PrepareRecord(uid, devices, cp) =>
      if uid in cp && o != CutShort then Prepare(uid, Snapshots(devices)) else Stutter
    case PrepareCommit(uid, devices, cp) => if o == CutShort then Wedge else Prepare(uid, Snapshots(devices))
    case UnprepareCommit(uid, cp) => if o == CutShort then Wedge else Unprepare(uid)
    case _ => Stutter
  }

  ghost function ActionAt(s: State, l: Label): Action {
    if l.Write? && s.proc.Up? then ActionOf(s.proc.op, l.outcome) else Stutter
  }

  // What the call at its pending write knows of the disk.
  ghost predicate Consistent(d: Disk, op: Op) {
    && !d.checkpoint.Torn?
    && (op.PrepareSpec? || op.PrepareRecord? || op.PrepareCommit? || op.UnprepareSpec? || op.UnprepareCommit? ==>
        op.cp == Prepared(d))
    && (op.PrepareCommit? ==> op.uid !in op.cp && op.uid in d.claims && d.claims[op.uid] == Snapshots(op.devices))
    && (op.UnprepareForget? ==> op.uid !in Prepared(d))
    && (op.ReconcilePrune? ==> op.kept == Pruned(d.claims, Prepared(d)))
  }

  lemma InvConsistent(p: Plugin, s: State)
    requires Inv(p, s) && s.proc.Up? && Writes(s.proc.op)
    ensures Consistent(s.disk, s.proc.op)
  {}

  lemma LandedPrepare(d: Disk, op: Op)
    requires Consistent(d, op) && (op.PrepareRecord? || op.PrepareCommit?)
    ensures Abstract(Written(d, op)) == Act(Abstract(d), ActionOf(op, Done))
  {
    var e, before := Written(d, op), Pruned(d.claims, Prepared(d));
    if op.PrepareCommit? {
      assert forall u :: u in op.cp + [op.uid] <==> u in op.cp || u == op.uid;
      assert Pruned(e.claims, Prepared(e)) == before[op.uid := Snapshots(op.devices)];
    } else {
      assert Pruned(e.claims, Prepared(e)) == if op.uid in op.cp then before[op.uid := Snapshots(op.devices)]
             else before;
    }
  }

  lemma LandedOther(d: Disk, op: Op)
    requires Consistent(d, op) && !(op.PrepareRecord? || op.PrepareCommit?)
    ensures Abstract(Written(d, op)) == Act(Abstract(d), ActionOf(op, Done))
  {
    var e, before := Written(d, op), Pruned(d.claims, Prepared(d));
    if op.UnprepareCommit? {
      assert Pruned(e.claims, Prepared(e)) == before - {op.uid};
    } else {
      assert Pruned(e.claims, Prepared(e)) == before;
    }
  }

  lemma WriteSimulates(s: State, o: Outcome)
    requires s.proc.Up? && Writes(s.proc.op) && Consistent(s.disk, s.proc.op)
    ensures Abstract(StepWrite(s, o).disk) == Act(Abstract(s.disk), ActionOf(s.proc.op, o))
  {
    if o != CutShort {
      if s.proc.op.PrepareRecord? || s.proc.op.PrepareCommit? {
        LandedPrepare(s.disk, s.proc.op);
      } else {
        LandedOther(s.disk, s.proc.op);
      }
      assert StepWrite(s, o).disk == Written(s.disk, s.proc.op);
      assert ActionOf(s.proc.op, o) == ActionOf(s.proc.op, Done);
    }
  }

  /** Forward simulation: every step, whether a write, a failed or torn write, a
      prune, a crash or a restart, is one atomic action on the table or none. */
  lemma Simulation(p: Plugin, s: State, l: Label)
    requires Reachable(p, s)
    ensures Abstract(Step(p, s, l).disk) == Act(Abstract(s.disk), ActionAt(s, l))
  {
    InvReachable(p, s);
    SimulationStep(p, s, l);
  }

  lemma SimulationStep(p: Plugin, s: State, l: Label)
    requires Inv(p, s)
    ensures Abstract(Step(p, s, l).disk) == Act(Abstract(s.disk), ActionAt(s, l))
  {
    if l.Write? && s.proc.Up? && Writes(s.proc.op) {
      InvConsistent(p, s);
      WriteSimulates(s, l.outcome);
    } else {
      OnlyWritesTouchDisk(p, s, l);
    }
  }

  ghost function Actions(p: Plugin, labels: seq<Label>): seq<Action> {
    if labels == [] then []
    else Actions(p, labels[..|labels| - 1]) + [ActionAt(Exec(p, INITIAL, labels[..|labels| - 1]), labels[|labels| - 1])]
  }

  function Replay(t: Table, actions: seq<Action>): Table {
    if actions == [] then t else Act(Replay(t, actions[..|actions| - 1]), actions[|actions| - 1])
  }

  /** So a whole run of the files is a run of the table. */
  lemma {:induction false} RunRefinesTable(p: Plugin, labels: seq<Label>)
    ensures Abstract(Exec(p, INITIAL, labels).disk) == Replay(Table(map[]), Actions(p, labels))
  {
    if labels == [] {
      assert Abstract(INITIAL.disk) == Table(map[]);
    } else {
      var before := labels[..|labels| - 1];
      RunRefinesTable(p, before);
      InvAlways(p, before);
      SimulationStep(p, Exec(p, INITIAL, before), labels[|labels| - 1]);
      var actions := Actions(p, labels);
      assert actions[..|actions| - 1] == Actions(p, before);
    }
  }

  // ---- A torn checkpoint ----

  /** Once a checkpoint write has been cut short, nothing the plugin does changes
      the disk again, a running process keeps what it tracks, and no restart ever
      comes up. */
  lemma {:induction false} TornFreezes(p: Plugin, s: State, labels: seq<Label>)
    requires Inv(p, s) && s.disk.checkpoint.Torn?
    ensures var t := Exec(p, s, labels);
            && t.disk == s.disk
            && (t.proc.Down? || (s.proc.Up? && Serving(t) && t.proc.tracked == s.proc.tracked))
  {
    if labels != [] {
      TornFreezes(p, s, labels[..|labels| - 1]);
      TornStep(p, Exec(p, s, labels[..|labels| - 1]), labels[|labels| - 1]);
    }
  }

  lemma TornStep(p: Plugin, s: State, l: Label)
    requires s.disk.checkpoint.Torn? && (s.proc.Down? || Serving(s))
    ensures var t := Step(p, s, l);
            t.disk == s.disk && (t.proc.Down? || (Serving(t) && s.proc.Up? && t.proc.tracked == s.proc.tracked))
  {}

  /** A checkpoint write cut short loses no device: whatever happens afterwards, while
      the process is up every device of every claim that was prepared before the write
      stays tracked and published. */
  lemma TornKeepsDevices(p: Plugin, s: State, labels: seq<Label>, uid: UID, d: Device)
    requires Reachable(p, s) && s.proc.Up? && InPlace(s.proc.op)
    requires uid in Prepared(s.disk) && uid in s.disk.claims && d in s.disk.claims[uid]
    ensures var t := Exec(p, Step(p, s, Write(CutShort)), labels);
            t.disk.checkpoint.Torn? &&
            (t.proc.Up? ==>
               && t.proc.resources == ResourcesOf(p.node, t.proc.tracked) && d.name in t.proc.tracked
               && ToResourceDevice(t.proc.tracked[d.name]) in t.proc.resources.devices)
  {
    var torn := Step(p, s, Write(CutShort));
    InPlaceServes(p, s);
    RetentionSafety(p, s);
    InvReachable(p, s);
    InvStep(p, s, Write(CutShort));
    TornFreezes(p, torn, labels);
    InvRun(p, torn, labels);
    PublishedNames(p.node, s.proc.tracked, d.name);
  }

  lemma InPlaceServes(p: Plugin, s: State)
    requires Reachable(p, s) && s.proc.Up? && InPlace(s.proc.op)
    ensures s.proc.ready
    ensures var t := Step(p, s, Write(CutShort));
            t.disk == s.disk.(checkpoint := Torn) && Serving(t) && t.proc.tracked == s.proc.tracked
  {
    InvReachable(p, s);
  }

  // ---- Crash atomicity ----

  predicate Begins(l: Label) {
    l.BeginPrepare? || l.BeginUnprepare? || l.BeginReconcile?
  }

  // What of a disk survives a crash and a restart.
  datatype Core = Core(prepared: seq<UID>, table: Table)

  function CoreOf(d: Disk): Core {
    Core(Prepared(d), Abstract(d))
  }

  // The core once the call now at its first write has run to the end.
  function Completed(d: Disk, op: Op): Core {
    match op
    case PrepareSpec(uid, devices, cp, _) =>
      Core(if uid in cp then cp else cp + [uid], Act(Abstract(d), Prepare(uid, Snapshots(devices))))
    case UnprepareSpec(uid, cp) => Core(Without(cp, uid), Act(Abstract(d), Unprepare(uid)))
    case _ => CoreOf(d)
  }

  // The same call at a later write.
  predicate SameCall(first: Op, op: Op) {
    match first
    case PrepareSpec(uid, devices, cp, _) =>
      || op == first || op == PrepareRecord(uid, devices, cp)
      || (uid !in cp && op == PrepareCommit(uid, devices, cp))
    case UnprepareSpec(uid, cp) => op == first || op == UnprepareCommit(uid, cp)
    case _ => false
  }

  // Until its committing write the call has not touched the core; after it, the
  // core is the completed one.
  ghost predicate Atomic(d: Disk, first: Op, s: State) {
    s.disk.checkpoint.Torn? ||
    var core := CoreOf(s.disk);
    if s.proc.Up? && SameCall(first, s.proc.op) then core == CoreOf(d)
    else if s.proc.Up? && (s.proc.op.PrepareSpec? || s.proc.op.PrepareRecord? || s.proc.op.PrepareCommit?
                           || s.proc.op.UnprepareSpec? || s.proc.op.UnprepareCommit?) then false
    else core == CoreOf(d) || core == Completed(d, first)
  }

  lemma AtomicWrite(d: Disk, first: Op, s: State, o: Outcome)
    requires s.proc.Up? && Writes(s.proc.op) && Consistent(s.disk, s.proc.op) && Atomic(d, first, s)
    requires first.PrepareSpec? || first.UnprepareSpec?
    ensures Atomic(d, first, StepWrite(s, o))
  {
    WriteSimulates(s, o);
  }

  lemma AtomicOther(p: Plugin, d: Disk, first: Op, s: State, l: Label)
    requires Atomic(d, first, s) && !Begins(l) && !(l.Write? && s.proc.Up? && Writes(s.proc.op))
    requires first.PrepareSpec? || first.UnprepareSpec?
    ensures Atomic(d, first, Step(p, s, l))
  {
    OnlyWritesTouchDisk(p, s, l);
  }

  lemma AtomicStep(p: Plugin, d: Disk, first: Op, s: State, l: Label)
    requires s.proc.Up? && Writes(s.proc.op) ==> Consistent(s.disk, s.proc.op)
    requires Atomic(d, first, s) && !Begins(l)
    requires first.PrepareSpec? || first.UnprepareSpec?
    ensures Atomic(d, first, Step(p, s, l))
  {
    if l.Write? && s.proc.Up? && Writes(s.proc.op) {
      AtomicWrite(d, first, s, l.outcome);
    } else {
      AtomicOther(p, d, first, s, l);
    }
  }

  ghost predicate NoneBegins(labels: seq<Label>) {
    forall i :: 0 <= i < |labels| ==> !Begins(labels[i])
  }

  ghost predicate Crashes(labels: seq<Label>) {
    exists i :: 0 <= i < |labels| && labels[i].Crash?
  }

  lemma {:induction false} AtomicRun(p: Plugin, d: Disk, first: Op, s: State, labels: seq<Label>)
    requires Inv(p, s) && Atomic(d, first, s) && NoneBegins(labels)
    requires first.PrepareSpec? || first.UnprepareSpec?
    ensures Inv(p, Exec(p, s, labels)) && Atomic(d, first, Exec(p, s, labels))
  {
    if labels != [] {
      var before, last := labels[..|labels| - 1], labels[|labels| - 1];
      AtomicRun(p, d, first, s, before);
      InvStep(p, Exec(p, s, before), last);
      var at := Exec(p, s, before);
      if at.proc.Up? && Writes(at.proc.op) {
        InvConsistent(p, at);
      }
      AtomicStep(p, d, first, at, last);
    }
  }

  // A process that is up has completed the pass it started with and nothing since.
  ghost predicate CameUp(s: State) {
    s.proc.Up? && s.proc.ready ==> Settled(s)
  }

  lemma RestartQuiet(p: Plugin, s: State, l: Label)
    requires CameUp(s) && !Begins(l) && !l.Apply?
    ensures CameUp(Step(p, s, l))
  {
    if s.proc.Up? && s.proc.ready {
      assert Step(p, s, l) == if l.Crash? then s.(proc := Down) else s;
    } else {
      assert var t := Step(p, s, l); t.proc.Down? || !t.proc.ready;
    }
  }

  lemma RestartApply(p: Plugin, s: State, l: Label)
    requires CameUp(s) && Inv(p, s) && l.Apply?
    ensures CameUp(Step(p, s, l))
  {
    if s.proc.Up? && s.proc.op.ReconcileApply? && SnapshotChoice(s.proc.op.cp, s.proc.op.kept, l.snapshots) {
      ApplySettles(p, s, l.snapshots, l.env);
      assert Step(p, s, l) == s || Step(p, s, l) == StepApply(p, s, l.snapshots, l.env);
    } else {
      assert Step(p, s, l) == s;
    }
  }

  lemma {:induction false} RestartSettles(p: Plugin, s: State, labels: seq<Label>)
    requires Inv(p, s) && NoneBegins(labels) && Crashes(labels)
    ensures CameUp(Exec(p, s, labels))
  {
    var before, last := labels[..|labels| - 1], labels[|labels| - 1];
    if !last.Crash? {
      var i :| 0 <= i < |labels| && labels[i].Crash?;
      assert before[i].Crash?;
      RestartSettles(p, s, before);
      if last.Apply? {
        InvRun(p, s, before);
        RestartApply(p, Exec(p, s, before), last);
      } else {
        RestartQuiet(p, Exec(p, s, before), last);
      }
    }
  }

  lemma {:induction false} InvRun(p: Plugin, s: State, labels: seq<Label>)
    requires Inv(p, s)
    ensures Inv(p, Exec(p, s, labels))
  {
    if labels != [] {
      InvRun(p, s, labels[..|labels| - 1]);
      InvStep(p, Exec(p, s, labels[..|labels| - 1]), labels[|labels| - 1]);
    }
  }

  // A process that came up over a disk with this core: checkpoint, claim-devices
  // and tracked names are those the core and the enumeration determine.
  ghost predicate RestartedFrom(t: State, core: Core) {
    && Serving(t) && core.table.Table?
    && Prepared(t.disk) == core.prepared
    && t.disk.claims == core.table.claims
    && (forall name :: name in t.proc.tracked <==>
        name in t.enumerated || ClaimedName(core.prepared, core.table.claims, name))
  }

  lemma SettledFrom(t: State)
    requires Settled(t)
    ensures RestartedFrom(t, CoreOf(t.disk))
  {
    assert Pruned(t.disk.claims, Prepared(t.disk)) == t.disk.claims;
  }

  /** Crash atomicity: begin a Prepare or Unprepare, let its writes end in any way
      and crash at any point, retry the restart as often as it takes. The plugin
      that finally comes up is the one that would have come up had the call never
      run, or had it run to the end. */
  lemma CrashAtomicity(p: Plugin, s: State, begin: Label, labels: seq<Label>)
    requires Reachable(p, s) && Serving(s) && (begin.BeginPrepare? || begin.BeginUnprepare?)
    requires !Serving(Step(p, s, begin))
    requires NoneBegins(labels) && Crashes(labels) && Serving(Exec(p, Step(p, s, begin), labels))
    ensures var s1 := Step(p, s, begin);
            var t := Exec(p, s1, labels);
            RestartedFrom(t, CoreOf(s.disk)) || RestartedFrom(t, Completed(s.disk, s1.proc.op))
  {
    InvReachable(p, s);
    InvStep(p, s, begin);
    var s1 := Step(p, s, begin);
    AtomicRun(p, s.disk, s1.proc.op, s1, labels);
    RestartSettles(p, s1, labels);
    SettledFrom(Exec(p, s1, labels));
  }

  lemma ConsistentNext(d: Disk, op: Op)
    requires Consistent(d, op)
    requires op.PrepareSpec? || op.PrepareRecord? || op.UnprepareSpec? || op.UnprepareCommit?
    ensures After(op).Idle? || Consistent(Written(d, op), After(op))
  {}

  lemma DiskRunsThrough(d: Disk, op: Op)
    requires Consistent(d, op) && (op.PrepareSpec? || op.UnprepareSpec?)
    ensures var d2, op2 := Written(Written(d, op), After(op)), After(After(op));
            After(op2).Idle? && CoreOf(Written(d2, op2)) == Completed(d, op)
  {
    var d1, op1 := Written(d, op), After(op);
    var d2, op2 := Written(d1, op1), After(op1);
    ConsistentNext(d, op);
    ConsistentNext(d1, op1);
    LandedOther(d, op);
    if op.PrepareSpec? {
      LandedPrepare(d1, op1);
      if !op2.Idle? { LandedPrepare(d2, op2); }
    } else {
      LandedOther(d1, op1);
      LandedOther(d2, op2);
    }
  }

  lemma DoneStep(p: Plugin, s: State)
    requires s.proc.Up? && s.proc.ready
    ensures var t := Step(p, s, Write(Done));
            && t.proc == (if Writes(s.proc.op) then s.proc.(op := After(s.proc.op)) else s.proc)
            && t.disk == Written(s.disk, s.proc.op)
  {}

  lemma ThreeWrites(p: Plugin, s: State)
    requires s.proc.Up? && s.proc.ready
    ensures var t := Exec(p, s, [Write(Done), Write(Done), Write(Done)]);
            var op := s.proc.op;
            Writes(op) && Writes(After(op)) && After(After(After(op))).Idle? ==>
              Serving(t) && t.disk == Written(Written(Written(s.disk, op), After(op)), After(After(op)))
  {
    Exec3(p, s, Write(Done), Write(Done), Write(Done));
    var s1 := Step(p, s, Write(Done));
    DoneStep(p, s);
    DoneStep(p, s1);
    DoneStep(p, Step(p, s1, Write(Done)));
  }

  /** Completed is what an undisturbed call leaves. */
  lemma UndisturbedCompletes(p: Plugin, s: State)
    requires Inv(p, s) && s.proc.Up? && (s.proc.op.PrepareSpec? || s.proc.op.UnprepareSpec?)
    ensures var t := Exec(p, s, [Write(Done), Write(Done), Write(Done)]);
            Serving(t) && CoreOf(t.disk) == Completed(s.disk, s.proc.op)
  {
    InvConsistent(p, s);
    DiskRunsThrough(s.disk, s.proc.op);
    ThreeWrites(p, s);
  }

  // ---- Repeating a pass ----

  ghost function FullPass(p: Plugin, s: State, found: seq<Device>, snapshots: map<string, Device>, env: Env): State {
    Step(p, Step(p, Step(p, s, BeginReconcile(found)), Write(Done)), Apply(snapshots, env))
  }

  lemma PassReachesApply(p: Plugin, s: State, found: seq<Device>)
    requires Serving(s) && !s.disk.checkpoint.Torn? && ValidEnumeration(found)
    ensures var kept := Pruned(s.disk.claims, Prepared(s.disk));
            Step(p, Step(p, s, BeginReconcile(found)), Write(Done)) ==
              s.(proc := s.proc.(op := ReconcileApply(found, Prepared(s.disk), kept)), disk := s.disk.(claims := kept))
  {}

  lemma FullPassApplies(p: Plugin, s: State, found: seq<Device>, snapshots: map<string, Device>, env: Env)
    requires Serving(s) && !s.disk.checkpoint.Torn? && ValidEnumeration(found) && env.mock == p.mock
    requires SnapshotChoice(Prepared(s.disk), Pruned(s.disk.claims, Prepared(s.disk)), snapshots)
    ensures var t := FullPass(p, s, found, snapshots, env);
            && Serving(t)
            && t.proc.tracked == NextTracked(s.proc.tracked, found, snapshots, env)
            && t.proc.resources == ResourcesOf(p.node, t.proc.tracked)
            && t.disk == s.disk.(claims := Pruned(s.disk.claims, Prepared(s.disk)))
            && t.enumerated == Names(found) && t.cleared == s.cleared
  {
    PassReachesApply(p, s, found);
  }

  /** From any serving state a repeated pass over the same enumeration and node
      presence leaves the whole state as it is, so neither change flag is raised,
      even if the passes picked different snapshots of a device and read different
      clocks. */
  lemma ReconcileIdempotent(p: Plugin, s: State, found: seq<Device>, first: map<string, Device>,
                            second: map<string, Device>, 
                            env: Env, later: string -> Instant)
    requires Serving(s) && !s.disk.checkpoint.Torn? && ValidEnumeration(found) && env.mock == p.mock
    requires SnapshotChoice(Prepared(s.disk), Pruned(s.disk.claims, Prepared(s.disk)), first)
    requires SnapshotChoice(Prepared(s.disk), Pruned(s.disk.claims, Prepared(s.disk)), second)
    ensures var t := FullPass(p, s, found, first, env);
            var u := FullPass(p, t, found, second, env.(clock := later));
            && u == t && t.proc.Up?
            && HealthView(t.proc.tracked) == HealthView(u.proc.tracked)
            && ResourcesEqual(t.proc.resources, u.proc.resources)
  {
    FullPassApplies(p, s, found, first, env);
    var t := FullPass(p, s, found, first, env);
    assert Pruned(t.disk.claims, Prepared(t.disk)) == t.disk.claims;
    FullPassApplies(p, t, found, second, env.(clock := later));
    PassIdempotent(s.proc.tracked, Prepared(s.disk), t.disk.claims, found, first, second, env, later);
  }
}
