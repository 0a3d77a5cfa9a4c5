/** The durable claim protocol as a state machine: every file write is a step, and
    a crash, a failed write or a torn checkpoint may come between any two. */
module Protocol {
  import opened Types
  import opened Reconcile
  import opened Devices
  import opened Cdi
  import opened Discovery
  import opened Allocation

  // checkpoint.json is rewritten in place, so a write cut short leaves a file
  // that no longer parses. claim-devices.json and the CDI specs are renamed into
  // place and are always whole.
  datatype CheckpointFile = Missing | Valid(prepared: seq<UID>) | Torn

  datatype Disk = Disk(checkpoint: CheckpointFile, claims: map<UID, seq<Device>>, specs: map<UID, Spec>)

  // Preparedness as readCheckpoint reports it; meaningless on a torn file.
  function Prepared(d: Disk): seq<UID> {
    if d.checkpoint.Valid? then d.checkpoint.prepared else []
  }

  // The call that holds the mutex, at the write it is about to make. Each keeps
  // what it read or computed when it took the lock.
  datatype Op =
    | Idle
    | PrepareSpec(uid: UID, devices: seq<PreparedDevice>, cp: seq<UID>, spec: Spec)
    | PrepareRecord(uid: UID, devices: seq<PreparedDevice>, cp: seq<UID>)
    | PrepareCommit(uid: UID, devices: seq<PreparedDevice>, cp: seq<UID>)
    | UnprepareSpec(uid: UID, cp: seq<UID>)
    | UnprepareCommit(uid: UID, cp: seq<UID>)
    | UnprepareForget(uid: UID)
    | ReconcilePrune(found: seq<Device>, cp: seq<UID>, kept: map<UID, seq<Device>>)
    | ReconcileApply(found: seq<Device>, cp: seq<UID>, kept: map<UID, seq<Device>>)

  type NamedTracked = m: Tracked | KeysAreNames(m) witness map[]

  // ready is false until NewDeviceState has returned.
  datatype Process = Down | Up(ready: bool, tracked: NamedTracked, resources: Resources, op: Op)

  // enumerated and cleared are history: the names listed by the last successful
  // pass, and the claims whose Unprepare began after their last spec write.
  datatype State = State(disk: Disk, proc: Process, enumerated: set<string>, cleared: set<UID>)

  // How a write ends: done; done but reported as failed; or cut short.
  datatype Outcome = Done | Late | CutShort

  datatype Label =
    | BeginPrepare(claim: Claim, stat: string -> bool)
    | BeginUnprepare(uid: UID)
    | BeginReconcile(found: seq<Device>)
    | Write(outcome: Outcome)
    | Apply(snapshots: map<string, Device>, env: Env)
    | Fail
    | Crash
    | Restart(found: seq<Device>)

  ghost predicate Serving(s: State) {
    s.proc.Up? && s.proc.ready && s.proc.op.Idle?
  }

  ghost function At(s: State, op: Op): State
    requires s.proc.Up?
  {
    s.(proc := s.proc.(op := op))
  }

  // The call returns an error; during startup that ends the process.
  ghost function Abort(s: State): State
    requires s.proc.Up?
  {
    if s.proc.ready then At(s, Idle) else s.(proc := Down)
  }

  function Pruned(claims: map<UID, seq<Device>>, cp: seq<UID>): map<UID, seq<Device>> {
    map uid | uid in claims && uid in cp :: claims[uid]
  }

  function Without(cp: seq<UID>, uid: UID): (r: seq<UID>)
    ensures forall u :: u in r <==> u in cp && u != uid
  {
    if cp == [] then []
    else
      var rest, last := cp[..|cp| - 1], cp[|cp| - 1];
      assert cp == rest + [last];
      if last == uid then Without(rest, uid) else Without(rest, uid) + [last]
  }

  // The positions of the other claims, in order.
  ghost predicate Picks(cp: seq<UID>, uid: UID, r: seq<UID>, at: seq<int>) {
    && |at| == |r|
    && (forall k :: 0 <= k < |at| ==> 0 <= at[k] < |cp| && r[k] == cp[at[k]])
    && (forall j, k :: 0 <= j < k < |at| ==> at[j] < at[k])
    && (forall i :: 0 <= i < |cp| && cp[i] != uid ==> i in at)
  }

  lemma PicksNext(cp: seq<UID>, uid: UID, r: seq<UID>, at: seq<int>, last: UID)
    requires Picks(cp, uid, r, at)
    ensures last == uid ==> Picks(cp + [last], uid, r, at)
    ensures last != uid ==> Picks(cp + [last], uid, r + [last], at + [|cp|])
  {
    assert |cp| in at + [|cp|] by { assert (at + [|cp|])[|at|] == |cp|; }
    assert forall i :: i in at ==> i in at + [|cp|];
  }

  /** What is left are the other claims, each of them, in the order they came. */
  lemma {:induction false} WithoutKeepsOrder(cp: seq<UID>, uid: UID) returns (at: seq<int>)
    ensures Picks(cp, uid, Without(cp, uid), at) && uid !in Without(cp, uid)
  {
    at := [];
    if cp != [] {
      var rest, last := cp[..|cp| - 1], cp[|cp| - 1];
      at := WithoutKeepsOrder(rest, uid);
      PicksNext(rest, uid, Without(rest, uid), at, last);
      assert cp == rest + [last];
      if last != uid { at := at + [|rest|]; }
    }
  }

  // The disk once the pending write has reached it.
  function Written(d: Disk, op: Op): Disk {
    match op
    case PrepareSpec(uid, _, _, spec) => d.(specs := d.specs[uid := spec])
    case PrepareRecord(uid, devices, _) => d.(claims := d.claims[uid := Snapshots(devices)])
    case PrepareCommit(uid, _, cp) => d.(checkpoint := Valid(cp + [uid]))
    case UnprepareSpec(uid, _) => d.(specs := d.specs - {uid})
    case UnprepareCommit(uid, cp) => d.(checkpoint := Valid(Without(cp, uid)))
    case UnprepareForget(uid) => d.(claims := d.claims - {uid})
    case ReconcilePrune(_, _, kept) => d.(claims := kept)
    case ReconcileApply(_, _, _) => d
    case Idle => d
  }

  // Where the call stands after its pending write succeeded.
  function After(op: Op): Op {
    match op
    case PrepareSpec(uid, devices, cp, _) => PrepareRecord(uid, devices, cp)
    case PrepareRecord(uid, devices, cp) => if uid in cp then Idle else PrepareCommit(uid, devices, cp)
    case UnprepareSpec(uid, cp) => UnprepareCommit(uid, cp)
    case UnprepareCommit(uid, _) => UnprepareForget(uid)
    case ReconcilePrune(found, cp, kept) => ReconcileApply(found, cp, kept)
    case _ => Idle
  }

  predicate InPlace(op: Op) {
    op.PrepareCommit? || op.UnprepareCommit?
  }

  predicate Writes(op: Op) {
    !op.Idle? && !op.ReconcileApply?
  }

  ghost function StepWrite(s: State, o: Outcome): State
    requires s.proc.Up? && Writes(s.proc.op)
  {
    var op := s.proc.op;
    var cleared := if op.PrepareSpec? then s.cleared - {op.uid} else s.cleared;
    var landed := s.(disk := Written(s.disk, op), cleared := cleared);
    match o
    case Done => At(landed, After(op))
    case Late => Abort(landed)
    case CutShort => Abort(if InPlace(op) then s.(disk := s.disk.(checkpoint := Torn)) else s)
  }

  ghost function StartPass(s: State, found: seq<Device>): State
    requires s.proc.Up?
  {
    if s.disk.checkpoint.Torn? then Abort(s)
    else
      var cp := Prepared(s.disk);
      var kept := Pruned(s.disk.claims, cp);
      At(s, if kept != s.disk.claims then ReconcilePrune(found, cp, kept) else ReconcileApply(found, cp, kept))
  }

  lemma NextNamed(prev: NamedTracked, prepared: seq<UID>, claims: map<UID, seq<Device>>, found: seq<Device>,
                  snapshots: map<string, Device>, env: Env)
    requires SnapshotChoice(prepared, claims, snapshots)
    ensures KeysAreNames(NextTracked(prev, found, snapshots, env))
  {
    forall name | name in Names(found) + snapshots.Keys
      ensures NextEntry(prev, found, snapshots, env, name).device.name == name
    {
      EntryDevice(prev, found, snapshots, env, name);
      if name in snapshots { SnapshotNamed(prepared, claims, snapshots, name); }
    }
  }

  ghost function StepApply(p: Plugin, s: State, snapshots: map<string, Device>, env: Env): State
    requires s.proc.Up? && s.proc.op.ReconcileApply?
    requires SnapshotChoice(s.proc.op.cp, s.proc.op.kept, snapshots)
  {
    var op := s.proc.op;
    NextNamed(s.proc.tracked, op.cp, op.kept, op.found, snapshots, env);
    var next: NamedTracked := NextTracked(s.proc.tracked, op.found, snapshots, env);
    s.(proc := Up(true, next, ResourcesOf(p.node, next), Idle), enumerated := Names(op.found))
  }

  /** One step. A label that does not apply in the current state leaves it as it is,
      so every sequence of labels is a run. The enumeration of a pass is whatever
      Enumerate returned before the lock was taken: any valid one, however stale. */
  ghost function Step(p: Plugin, s: State, l: Label): State {
    match l
    case BeginPrepare(claim, stat) =>
      if !Serving(s) || s.disk.checkpoint.Torn? then s
      else
        (match ComputeDevices(p, s.proc.tracked, claim, stat)
         case Err(_) => s
         case Ok(devices) =>
           At(s, PrepareSpec(claim.uid, devices, Prepared(s.disk), SpecFor(p.driver, claim.uid, devices))))
    case BeginUnprepare(uid) =>
      if !Serving(s) || s.disk.checkpoint.Torn? then s
      else At(s, UnprepareSpec(uid, Prepared(s.disk))).(cleared := s.cleared + {uid})
    case BeginReconcile(found) =>
      if Serving(s) && ValidEnumeration(found) then StartPass(s, found) else s
    case Write(outcome) =>
      if s.proc.Up? && Writes(s.proc.op) then StepWrite(s, outcome) else s
    case Apply(snapshots, env) =>
      if s.proc.Up? && s.proc.op.ReconcileApply? && env.mock == p.mock &&
        SnapshotChoice(s.proc.op.cp, s.proc.op.kept, snapshots)
      then StepApply(p, s, snapshots, env) else s
    case Fail =>
      if s.proc.Up? && !s.proc.op.Idle? then Abort(s) else s
    case Crash => s.(proc := Down)
    case Restart(found) =>
      if s.proc.Down? && ValidEnumeration(found) then StartPass(s.(proc := Up(false, map[], NoPools, Idle)), found)
        else s
  }

  ghost function Exec(p: Plugin, s: State, labels: seq<Label>): State {
    if labels == [] then s else Step(p, Exec(p, s, labels[..|labels| - 1]), labels[|labels| - 1])
  }

  // An empty plugin directory and no process.
  const INITIAL: State := State(Disk(Missing, map[], map[]), Down, {}, {})

  // ---- Invariant ----

  ghost predicate NoDuplicates(cp: seq<UID>) {
    forall i, j :: 0 <= i < j < |cp| ==> cp[i] != cp[j]
  }

  ghost predicate AllSound(claims: map<UID, seq<Device>>) {
    forall uid, d :: uid in claims && d in claims[uid] ==> Sound(d)
  }

  ghost predicate DiskInv(d: Disk, cleared: set<UID>) {
    && NoDuplicates(Prepared(d))
    && (forall uid :: uid in Prepared(d) ==> uid in d.claims)
    && (forall uid :: uid in Prepared(d) ==> uid in d.specs || uid in cleared)
    && AllSound(d.claims)
  }

  ghost predicate OpInv(s: State)
    requires s.proc.Up?
  {
    var d, cp, tracked := s.disk, Prepared(s.disk), s.proc.tracked;
    (!s.proc.op.Idle? ==> !d.checkpoint.Torn?) &&
    match s.proc.op
    case Idle => s.proc.ready
    case PrepareSpec(uid, devices, read, _) => s.proc.ready && read == cp && AllVouched(tracked, devices)
    case PrepareRecord(uid, devices, read) =>
      s.proc.ready && read == cp && AllVouched(tracked, devices) && uid in d.specs && uid !in s.cleared
    case PrepareCommit(uid, devices, read) =>
      && s.proc.ready && read == cp && AllVouched(tracked, devices) && uid in d.specs && uid !in s.cleared
      && uid !in read && uid in d.claims && d.claims[uid] == Snapshots(devices)
    case UnprepareSpec(uid, read) => s.proc.ready && read == cp && uid in s.cleared
    case UnprepareCommit(uid, read) => s.proc.ready && read == cp && uid in s.cleared
    case UnprepareForget(uid) => s.proc.ready && uid !in cp
    case ReconcilePrune(found, read, kept) => ValidEnumeration(found) && read == cp && kept == Pruned(d.claims, cp)
    case ReconcileApply(found, read, kept) =>
      ValidEnumeration(found) && read == cp && kept == d.claims == Pruned(d.claims, cp)
  }

  ghost predicate AllVouched(tracked: Tracked, devices: seq<PreparedDevice>) {
    forall d :: d in devices ==> Vouched(tracked, d)
  }

  // Every device a prepared claim holds is tracked.
  ghost predicate Retained(s: State)
    requires s.proc.Up?
  {
    forall name :: ClaimedName(Prepared(s.disk), s.disk.claims, name) ==> name in s.proc.tracked
  }

  ghost predicate TrackedInv(tracked: Tracked, enumerated: set<string>) {
    && AllWellFormed(tracked)
    && (forall name :: name in tracked ==> Sound(tracked[name].device))
    && (forall name :: name in tracked ==> (tracked[name].retained <==> name !in enumerated))
  }

  ghost predicate ProcInv(p: Plugin, s: State)
    requires s.proc.Up?
  {
    && OpInv(s)
    && (if s.proc.ready then
          TrackedInv(s.proc.tracked, s.enumerated) && s.proc.resources == ResourcesOf(p.node, s.proc.tracked) &&
            Retained(s)
        else s.proc.tracked == map[])
  }

  ghost predicate Inv(p: Plugin, s: State) {
    DiskInv(s.disk, s.cleared) && (s.proc.Up? ==> ProcInv(p, s))
  }
}
