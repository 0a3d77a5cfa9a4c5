/** The goroutines around DeviceState: the rediscovery loop, the health watcher and
    the Unprepare calls, coupled by two one-slot channels and one mutex. Each step is
    one critical section, channel operation or return; any interleaving is a run.
    The claims are the atomic table the files are proved to refine. */
module Driver {
  import opened Types
  import opened Reconcile
  import opened Devices
  import opened Allocation
  import opened Protocol

  // healthLease, in nanoseconds.
  const HEALTH_LEASE: nat := 30 * NANOSECONDS

  datatype ReportEntry = ReportEntry(
    pool: string,
    name: string,
    health: Status,
    lastUpdated: Time,
    timeout: nat,
    message: string)

  type Report = seq<ReportEntry>

  // reconcileAndPublish, from the select of runRediscovery back to it.
  datatype Loop =
    | Parked
    | Woken
    | Enumerated(found: seq<Device>)
    | Reconciled(healthChanged: bool, resourcesChanged: bool)
    | Notified(resourcesChanged: bool)

  // WatchHealthStatus: about to lock and report, blocked on the reports channel,
  // or waiting for a change or the resend timer.
  datatype Watch = Reporting | Sending(report: Report) | Waiting

  // A driver-level Unprepare whose claim has left the table, the n-th to do so:
  // not yet returned from DeviceState to kick the loop, returned to the kubelet,
  // or returned with an error.
  datatype Call = Removed(uid: UID, n: nat) | Returned(uid: UID, n: nat) | Failed(uid: UID, n: nat)

  // What DeviceState holds in memory.
  datatype Memory = Memory(tracked: NamedTracked, resources: Resources)

  // The claim table, the driver-level Unprepares so far and how many there were.
  // prepared is history: how many there were when a claim was last prepared.
  datatype Kubelet = Kubelet(
    claims: map<UID, seq<Device>>,
    calls: map<nat, Call>,
    removals: nat,
    prepared: map<UID, nat>)

  // The watcher and the last report the kubelet received.
  datatype View = View(watch: Watch, delivered: Option<Report>)

  // What the API server holds; whether the last PublishResources failed; and what
  // publishing after every pass would have left.
  datatype Api = Api(published: Resources, failed: bool, everyPass: Resources)

  // History: how many Unprepares the last attempted and the last successful pass
  // could see, the claims the latter read, the claims prepared since, and the names
  // it was given as enumerated.
  datatype Seen = Seen(attempt: nat, pass: nat, claims: map<UID, seq<Device>>, since: set<UID>, found: set<string>)

  datatype System = System(
    mem: Memory,
    loop: Loop,
    reconcileNow: bool,
    healthChanged: bool,
    kubelet: Kubelet,
    view: View,
    api: Api,
    seen: Seen)

  datatype Label =
    | Tick
    | TakeKick
    | Enumerate(found: seq<Device>)
    | PassOK(prepared: seq<UID>, snapshots: map<string, Device>, env: Env)
    | PassFails
    | Notify
    | Publish(ok: bool)
    | PrepareClaim(uid: UID, devices: seq<Device>)
    | UnprepareClaim(id: nat, uid: UID, ok: bool)
    | Kick(id: nat)
    | MakeReport(list: seq<TrackedDevice>, now: Instant)
    | Deliver
    | TakeHealth
    | Resend

  ghost predicate PassEnabled(s: System, prepared: seq<UID>, snapshots: map<string, Device>) {
    && s.loop.Enumerated?
    && (forall uid :: uid in prepared <==> uid in s.kubelet.claims)
    && SnapshotChoice(prepared, s.kubelet.claims, snapshots)
  }

  // The labels of the loop, of the kubelet's calls and of the watcher, each in a
  // state that allows it.
  predicate LoopEnabled(s: System, l: Label) {
    || (l.Tick? && s.loop.Parked?)
    || (l.TakeKick? && s.loop.Parked? && s.reconcileNow)
    || (l.Enumerate? && s.loop.Woken?)
    || (l.PassFails? && s.loop.Enumerated?)
    || (l.Notify? && s.loop.Reconciled?)
    || (l.Publish? && s.loop.Notified?)
  }

  predicate CallsEnabled(s: System, l: Label) {
    || l.PrepareClaim?
    || (l.UnprepareClaim? && l.id !in s.kubelet.calls)
    || (l.Kick? && l.id in s.kubelet.calls && s.kubelet.calls[l.id].Removed?)
  }

  ghost predicate WatchEnabled(s: System, l: Label) {
    || (l.MakeReport? && s.view.watch.Reporting? && Lists(l.list, s.mem.tracked))
    || (l.Deliver? && s.view.watch.Sending?)
    || (l.TakeHealth? && s.view.watch.Waiting? && s.healthChanged)
    || (l.Resend? && s.view.watch.Waiting?)
  }

  function EntryOf(node: string, td: TrackedDevice, now: Instant): ReportEntry {
    ReportEntry(node, td.device.name, if td.status == Unset then Unknown else td.status, now, HEALTH_LEASE, td.message)
  }

  function ReportOf(node: string, list: seq<TrackedDevice>, now: Instant): Report {
    seq(|list|, i requires 0 <= i < |list| => EntryOf(node, list[i], now))
  }

  /** healthReport: one entry per tracked device, in whatever order the map is walked,
      all of one pool and one reading of the clock. */
  method HealthReport(node: string, tracked: NamedTracked, now: Instant) returns (report: Report)
    ensures exists list :: Lists(list, tracked) && report == ReportOf(node, list, now)
    ensures OfPool(report, node) && forall i :: 0 <= i < |report| ==> report[i].lastUpdated == now
  {
    var devices := TrackedList(tracked);
    report := [];
    for i := 0 to |devices|
      invariant report == ReportOf(node, devices[..i], now)
    {
      report := report + [EntryOf(node, devices[i], now)];
    }
    assert devices[..|devices|] == devices;
  }

  ghost function Pass(p: Plugin, s: System, prepared: seq<UID>, snapshots: map<string, Device>, env: Env): System
    requires PassEnabled(s, prepared, snapshots)
  {
    NextNamed(s.mem.tracked, prepared, s.kubelet.claims, s.loop.found, snapshots, env);
    var next: NamedTracked := NextTracked(s.mem.tracked, s.loop.found, snapshots, env);
    var resources := ResourcesOf(p.node, next);
    s.(mem := Memory(next, resources),
       loop := Reconciled(HealthView(s.mem.tracked) != HealthView(next), !ResourcesEqual(s.mem.resources, resources)),
       seen := Seen(s.kubelet.removals, s.kubelet.removals, s.kubelet.claims, {}, Names(s.loop.found)))
  }

  // The loop outside its passes. A send on a one-slot channel that gives up when
  // the slot is full leaves it full.
  ghost function MoveLoop(s: System, l: Label): System
    requires LoopEnabled(s, l)
  {
    match l
    case Tick => s.(loop := Woken)
    case TakeKick => s.(loop := Woken, reconcileNow := false)
    case Enumerate(found) => s.(loop := Enumerated(found))
    case PassFails => s.(loop := Parked, seen := s.seen.(attempt := s.kubelet.removals))
    case Notify =>
      s.(loop := Notified(s.loop.resourcesChanged), healthChanged := s.healthChanged || s.loop.healthChanged)
    case Publish(ok) =>
      if s.loop.resourcesChanged
      then s.(loop := Parked, api := Api(if ok then s.mem.resources else s.api.published, !ok, s.mem.resources))
      else s.(loop := Parked, api := s.api.(everyPass := s.mem.resources))
  }

  ghost function MoveCalls(s: System, l: Label): System
    requires CallsEnabled(s, l)
  {
    match l
    case PrepareClaim(uid, devices) =>
      var k := s.kubelet;
      s.(kubelet := k.(claims := k.claims[uid := devices], prepared := k.prepared[uid := k.removals]),
         seen := s.seen.(since := s.seen.since + {uid}))
    case UnprepareClaim(id, uid, ok) =>
      var k, n := s.kubelet, s.kubelet.removals + 1;
      var call := if ok then Removed(uid, n) else Failed(uid, n);
      s.(kubelet := k.(claims := k.claims - {uid}, calls := k.calls[id := call], removals := n))
    case Kick(id) =>
      var call := s.kubelet.calls[id];
      s.(reconcileNow := true, kubelet := s.kubelet.(calls := s.kubelet.calls[id := Returned(call.uid, call.n)]))
  }

  ghost function MoveWatch(p: Plugin, s: System, l: Label): System
    requires WatchEnabled(s, l)
  {
    match l
    case MakeReport(list, now) => s.(view := s.view.(watch := Sending(ReportOf(p.node, list, now))))
    case Deliver => s.(view := View(Waiting, Some(s.view.watch.report)))
    case TakeHealth => s.(view := s.view.(watch := Reporting), healthChanged := false)
    case Resend => s.(view := s.view.(watch := Reporting))
  }

  /** One step; a label that does not apply leaves the state as it is. */
  ghost function Step(p: Plugin, s: System, l: Label): System {
    if LoopEnabled(s, l) then MoveLoop(s, l)
    else if CallsEnabled(s, l) then MoveCalls(s, l)
    else if WatchEnabled(s, l) then MoveWatch(p, s, l)
    else if l.PassOK? && PassEnabled(s, l.prepared, l.snapshots) then Pass(p, s, l.prepared, l.snapshots, l.env)
    else s
  }

  // NewDriver: the first pass over whatever claims the directory holds, its result
  // published, the loop and the watcher about to start.
  ghost predicate Init(p: Plugin, s: System) {
    && AllWellFormed(s.mem.tracked) && TracksExactly(s.mem.tracked, s.seen.found, s.kubelet.claims)
    && s.mem.resources == ResourcesOf(p.node, s.mem.tracked) == s.api.published == s.api.everyPass
    && s.loop.Parked? && !s.reconcileNow && !s.healthChanged && s.view.watch.Reporting? && s.view.delivered.None?
    && !s.api.failed && s.kubelet.calls == map[] && s.kubelet.removals == s.seen.attempt == s.seen.pass == 0
    && s.seen.claims == s.kubelet.claims
  }

  /** The first pass of a process, over any claims and any enumeration, starts a run. */
  lemma FirstPassStarts(p: Plugin, prepared: seq<UID>, claims: map<UID, seq<Device>>, found: seq<Device>,
                        snapshots: map<string, Device>, env: Env)
    requires (forall uid :: uid in prepared <==> uid in claims) && SnapshotChoice(prepared, claims, snapshots)
    ensures var next := NextTracked(map[], found, snapshots, env);
            KeysAreNames(next) &&
            var r := ResourcesOf(p.node, next);
            Init(p, System(Memory(next, r), Parked, false, false, Kubelet(claims, map[], 0, map[]),
                           View(Reporting, None), Api(r, false, r), Seen(0, 0, claims, {}, Names(found))))
  {
    NextNamed(map[], prepared, claims, found, snapshots, env);
    NextWellFormed(map[], prepared, claims, found, snapshots, env);
  }

  ghost function Exec(p: Plugin, s: System, labels: seq<Label>): System {
    if labels == [] then s else Step(p, Exec(p, s, labels[..|labels| - 1]), labels[|labels| - 1])
  }

  // ---- Invariants ----

  ghost predicate Held(claims: map<UID, seq<Device>>, name: string) {
    name != "" && exists uid :: uid in claims && name in Names(claims[uid])
  }

  // Tracked is what was enumerated and what claims hold, retained what only they do.
  ghost predicate TracksExactly(tracked: Tracked, found: set<string>, claims: map<UID, seq<Device>>) {
    && (forall name :: name in tracked <==> name in found || Held(claims, name))
    && (forall name :: name in tracked ==> (tracked[name].retained <==> name !in found))
  }

  ghost predicate Agrees(report: Report, health: map<string, (Status, string)>) {
    && (forall i :: 0 <= i < |report| ==> report[i].name in health)
    && (forall i :: 0 <= i < |report| ==> health[report[i].name] == (report[i].health, report[i].message))
    && (forall name :: name in health ==> exists i :: 0 <= i < |report| && report[i].name == name)
    && (forall i, j :: 0 <= i < j < |report| ==> report[i].name != report[j].name)
  }

  // Every entry is of the node's pool and good for half a minute.
  ghost predicate OfPool(report: Report, node: string) {
    forall i :: 0 <= i < |report| ==> report[i].pool == node && report[i].timeout == 30_000_000_000
  }

  ghost predicate PoolInv(p: Plugin, s: System) {
    && (s.view.watch.Sending? ==> OfPool(s.view.watch.report, p.node))
    && (s.view.delivered.Some? ==> OfPool(s.view.delivered.value, p.node))
  }

  ghost predicate HealthPending(s: System) {
    s.healthChanged || (s.loop.Reconciled? && s.loop.healthChanged)
  }

  ghost predicate WatchInv(s: System) {
    && (s.view.watch.Sending? ==> Agrees(s.view.watch.report, HealthView(s.mem.tracked)) || HealthPending(s))
    && (s.view.watch.Waiting? ==> s.view.delivered.Some?)
    && (s.view.watch.Waiting? ==> Agrees(s.view.delivered.value, HealthView(s.mem.tracked)) || HealthPending(s))
  }

  ghost predicate PassPending(s: System) {
    s.reconcileNow || s.loop.Woken? || s.loop.Enumerated?
  }

  ghost predicate WakeInv(s: System) {
    && s.seen.pass <= s.seen.attempt <= s.kubelet.removals
    && (forall id :: id in s.kubelet.calls ==> 0 < s.kubelet.calls[id].n <= s.kubelet.removals)
    && (forall id :: id in s.kubelet.calls && s.kubelet.calls[id].Returned? ==>
        s.kubelet.calls[id].n <= s.seen.attempt || PassPending(s))
  }

  // The claim was unprepared too late for the last successful pass to see it.
  ghost predicate GoneSince(s: System, uid: UID) {
    exists id :: id in s.kubelet.calls && s.kubelet.calls[id].uid == uid && s.kubelet.calls[id].n > s.seen.pass
  }

  // The claim holds now what it held at the last successful pass, or was prepared
  // again since.
  ghost predicate StillHeld(s: System, uid: UID)
    requires uid in s.seen.claims
  {
    uid in s.kubelet.claims && (s.kubelet.claims[uid] == s.seen.claims[uid] || uid in s.seen.since)
  }

  ghost predicate ClaimsInv(s: System) {
    && TracksExactly(s.mem.tracked, s.seen.found, s.seen.claims)
    && (forall uid :: uid in s.seen.claims ==> StillHeld(s, uid) || GoneSince(s, uid))
  }

  // The claim was prepared after the n-th Unprepare.
  ghost predicate PreparedAfter(k: Kubelet, uid: UID, n: nat) {
    uid in k.prepared && k.prepared[uid] >= n
  }

  // An unprepared claim is in the table, or was when the last pass read it, only if it
  // was prepared again.
  ghost predicate TableInv(s: System) {
    forall id :: id in s.kubelet.calls ==>
      var call := s.kubelet.calls[id];
      call.uid in s.kubelet.claims || (call.uid in s.seen.claims && call.n <= s.seen.pass) ==>
        PreparedAfter(s.kubelet, call.uid, call.n)
  }

  ghost predicate PublishInv(p: Plugin, s: System) {
    && AllWellFormed(s.mem.tracked)
    && s.mem.resources == ResourcesOf(p.node, s.mem.tracked)
    && (!s.api.failed && !((s.loop.Reconciled? || s.loop.Notified?) && s.loop.resourcesChanged) ==>
        s.api.published == s.mem.resources)
    && (s.loop.Reconciled? || s.loop.Notified? || s.api.everyPass == s.mem.resources)
  }

  ghost predicate Inv(p: Plugin, s: System) {
    WatchInv(s) && PoolInv(p, s) && WakeInv(s) && ClaimsInv(s) && TableInv(s) && PublishInv(p, s)
  }

  lemma ReportAgrees(node: string, tracked: NamedTracked, list: seq<TrackedDevice>, now: Instant)
    requires AllWellFormed(tracked) && Lists(list, tracked)
    ensures Agrees(ReportOf(node, list, now), HealthView(tracked))
  {
    var report := ReportOf(node, list, now);
    forall i | 0 <= i < |report|
      ensures report[i].name in HealthView(tracked) &&
              HealthView(tracked)[report[i].name] == (report[i].health, report[i].message)
    {
      assert list[i] in list;
      assert Holds(tracked, list[i]) && WellFormed(list[i].device.name, tracked[list[i].device.name]);
    }
    forall name | name in HealthView(tracked) ensures exists i :: 0 <= i < |report| && report[i].name == name {
      assert Holds(tracked, tracked[name]);
      var i :| 0 <= i < |list| && list[i] == tracked[name];
      assert report[i].name == name;
    }
  }

  // Where a step leaves the watcher, the reported health and the tracked set alone,
  // it may only add to what is pending.
  lemma WatchKept(s: System, t: System)
    requires WatchInv(s) && t.view == s.view && t.mem == s.mem
    requires HealthPending(s) ==> HealthPending(t)
    ensures WatchInv(t)
  {}

  lemma WatchMoves(p: Plugin, s: System, l: Label)
    requires WatchInv(s) && AllWellFormed(s.mem.tracked) && WatchEnabled(s, l)
    ensures WatchInv(MoveWatch(p, s, l))
  {
    if l.MakeReport? {
      ReportAgrees(p.node, s.mem.tracked, l.list, l.now);
    }
  }

  lemma WatchPass(p: Plugin, s: System, prepared: seq<UID>, snapshots: map<string, Device>, env: Env)
    requires WatchInv(s) && PassEnabled(s, prepared, snapshots)
    ensures WatchInv(Pass(p, s, prepared, snapshots, env))
  {
    var t := Pass(p, s, prepared, snapshots, env);
    assert t.view == s.view && t.healthChanged == s.healthChanged && !s.loop.Reconciled?;
    assert t.loop.Reconciled? && (t.loop.healthChanged <==> HealthView(s.mem.tracked) != HealthView(t.mem.tracked));
  }

  // A step that touches no call either reads the table afresh or loses no token.
  lemma WakeKept(s: System, t: System)
    requires WakeInv(s) && t.kubelet == s.kubelet && t.seen.pass == s.seen.pass
    requires t.seen.attempt == s.kubelet.removals ||
             (t.seen.attempt == s.seen.attempt && (PassPending(s) ==> PassPending(t)))
    ensures WakeInv(t)
  {}

  lemma WakeCalls(s: System, l: Label)
    requires WakeInv(s) && CallsEnabled(s, l)
    ensures WakeInv(MoveCalls(s, l))
  {
    var t := MoveCalls(s, l);
    assert PassPending(s) ==> PassPending(t);
    if l.UnprepareClaim? {
      forall id | id in t.kubelet.calls && t.kubelet.calls[id].Returned?
        ensures t.kubelet.calls[id].n <= t.seen.attempt || PassPending(t)
      {
        assert id != l.id && t.kubelet.calls[id] == s.kubelet.calls[id];
      }
    }
  }

  lemma WakePass(p: Plugin, s: System, prepared: seq<UID>, snapshots: map<string, Device>, env: Env)
    requires WakeInv(s) && PassEnabled(s, prepared, snapshots)
    ensures WakeInv(Pass(p, s, prepared, snapshots, env))
  {
    var t := Pass(p, s, prepared, snapshots, env);
    assert t.kubelet == s.kubelet && t.seen.attempt == t.seen.pass == s.kubelet.removals;
  }

  lemma ClaimsPass(p: Plugin, s: System, prepared: seq<UID>, snapshots: map<string, Device>, env: Env)
    requires AllWellFormed(s.mem.tracked) && PassEnabled(s, prepared, snapshots)
    ensures ClaimsInv(Pass(p, s, prepared, snapshots, env))
  {
    NextWellFormed(s.mem.tracked, prepared, s.kubelet.claims, s.loop.found, snapshots, env);
  }

  lemma ClaimsUnprepare(s: System, id: nat, uid: UID, ok: bool)
    requires ClaimsInv(s) && WakeInv(s) && id !in s.kubelet.calls
    ensures ClaimsInv(MoveCalls(s, UnprepareClaim(id, uid, ok)))
  {
    var t := MoveCalls(s, UnprepareClaim(id, uid, ok));
    forall u | u in t.seen.claims ensures StillHeld(t, u) || GoneSince(t, u) {
      if u == uid {
        assert t.kubelet.calls[id].uid == u && t.kubelet.calls[id].n > t.seen.pass;
      } else if GoneSince(s, u) {
        var other :| other in s.kubelet.calls && s.kubelet.calls[other].uid == u &&
          s.kubelet.calls[other].n > s.seen.pass;
        assert t.kubelet.calls[other] == s.kubelet.calls[other];
      }
    }
  }

  lemma ClaimsKick(s: System, id: nat)
    requires ClaimsInv(s) && CallsEnabled(s, Kick(id))
    ensures ClaimsInv(MoveCalls(s, Kick(id)))
  {
    var t := MoveCalls(s, Kick(id));
    forall u | u in t.seen.claims ensures StillHeld(t, u) || GoneSince(t, u) {
      if GoneSince(s, u) {
        var other :| other in s.kubelet.calls && s.kubelet.calls[other].uid == u &&
          s.kubelet.calls[other].n > s.seen.pass;
        assert t.kubelet.calls[other].uid == u && t.kubelet.calls[other].n > t.seen.pass;
      }
    }
  }

  lemma ClaimsRest(s: System, t: System)
    requires ClaimsInv(s) && s.kubelet.claims.Keys <= t.kubelet.claims.Keys && s.seen.since <= t.seen.since
    requires forall u :: u in s.kubelet.claims ==> t.kubelet.claims[u] == s.kubelet.claims[u] || u in t.seen.since
    requires t.kubelet.calls == s.kubelet.calls && t.seen.pass == s.seen.pass
    requires t.seen.claims == s.seen.claims && t.seen.found == s.seen.found && t.mem == s.mem
    ensures ClaimsInv(t)
  {
    forall u | u in t.seen.claims ensures StillHeld(t, u) || GoneSince(t, u) {
      assert StillHeld(s, u) || GoneSince(s, u);
    }
  }

  lemma ClaimsCalls(s: System, l: Label)
    requires ClaimsInv(s) && WakeInv(s) && CallsEnabled(s, l)
    ensures ClaimsInv(MoveCalls(s, l))
  {
    if l.UnprepareClaim? {
      ClaimsUnprepare(s, l.id, l.uid, l.ok);
    } else if l.Kick? {
      ClaimsKick(s, l.id);
    } else {
      ClaimsRest(s, MoveCalls(s, l));
    }
  }

  lemma TableCalls(s: System, l: Label)
    requires TableInv(s) && WakeInv(s) && CallsEnabled(s, l)
    ensures TableInv(MoveCalls(s, l))
  {}

  lemma TableKept(s: System, t: System)
    requires TableInv(s) && t.kubelet == s.kubelet && t.seen.claims == s.seen.claims && t.seen.pass == s.seen.pass
    ensures TableInv(t)
  {}

  lemma TablePass(p: Plugin, s: System, prepared: seq<UID>, snapshots: map<string, Device>, env: Env)
    requires TableInv(s) && PassEnabled(s, prepared, snapshots)
    ensures TableInv(Pass(p, s, prepared, snapshots, env))
  {
    var t := Pass(p, s, prepared, snapshots, env);
    assert t.kubelet == s.kubelet && t.seen.claims == s.kubelet.claims;
  }

  lemma PoolMoves(p: Plugin, s: System, l: Label)
    requires PoolInv(p, s) && WatchEnabled(s, l)
    ensures PoolInv(p, MoveWatch(p, s, l))
  {}

  lemma PublishPass(p: Plugin, s: System, prepared: seq<UID>, snapshots: map<string, Device>, env: Env)
    requires PublishInv(p, s) && PassEnabled(s, prepared, snapshots)
    ensures PublishInv(p, Pass(p, s, prepared, snapshots, env))
    ensures var t := Pass(p, s, prepared, snapshots, env);
            t.loop.resourcesChanged <==> t.mem.resources != s.mem.resources
  {
    NextNamed(s.mem.tracked, prepared, s.kubelet.claims, s.loop.found, snapshots, env);
    NextWellFormed(s.mem.tracked, prepared, s.kubelet.claims, s.loop.found, snapshots, env);
    PassKeepsTaintTimes(s.mem.tracked, s.loop.found, snapshots, env);
    ResourcesEqualExact(p.node, s.mem.tracked, NextTracked(s.mem.tracked, s.loop.found, snapshots, env));
  }

  lemma PublishLoop(p: Plugin, s: System, l: Label)
    requires PublishInv(p, s) && LoopEnabled(s, l)
    ensures PublishInv(p, MoveLoop(s, l))
  {}

  lemma LoopFrame(s: System, l: Label)
    requires LoopEnabled(s, l)
    ensures var t := MoveLoop(s, l);
            && t.view == s.view && t.mem == s.mem && t.kubelet == s.kubelet
            && t.seen.pass == s.seen.pass && t.seen.claims == s.seen.claims && t.seen.since == s.seen.since
            && t.seen.found == s.seen.found
  {}

  lemma LoopKeepsTokens(s: System, l: Label)
    requires LoopEnabled(s, l)
    ensures var t := MoveLoop(s, l);
            && (HealthPending(s) ==> HealthPending(t))
            && (t.seen.attempt == s.kubelet.removals ||
                (t.seen.attempt == s.seen.attempt && (PassPending(s) ==> PassPending(t))))
  {}

  lemma InvLoop(p: Plugin, s: System, l: Label)
    requires Inv(p, s) && LoopEnabled(s, l)
    ensures Inv(p, MoveLoop(s, l))
  {
    var t := MoveLoop(s, l);
    assert WatchInv(t) by { LoopFrame(s, l); LoopKeepsTokens(s, l); WatchKept(s, t); }
    assert WakeInv(t) by { LoopFrame(s, l); LoopKeepsTokens(s, l); WakeKept(s, t); }
    assert ClaimsInv(t) by { LoopFrame(s, l); ClaimsRest(s, t); }
    assert TableInv(t) && PoolInv(p, t) by { LoopFrame(s, l); TableKept(s, t); }
    PublishLoop(p, s, l);
  }

  lemma InvCalls(p: Plugin, s: System, l: Label)
    requires Inv(p, s) && CallsEnabled(s, l)
    ensures Inv(p, MoveCalls(s, l))
  {
    WatchKept(s, MoveCalls(s, l));
    WakeCalls(s, l);
    ClaimsCalls(s, l);
    TableCalls(s, l);
  }

  lemma InvWatch(p: Plugin, s: System, l: Label)
    requires Inv(p, s) && WatchEnabled(s, l)
    ensures Inv(p, MoveWatch(p, s, l))
  {
    WatchMoves(p, s, l);
    PoolMoves(p, s, l);
    TableKept(s, MoveWatch(p, s, l));
    ClaimsRest(s, MoveWatch(p, s, l));
  }

  lemma InvPass(p: Plugin, s: System, prepared: seq<UID>, snapshots: map<string, Device>, env: Env)
    requires Inv(p, s) && PassEnabled(s, prepared, snapshots)
    ensures Inv(p, Pass(p, s, prepared, snapshots, env))
  {
    WatchPass(p, s, prepared, snapshots, env);
    WakePass(p, s, prepared, snapshots, env);
    ClaimsPass(p, s, prepared, snapshots, env);
    TablePass(p, s, prepared, snapshots, env);
    PublishPass(p, s, prepared, snapshots, env);
  }

  lemma InvStep(p: Plugin, s: System, l: Label)
    requires Inv(p, s)
    ensures Inv(p, Step(p, s, l))
  {
    if LoopEnabled(s, l) { InvLoop(p, s, l); }
    else if CallsEnabled(s, l) { InvCalls(p, s, l); }
    else if WatchEnabled(s, l) { InvWatch(p, s, l); }
    else if l.PassOK? && PassEnabled(s, l.prepared, l.snapshots) { InvPass(p, s, l.prepared, l.snapshots, l.env); }
  }

  lemma {:induction false} InvAlways(p: Plugin, s: System, labels: seq<Label>)
    requires Init(p, s)
    ensures Inv(p, Exec(p, s, labels))
  {
    if labels != [] {
      InvAlways(p, s, labels[..|labels| - 1]);
      InvStep(p, Exec(p, s, labels[..|labels| - 1]), labels[|labels| - 1]);
    }
  }

  ghost predicate Reachable(p: Plugin, s: System) {
    exists start, labels :: Init(p, start) && s == Exec(p, start, labels)
  }

  lemma InvReachable(p: Plugin, s: System)
    requires Reachable(p, s)
    ensures Inv(p, s)
  {
    var start, labels :| Init(p, start) && s == Exec(p, start, labels);
    InvAlways(p, start, labels);
  }

  // ---- Theorems about every interleaving ----

  /** No lost health update: whenever the watcher waits, no token is in the channel
      and no pass is between releasing the lock and notifying, the last report the
      kubelet got has exactly the tracked devices, each once, with their health and
      message, in the node's pool. */
  lemma NoLostHealthUpdate(p: Plugin, s: System)
    requires Reachable(p, s) && s.view.watch.Waiting? && !s.healthChanged && !s.loop.Reconciled?
    ensures s.view.delivered.Some? && Agrees(s.view.delivered.value, HealthView(s.mem.tracked))
    ensures OfPool(s.view.delivered.value, p.node)
  {
    InvReachable(p, s);
  }

  /** No lost wake-up: the loop is never parked with nothing in its channel while an
      Unprepare that has returned successfully is still unread by it. */
  lemma NoLostWakeUp(p: Plugin, s: System, id: nat)
    requires Reachable(p, s) && s.loop.Parked? && !s.reconcileNow
    requires id in s.kubelet.calls && s.kubelet.calls[id].Returned?
    ensures s.kubelet.calls[id].n <= s.seen.attempt
  {
    InvReachable(p, s);
  }

  /** What the kick is for: once the loop has come to rest after a successful pass
      and no Unprepare is on its way to kick, a device kept only for its claims is
      held by a prepared claim, was so when that claim was last prepared again, or
      belongs to a claim whose Unprepare failed. */
  lemma RetainedOnlyWhileClaimed(p: Plugin, s: System, name: string)
    requires Reachable(p, s) && s.loop.Parked? && !s.reconcileNow && s.seen.pass == s.seen.attempt
    requires forall id :: id in s.kubelet.calls ==> !s.kubelet.calls[id].Removed?
    requires name in s.mem.tracked && s.mem.tracked[name].retained
    ensures exists uid :: KeepsName(s, uid, name) && (StillHeld(s, uid) || UnprepareFailed(s, uid))
  {
    InvReachable(p, s);
    RetainedHeld(s, name);
  }

  lemma RetainedHeld(s: System, name: string)
    requires ClaimsInv(s) && WakeInv(s) && !PassPending(s) && s.seen.pass == s.seen.attempt
    requires forall id :: id in s.kubelet.calls ==> !s.kubelet.calls[id].Removed?
    requires name in s.mem.tracked && s.mem.tracked[name].retained
    ensures exists uid :: KeepsName(s, uid, name) && (StillHeld(s, uid) || UnprepareFailed(s, uid))
  {
    var uid :| uid in s.seen.claims && name in Names(s.seen.claims[uid]);
    assert KeepsName(s, uid, name);
    if !StillHeld(s, uid) {
      assert GoneSince(s, uid);
      var id :| id in s.kubelet.calls && s.kubelet.calls[id].uid == uid && s.kubelet.calls[id].n > s.seen.pass;
      assert s.kubelet.calls[id].Failed?;
    }
  }

  /** What Unprepare is for: once a successful pass has read the table after an Unprepare
      of the claim, with no Prepare of it in between, the claim is gone from what that
      pass read, and a device neither enumerated nor held by another claim is tracked no
      longer. */
  lemma UnpreparedDropped(p: Plugin, s: System, id: nat)
    requires Reachable(p, s) && id in s.kubelet.calls && s.kubelet.calls[id].n <= s.seen.pass
    requires !PreparedAfter(s.kubelet, s.kubelet.calls[id].uid, s.kubelet.calls[id].n)
    ensures var uid := s.kubelet.calls[id].uid;
            && uid !in s.seen.claims && uid !in s.kubelet.claims
            && (forall name :: name in s.mem.tracked && name !in s.seen.found ==>
                  exists other :: other != uid && KeepsName(s, other, name))
  {
    InvReachable(p, s);
    TrackedHeld(s);
  }

  lemma TrackedHeld(s: System)
    requires ClaimsInv(s)
    ensures forall name :: name in s.mem.tracked && name !in s.seen.found ==> exists uid :: KeepsName(s, uid, name)
  {
    forall name | name in s.mem.tracked && name !in s.seen.found ensures exists uid :: KeepsName(s, uid, name) {
      assert Held(s.seen.claims, name);
      var uid :| uid in s.seen.claims && name in Names(s.seen.claims[uid]);
      assert KeepsName(s, uid, name);
    }
  }

  /** At rest that pass has happened: with the loop parked, its channel empty and its
      last attempt successful, a returned Unprepare has been read. */
  lemma AtRestUnpreparedDropped(p: Plugin, s: System, id: nat)
    requires Reachable(p, s) && s.loop.Parked? && !s.reconcileNow && s.seen.pass == s.seen.attempt
    requires id in s.kubelet.calls && s.kubelet.calls[id].Returned?
    requires !PreparedAfter(s.kubelet, s.kubelet.calls[id].uid, s.kubelet.calls[id].n)
    ensures var uid := s.kubelet.calls[id].uid;
            && uid !in s.seen.claims && uid !in s.kubelet.claims
            && (forall name :: name in s.mem.tracked && name !in s.seen.found ==>
                  exists other :: other != uid && KeepsName(s, other, name))
  {
    NoLostWakeUp(p, s, id);
    UnpreparedDropped(p, s, id);
  }

  // The last successful pass read a claim that holds the device.
  ghost predicate KeepsName(s: System, uid: UID, name: string) {
    uid in s.seen.claims && name in Names(s.seen.claims[uid])
  }

  ghost predicate UnprepareFailed(s: System, uid: UID) {
    exists id :: id in s.kubelet.calls && s.kubelet.calls[id].uid == uid && s.kubelet.calls[id].Failed?
  }

  /** Publishing only on change leaves what publishing after every pass would leave,
      namely the tracked set, as long as the last publication went through. */
  lemma DeltaPublishing(p: Plugin, s: System)
    requires Reachable(p, s) && s.loop.Parked? && !s.api.failed
    ensures s.api.published == s.api.everyPass == ResourcesOf(p.node, s.mem.tracked)
  {
    InvReachable(p, s);
  }

  // ---- Tokens ----

  // Sends and receives on the two channels that took effect.
  datatype Traffic = Traffic(kicks: nat, woken: nat, notices: nat, resent: nat)

  ghost function NextTraffic(t: Traffic, s: System, l: Label): Traffic {
    if l.Kick? && CallsEnabled(s, l) then t.(kicks := t.kicks + 1)
    else if l.TakeKick? && LoopEnabled(s, l) then t.(woken := t.woken + 1)
    else if l.Notify? && LoopEnabled(s, l) && s.loop.healthChanged then t.(notices := t.notices + 1)
    else if l.TakeHealth? && WatchEnabled(s, l) then t.(resent := t.resent + 1)
    else t
  }

  ghost function TrafficOf(p: Plugin, s: System, labels: seq<Label>): Traffic {
    if labels == [] then Traffic(0, 0, 0, 0)
    else
      var before := labels[..|labels| - 1];
      NextTraffic(TrafficOf(p, s, before), Exec(p, s, before), labels[|labels| - 1])
  }

  function Tokens(slot: bool): nat {
    if slot then 1 else 0
  }

  ghost predicate Paid(t: Traffic, s: System) {
    t.woken + Tokens(s.reconcileNow) <= t.kicks && t.resent + Tokens(s.healthChanged) <= t.notices
  }

  lemma PaidStep(p: Plugin, s: System, l: Label, t: Traffic)
    requires Paid(t, s)
    ensures Paid(NextTraffic(t, s, l), Step(p, s, l))
  {
    if LoopEnabled(s, l) {
      assert Step(p, s, l) == MoveLoop(s, l);
    } else if CallsEnabled(s, l) {
      assert Step(p, s, l) == MoveCalls(s, l);
    } else if WatchEnabled(s, l) {
      assert Step(p, s, l) == MoveWatch(p, s, l);
    }
  }

  /** No wake-up out of nothing: coalescing only ever merges tokens, so the loop is woken
      by its channel at most once per returned Unprepare, and the watcher at most once
      per pass that changed health. */
  lemma {:induction false} NoSpuriousWakeUp(p: Plugin, s: System, labels: seq<Label>)
    requires Init(p, s)
    ensures Paid(TrafficOf(p, s, labels), Exec(p, s, labels))
  {
    if labels != [] {
      var before := labels[..|labels| - 1];
      NoSpuriousWakeUp(p, s, before);
      PaidStep(p, Exec(p, s, before), labels[|labels| - 1], TrafficOf(p, s, before));
    }
  }

  // ---- One cycle ----

  // One run of reconcileAndPublish after a tick.
  ghost function Cycle(p: Plugin, s: System, found: seq<Device>, prepared: seq<UID>, snapshots: map<string, Device>,
                       env: Env, ok: bool): System {
    Step(p, Step(p, Step(p, Step(p, Step(p, s, Tick), Enumerate(found)), PassOK(prepared, snapshots, env)), Notify),
         Publish(ok))
  }

  lemma CycleHead(p: Plugin, s: System, found: seq<Device>)
    requires s.loop.Parked?
    ensures Step(p, Step(p, s, Tick), Enumerate(found)) == s.(loop := Enumerated(found))
  {}

  lemma CycleTail(p: Plugin, s: System, ok: bool)
    requires s.loop.Reconciled?
    ensures var t := Step(p, Step(p, s, Notify), Publish(ok));
            && t.loop.Parked? && t.mem.resources == s.mem.resources
            && t.api.published == if s.loop.resourcesChanged && ok then s.mem.resources else s.api.published
  {}

  lemma CycleEnds(p: Plugin, s: System, found: seq<Device>, prepared: seq<UID>, snapshots: map<string, Device>,
                  env: Env, ok: bool)
    requires s.loop.Parked? && PassEnabled(s.(loop := Enumerated(found)), prepared, snapshots)
    ensures var u := Pass(p, s.(loop := Enumerated(found)), prepared, snapshots, env);
            var t := Cycle(p, s, found, prepared, snapshots, env, ok);
            && t.loop.Parked? && t.mem.resources == u.mem.resources
            && t.api.published == if u.loop.resourcesChanged && ok then u.mem.resources else s.api.published
  {
    CycleHead(p, s, found);
    CycleTail(p, Pass(p, s.(loop := Enumerated(found)), prepared, snapshots, env), ok);
  }

  ghost predicate Choice(s: System, prepared: seq<UID>, snapshots: map<string, Device>) {
    (forall uid :: uid in prepared <==> uid in s.kubelet.claims) &&
      SnapshotChoice(prepared, s.kubelet.claims, snapshots)
  }

  /** Whether in step with the API server before or not, one run of reconcileAndPublish
      ends in step exactly when its pass finds new content and publishing it succeeds,
      or what it finds is what the API server holds already. */
  lemma CycleInStep(p: Plugin, s: System, found: seq<Device>, prepared: seq<UID>, snapshots: map<string, Device>,
                    env: Env, ok: bool)
    requires Reachable(p, s) && s.loop.Parked? && Choice(s, prepared, snapshots)
    ensures var next := NextTracked(s.mem.tracked, found, snapshots, env);
            var t := Cycle(p, s, found, prepared, snapshots, env, ok);
            KeysAreNames(next) &&
            var content := ResourcesOf(p.node, next);
            && t.loop.Parked? && t.mem.resources == content
            && (t.api.published == content <==> (ok && content != s.mem.resources) || content == s.api.published)
            && (t.api.published == content || t.api.published == s.api.published)
  {
    InvReachable(p, s);
    NextNamed(s.mem.tracked, prepared, s.kubelet.claims, found, snapshots, env);
    CycleEnds(p, s, found, prepared, snapshots, env, ok);
    PublishPass(p, s.(loop := Enumerated(found)), prepared, snapshots, env);
  }

  // No publication is due.
  ghost predicate NothingDue(s: System) {
    s.loop.Reconciled? || s.loop.Notified? ==> !s.loop.resourcesChanged
  }

  lemma NotRetriedStep(p: Plugin, s: System, l: Label)
    requires PublishInv(p, s) && NothingDue(s) && Step(p, s, l).mem.resources == s.mem.resources
    ensures Step(p, s, l).api.published == s.api.published && NothingDue(Step(p, s, l))
  {
    if LoopEnabled(s, l) || CallsEnabled(s, l) || WatchEnabled(s, l) {
    } else if l.PassOK? && PassEnabled(s, l.prepared, l.snapshots) {
      PublishPass(p, s, l.prepared, l.snapshots, l.env);
    }
  }

  /** A failed publication is not retried: over any run, however long and however
      interleaved, in which passes keep finding the content they found before, the API
      server keeps what it had. */
  lemma {:induction false} FailureSticks(p: Plugin, s: System, labels: seq<Label>)
    requires Reachable(p, s) && s.loop.Parked?
    requires forall k :: 0 <= k <= |labels| ==> Exec(p, s, labels[..k]).mem.resources == s.mem.resources
    ensures Exec(p, s, labels).api.published == s.api.published && Exec(p, s, labels).mem.resources == s.mem.resources
    ensures NothingDue(Exec(p, s, labels)) && Reachable(p, Exec(p, s, labels))
  {
    if labels != [] {
      var before := labels[..|labels| - 1];
      assert forall k :: 0 <= k <= |before| ==> before[..k] == labels[..k];
      assert labels[..|labels|] == labels;
      FailureSticks(p, s, before);
      InvReachable(p, Exec(p, s, before));
      NotRetriedStep(p, Exec(p, s, before), labels[|labels| - 1]);
      ReachableStep(p, Exec(p, s, before), labels[|labels| - 1]);
    }
  }

  lemma ReachableStep(p: Plugin, s: System, l: Label)
    requires Reachable(p, s)
    ensures Reachable(p, Step(p, s, l))
  {
    var start, labels :| Init(p, start) && s == Exec(p, start, labels);
    assert (labels + [l])[..|labels|] == labels;
    assert Step(p, s, l) == Exec(p, start, labels + [l]);
  }

  lemma CycleReachable(p: Plugin, s: System, found: seq<Device>, prepared: seq<UID>, snapshots: map<string, Device>,
                       env: Env, ok: bool)
    requires Reachable(p, s)
    ensures Reachable(p, Cycle(p, s, found, prepared, snapshots, env, ok))
  {
    var s1 := Step(p, s, Tick);
    var s2 := Step(p, s1, Enumerate(found));
    var s3 := Step(p, s2, PassOK(prepared, snapshots, env));
    ReachableStep(p, s, Tick);
    ReachableStep(p, s1, Enumerate(found));
    ReachableStep(p, s2, PassOK(prepared, snapshots, env));
    ReachableStep(p, s3, Notify);
    ReachableStep(p, Step(p, s3, Notify), Publish(ok));
  }

  lemma EmptyStart(p: Plugin, env: Env) returns (s: System)
    ensures Reachable(p, s) && s.loop.Parked? && s.kubelet.claims == map[]
    ensures s.mem.tracked == map[] && s.api.published == s.mem.resources == ResourcesOf(p.node, map[])
  {
    FirstPassStarts(p, [], map[], [], map[], env);
    var none: NamedTracked := map[];
    assert NextTracked(map[], [], map[], env) == none;
    var r := ResourcesOf(p.node, none);
    s := System(Memory(none, r), Parked, false, false, Kubelet(map[], map[], 0, map[]), View(Reporting, None),
                Api(r, false, r), Seen(0, 0, map[], {}, {}));
    assert Init(p, s) && Exec(p, s, []) == s;
  }

  lemma FirstDeviceIsNews(p: Plugin, d: Device, env: Env)
    ensures var next := NextTracked(map[], [d], map[], env);
            KeysAreNames(next) && ResourcesOf(p.node, next) != ResourcesOf(p.node, map[])
  {
    var next := NextTracked(map[], [d], map[], env);
    NextNamed(map[], [], map[], [d], map[], env);
    assert d in [d] && d.name in Names([d]);
    PublishedNames(p.node, next, d.name);
    assert ResourcesOf(p.node, map[]).devices == [];
  }

  /** A state out of step is reached by a first device whose publication fails. */
  lemma OutOfStepReached(p: Plugin, d: Device, env: Env) returns (s: System)
    ensures Reachable(p, s) && s.loop.Parked? && s.api.published != s.mem.resources
  {
    var start := EmptyStart(p, env);
    FirstDeviceIsNews(p, d, env);
    s := Cycle(p, start, [d], [], map[], env, false);
    CycleReachable(p, start, [d], [], map[], env, false);
    CycleInStep(p, start, [d], [], map[], env, false);
  }
}
