/** One reconcile pass: how the tracked set and each device's health follow from
    the previous tracked set, the enumeration and the claimed snapshots. */
module Reconcile {
  import opened Types

  // What the plugin reads from the host during one pass: stat on a device node,
  // and the clock as read when a device is marked unavailable.
  datatype Env = Env(mock: bool, stat: string -> bool, clock: string -> Instant)

  predicate NodeExists(mock: bool, stat: string -> bool, path: string) {
    if mock || path == "" then mock else stat(path)
  }

  function MarkUnavailable(td: TrackedDevice, value: string, message: string, now: Instant): TrackedDevice {
    td.(status := Unhealthy,
        message := message,
        taintValue := value,
        taintedAt := if td.taintedAt == 0 then now else td.taintedAt)
  }

  function Fresh(d: Device): TrackedDevice {
    TrackedDevice(d, Unset, "", false, 0, "", false)
  }

  function AssessEnumerated(d: Device, prev: Option<TrackedDevice>, nodeOK: bool, now: Instant): TrackedDevice {
    var td := if prev.Some?
              then Fresh(d).(nodeSeen := prev.value.nodeSeen, taintedAt := prev.value.taintedAt)
              else Fresh(d);
    if nodeOK then
      td.(nodeSeen := true, status := Healthy, taintedAt := 0, taintValue := "")
    else if td.nodeSeen then
      MarkUnavailable(td, TAINT_NODE_MISSING, MSG_NODE_MISSING, now)
    else
      td.(status := Unknown, message := MSG_NOT_YET_PRESENT, taintedAt := 0, taintValue := "")
  }

  function Assess(prev: Tracked, d: Device, env: Env): TrackedDevice {
    AssessEnumerated(d, Lookup(prev, d.name), NodeExists(env.mock, env.stat, d.deviceNode), env.clock(d.name))
  }

  // A claimed device the enumeration no longer lists. After a restart there is
  // no previous entry and the claim's snapshot stands in for it.
  function Retain(snapshot: Device, prev: Option<TrackedDevice>, now: Instant): TrackedDevice {
    var base := if prev.Some? then prev.value else Fresh(snapshot);
    MarkUnavailable(base, TAINT_NOT_DISCOVERED, MSG_NOT_DISCOVERED, now).(retained := true)
  }

  function NextEntry(prev: Tracked, found: seq<Device>, snapshots: map<string, Device>, env: Env,
                     name: string): TrackedDevice
    requires name in Names(found) + snapshots.Keys
  {
    var listed := LastNamed(found, name);
    if listed.Some? then
      Assess(prev, listed.value, env)
    else
      Retain(snapshots[name], Lookup(prev, name), env.clock(name))
  }

  function NextTracked(prev: Tracked, found: seq<Device>, snapshots: map<string, Device>, env: Env): Tracked {
    map name | name in Names(found) + snapshots.Keys :: NextEntry(prev, found, snapshots, env, name)
  }

  /** The two loops of applyDiscoveryLocked. The snapshots come in map order; every
      order builds the same tracked set. */
  method BuildNext(prev: Tracked, found: seq<Device>, snapshots: map<string, Device>, env: Env) returns (next: Tracked)
    ensures next == NextTracked(prev, found, snapshots, env)
  {
    next := AssessAll(prev, found, env);
    var listed := next.Keys;
    var todo, done := snapshots.Keys, map[];
    while todo != {}
      invariant todo <= snapshots.Keys && done.Keys == snapshots.Keys - todo
      invariant forall name :: name in done ==> done[name] == snapshots[name]
      invariant next == NextTracked(prev, found, done, env)
      decreases todo
    {
      var name :| name in todo;
      todo := todo - {name};
      RetainNext(prev, found, done, name, snapshots[name], env);
      done := done[name := snapshots[name]];
      if name !in listed {
        next := next[name := Retain(snapshots[name], Lookup(prev, name), env.clock(name))];
      }
    }
    assert done == snapshots;
  }

  lemma RetainNext(prev: Tracked, found: seq<Device>, done: map<string, Device>, name: string, snapshot: Device,
                   env: Env)
    requires name !in done
    ensures var before := NextTracked(prev, found, done, env);
            NextTracked(prev, found, done[name := snapshot], env) ==
              if name in Names(found) then before
                else before[name := Retain(snapshot, Lookup(prev, name), env.clock(name))]
  {
    var more := done[name := snapshot];
    var before, after := NextTracked(prev, found, done, env), NextTracked(prev, found, more, env);
    forall other | other in before.Keys && (other != name || name in Names(found))
      ensures after[other] == before[other]
    {
      SameEntry(prev, found, done, more, env, other);
    }
    SameButOne(before, after, name);
  }

  lemma SameButOne(before: Tracked, after: Tracked, name: string)
    requires after.Keys == before.Keys + {name}
    requires forall other :: other in before.Keys && other != name ==> after[other] == before[other]
    ensures after == before[name := after[name]]
  {}

  lemma SameEntry(prev: Tracked, found: seq<Device>, first: map<string, Device>, second: map<string, Device>,
                  env: Env, name: string)
    requires name in Names(found) || (name in first && name in second && first[name] == second[name])
    ensures NextTracked(prev, found, first, env)[name] == NextTracked(prev, found, second, env)[name]
  {}

  lemma AssessNext(prev: Tracked, found: seq<Device>, d: Device, env: Env)
    ensures NextTracked(prev, found + [d], map[], env) ==
            NextTracked(prev, found, map[], env)[d.name := Assess(prev, d, env)]
  {
    StoreNext(found, d);
    var more := NextTracked(prev, found + [d], map[], env);
    var old' := NextTracked(prev, found, map[], env);
    forall name | name in more ensures more[name] == old'[d.name := Assess(prev, d, env)][name] {
      assert LastNamed(found + [d], name) == if name == d.name then Some(d) else LastNamed(found, name);
    }
  }

  method AssessAll(prev: Tracked, found: seq<Device>, env: Env) returns (next: Tracked)
    ensures next == NextTracked(prev, found, map[], env)
  {
    next := map[];
    for i := 0 to |found|
      invariant next == NextTracked(prev, found[..i], map[], env)
    {
      var d := found[i];
      AssessNext(prev, found[..i], d, env);
      assert found[..i + 1] == found[..i] + [d];
      next := next[d.name := Assess(prev, d, env)];
    }
    assert found[..|found|] == found;
  }

  // ---- Snapshots of prepared claims ----

  ghost predicate ClaimedName(prepared: seq<UID>, claims: map<UID, seq<Device>>, name: string) {
    name != "" && exists uid :: uid in claims && uid in prepared && name in Names(claims[uid])
  }

  // claimedSnapshots walks a Go map, so which claim's copy of a device wins is
  // not determined; every possible outcome satisfies this.
  ghost predicate SnapshotChoice(prepared: seq<UID>, claims: map<UID, seq<Device>>, out: map<string, Device>) {
    && (forall name :: name in out <==> ClaimedName(prepared, claims, name))
    && (forall name :: name in out ==> FromClaim(prepared, claims, name, out[name]))
  }

  ghost predicate FromClaim(prepared: seq<UID>, claims: map<UID, seq<Device>>, name: string, d: Device) {
    exists uid :: uid in claims && uid in prepared && LastNamed(claims[uid], name) == Some(d)
  }

  lemma SnapshotNamed(prepared: seq<UID>, claims: map<UID, seq<Device>>, out: map<string, Device>, name: string)
    requires SnapshotChoice(prepared, claims, out) && name in out
    ensures out[name].name == name
    ensures exists uid :: uid in claims && uid in prepared && out[name] in claims[uid]
  {
    assert FromClaim(prepared, claims, name, out[name]);
    var uid :| uid in claims && uid in prepared && LastNamed(claims[uid], name) == Some(out[name]);
  }

  method ClaimedSnapshots(prepared: seq<UID>, claims: map<UID, seq<Device>>) returns (out: map<string, Device>)
    ensures SnapshotChoice(prepared, claims, out)
  {
    out := map[];
    var todo, seen := claims.Keys, map[];
    while todo != {}
      invariant todo <= claims.Keys && seen.Keys == claims.Keys - todo
      invariant forall uid :: uid in seen ==> seen[uid] == claims[uid]
      invariant SnapshotChoice(prepared, seen, out)
      decreases todo
    {
      var uid :| uid in todo;
      todo := todo - {uid};
      ghost var before := seen;
      seen := seen[uid := claims[uid]];
      if uid in prepared {
        var more := AddSnapshots(out, claims[uid]);
        AddClaim(prepared, before, uid, claims[uid], out, more);
        out := more;
      } else {
        SkipClaim(prepared, before, uid, claims[uid], out);
      }
    }
    assert seen == claims;
  }

  ghost predicate Added(out: map<string, Device>, devices: seq<Device>, r: map<string, Device>) {
    && r.Keys == out.Keys + (Names(devices) - {""})
    && (forall name :: name in r ==> Some(r[name]) == AddedValue(out, devices, name))
  }

  lemma AddClaim(prepared: seq<UID>, seen: map<UID, seq<Device>>, uid: UID, devices: seq<Device>,
                 out: map<string, Device>, more: map<string, Device>)
    requires SnapshotChoice(prepared, seen, out) && uid in prepared && uid !in seen && Added(out, devices, more)
    ensures SnapshotChoice(prepared, seen[uid := devices], more)
  {
    AddClaimNames(prepared, seen, uid, devices, out, more);
    forall name | name in more ensures FromClaim(prepared, seen[uid := devices], name, more[name]) {
      if name != "" && LastNamed(devices, name).Some? {
        StillFrom(prepared, seen, uid, devices, name, more[name]);
      } else {
        assert FromClaim(prepared, seen, name, out[name]);
        StillFrom(prepared, seen, uid, devices, name, more[name]);
      }
    }
  }

  lemma StillFrom(prepared: seq<UID>, seen: map<UID, seq<Device>>, uid: UID, devices: seq<Device>, name: string,
                  d: Device)
    requires uid !in seen
    requires FromClaim(prepared, seen, name, d) || (uid in prepared && LastNamed(devices, name) == Some(d))
    ensures FromClaim(prepared, seen[uid := devices], name, d)
  {
    var now := seen[uid := devices];
    if FromClaim(prepared, seen, name, d) {
      var u :| u in seen && u in prepared && LastNamed(seen[u], name) == Some(d);
      assert now[u] == seen[u];
    } else {
      assert now[uid] == devices;
    }
  }

  lemma AddClaimNames(prepared: seq<UID>, seen: map<UID, seq<Device>>, uid: UID, devices: seq<Device>,
                      out: map<string, Device>, more: map<string, Device>)
    requires uid in prepared && uid !in seen && more.Keys == out.Keys + (Names(devices) - {""})
    requires forall name :: name in out <==> ClaimedName(prepared, seen, name)
    ensures forall name :: name in more <==> ClaimedName(prepared, seen[uid := devices], name)
  {
    var now := seen[uid := devices];
    forall name ensures name in more <==> ClaimedName(prepared, now, name) {
      if ClaimedName(prepared, seen, name) {
        var u :| u in seen && u in prepared && name in Names(seen[u]);
        assert now[u] == seen[u];
      }
      if name != "" && name in Names(devices) { assert name in Names(now[uid]); }
    }
  }

  lemma SkipClaim(prepared: seq<UID>, seen: map<UID, seq<Device>>, uid: UID, devices: seq<Device>,
                  out: map<string, Device>)
    requires SnapshotChoice(prepared, seen, out) && uid !in prepared && uid !in seen
    ensures SnapshotChoice(prepared, seen[uid := devices], out)
  {
    var now := seen[uid := devices];
    forall name ensures ClaimedName(prepared, seen, name) <==> ClaimedName(prepared, now, name) {
      if ClaimedName(prepared, seen, name) {
        var u :| u in seen && u in prepared && name in Names(seen[u]);
        assert now[u] == seen[u];
      }
    }
    forall name | name in out ensures FromClaim(prepared, now, name, out[name]) {
      assert FromClaim(prepared, seen, name, out[name]);
      StillFrom(prepared, seen, uid, devices, name, out[name]);
    }
  }

  method AddSnapshots(out: map<string, Device>, devices: seq<Device>) returns (r: map<string, Device>)
    ensures Added(out, devices, r)
  {
    r := out;
    for i := 0 to |devices|
      invariant Added(out, devices[..i], r)
    {
      AddedNext(out, devices[..i], devices[i], r);
      assert devices[..i + 1] == devices[..i] + [devices[i]];
      if devices[i].name != "" {
        r := r[devices[i].name := devices[i]];
      }
    }
    assert devices[..|devices|] == devices;
  }

  function AddedValue(out: map<string, Device>, devices: seq<Device>, name: string): Option<Device> {
    if name != "" && LastNamed(devices, name).Some? then LastNamed(devices, name) else Lookup(out, name)
  }

  lemma AddedNext(out: map<string, Device>, devices: seq<Device>, d: Device, r: map<string, Device>)
    requires Added(out, devices, r)
    ensures Added(out, devices + [d], if d.name != "" then r[d.name := d] else r)
  {
    StoreNext(devices, d);
    var more := if d.name != "" then r[d.name := d] else r;
    assert more.Keys == out.Keys + (Names(devices) + {d.name} - {""});
    forall name | name in more ensures Some(more[name]) == AddedValue(out, devices + [d], name) {
      if name == d.name {
        assert name == "" ==> AddedValue(out, devices, name) == Lookup(out, name);
      } else {
        assert AddedValue(out, devices + [d], name) == AddedValue(out, devices, name);
      }
    }
  }

  // ---- Health comparison ----

  function HealthView(m: Tracked): map<string, (Status, string)> {
    map name | name in m :: (m[name].status, m[name].message)
  }

  /** healthEqual looks up only the names of one side; the equal sizes make that
      enough to decide equality of both maps' names, statuses and messages. */
  method HealthEqual(a: Tracked, b: Tracked) returns (same: bool)
    ensures same <==> HealthView(a) == HealthView(b)
  {
    if |a| != |b| {
      assert HealthView(a).Keys == a.Keys && HealthView(b).Keys == b.Keys;
      assert |a.Keys| == |a| && |b.Keys| == |b|;
      return false;
    }
    var todo := a.Keys;
    while todo != {}
      invariant todo <= a.Keys
      invariant forall name :: name in a.Keys - todo ==>
          name in b && a[name].status == b[name].status && a[name].message == b[name].message
      decreases todo
    {
      var name :| name in todo;
      todo := todo - {name};
      if name !in b || a[name].status != b[name].status || a[name].message != b[name].message {
        assert HealthView(a).Keys == a.Keys && HealthView(b).Keys == b.Keys;
        assert name in HealthView(a);
        assert name in b ==> HealthView(a)[name] != HealthView(b)[name];
        return false;
      }
    }
    assert a.Keys <= b.Keys && |a.Keys| == |b.Keys|;
    SubsetOfSameSize(a.Keys, b.Keys);
    return true;
  }

  lemma SubsetOfSameSize(a: set<string>, b: set<string>)
    requires a <= b && |a| == |b|
    ensures a == b
  {
    assert b == a + (b - a);
    assert |b| == |a| + |b - a|;
  }

  // ---- What every pass establishes ----

  predicate WellFormed(name: string, td: TrackedDevice) {
    && td.device.name == name
    && match td.status
       case Unset => false
       case Healthy => td.nodeSeen && td.taintedAt == 0 && td.taintValue == "" && td.message == "" && !td.retained
       case Unknown => !td.nodeSeen && td.taintedAt == 0 && td.taintValue == "" && td.message == MSG_NOT_YET_PRESENT &&
         !td.retained
       case Unhealthy =>
         && td.taintedAt != 0
         && if td.retained then td.taintValue == TAINT_NOT_DISCOVERED && td.message == MSG_NOT_DISCOVERED
            else td.taintValue == TAINT_NODE_MISSING && td.message == MSG_NODE_MISSING && td.nodeSeen
  }

  ghost predicate AllWellFormed(m: Tracked) {
    forall name :: name in m ==> WellFormed(name, m[name])
  }

  lemma EntryDevice(prev: Tracked, found: seq<Device>, snapshots: map<string, Device>, env: Env, name: string)
    requires name in Names(found) + snapshots.Keys
    ensures NextEntry(prev, found, snapshots, env, name).device ==
              match LastNamed(found, name)
              case Some(d) => d
              case None => if name in prev then prev[name].device else snapshots[name]
  {}

  lemma EntryHealth(prev: Tracked, found: seq<Device>, snapshots: map<string, Device>, env: Env, name: string)
    requires name in Names(found) + snapshots.Keys
    ensures var td := NextEntry(prev, found, snapshots, env, name);
            && (td.retained <==> name !in Names(found))
            && (!td.retained ==> td.device in found && td.device.name == name)
            && (!td.retained && env.mock ==> td.status == Healthy && td.nodeSeen)
            && (!td.retained && !env.mock ==>
                  (td.status == Healthy <==> td.device.deviceNode != "" && env.stat(td.device.deviceNode)))
  {}

  lemma AssessWellFormed(d: Device, prev: Option<TrackedDevice>, nodeOK: bool, now: Instant)
    requires prev.Some? ==> WellFormed(d.name, prev.value)
    ensures var td := AssessEnumerated(d, prev, nodeOK, now); WellFormed(d.name, td) && !td.retained
  {}

  lemma RetainWellFormed(snapshot: Device, prev: Option<TrackedDevice>, now: Instant)
    requires prev.Some? ==> WellFormed(snapshot.name, prev.value)
    ensures var td := Retain(snapshot, prev, now); WellFormed(snapshot.name, td) && td.retained
  {}

  lemma EntryWellFormed(prev: Tracked, prepared: seq<UID>, claims: map<UID, seq<Device>>, found: seq<Device>,
                        snapshots: map<string, Device>, env: Env, name: string)
    requires AllWellFormed(prev) && SnapshotChoice(prepared, claims, snapshots) && name in Names(found) + snapshots.Keys
    ensures var td := NextEntry(prev, found, snapshots, env, name);
            WellFormed(name, td) && (td.retained <==> name !in Names(found))
  {
    var listed := LastNamed(found, name);
    if listed.Some? {
      AssessWellFormed(listed.value, Lookup(prev, name), NodeExists(env.mock, env.stat, listed.value.deviceNode),
                       env.clock(name));
    } else {
      SnapshotNamed(prepared, claims, snapshots, name);
      RetainWellFormed(snapshots[name], Lookup(prev, name), env.clock(name));
    }
  }

  /** Whatever was enumerated and however stale it is, a pass keeps every entry
      well formed, retains exactly the claimed devices that were not enumerated,
      and tracks nothing else. */
  lemma NextWellFormed(prev: Tracked, prepared: seq<UID>, claims: map<UID, seq<Device>>, found: seq<Device>,
                       snapshots: map<string, Device>, env: Env)
    requires AllWellFormed(prev) && SnapshotChoice(prepared, claims, snapshots)
    ensures var next := NextTracked(prev, found, snapshots, env);
            && AllWellFormed(next)
            && (forall name :: name in next <==> name in Names(found) || ClaimedName(prepared, claims, name))
            && (forall name :: name in next ==> (next[name].retained <==> name !in Names(found)))
  {
    forall name | name in Names(found) + snapshots.Keys
      ensures var td := NextEntry(prev, found, snapshots, env, name);
              WellFormed(name, td) && (td.retained <==> name !in Names(found))
    {
      EntryWellFormed(prev, prepared, claims, found, snapshots, env, name);
    }
  }

  lemma AssessStable(d: Device, prev: Option<TrackedDevice>, nodeOK: bool, now: Instant, later: Instant)
    ensures var td := AssessEnumerated(d, prev, nodeOK, now);
            AssessEnumerated(d, Some(td), nodeOK, later) == td
  {}

  lemma RetainStable(first: Device, second: Device, prev: Option<TrackedDevice>, now: Instant, later: Instant)
    ensures var td := Retain(first, prev, now);
            Retain(second, Some(td), later) == td
  {}

  lemma SnapshotNamesAgree(prepared: seq<UID>, claims: map<UID, seq<Device>>, first: map<string, Device>,
                           second: map<string, Device>)
    requires SnapshotChoice(prepared, claims, first) && SnapshotChoice(prepared, claims, second)
    ensures first.Keys == second.Keys
  {
    forall name ensures name in first.Keys <==> name in second.Keys {
      assert name in first <==> ClaimedName(prepared, claims, name);
    }
  }

  /** A second pass over the same enumeration, node presence and files changes
      nothing, whichever snapshots and whatever clock either pass saw. */
  lemma PassIdempotent(prev: Tracked, prepared: seq<UID>, claims: map<UID, seq<Device>>, found: seq<Device>,
                       first: map<string, Device>, second: map<string, Device>, env: Env, later: string -> Instant)
    requires SnapshotChoice(prepared, claims, first) && SnapshotChoice(prepared, claims, second)
    ensures var next := NextTracked(prev, found, first, env);
            NextTracked(next, found, second, env.(clock := later)) == next
  {
    SnapshotNamesAgree(prepared, claims, first, second);
    PassStable(prev, found, first, second, env, later);
  }

  lemma PassStable(prev: Tracked, found: seq<Device>, first: map<string, Device>, second: map<string, Device>,
                   env: Env, later: string -> Instant)
    requires first.Keys == second.Keys
    ensures var next := NextTracked(prev, found, first, env);
            NextTracked(next, found, second, env.(clock := later)) == next
  {
    var next := NextTracked(prev, found, first, env);
    forall name | name in Names(found) + second.Keys
      ensures NextEntry(next, found, second, env.(clock := later), name) == next[name]
    {
      var listed := LastNamed(found, name);
      if listed.Some? {
        AssessStable(listed.value, Lookup(prev, name), NodeExists(env.mock, env.stat, listed.value.deviceNode),
                     env.clock(name), later(name));
      } else {
        RetainStable(first[name], second[name], Lookup(prev, name), env.clock(name), later(name));
      }
    }
  }
}
