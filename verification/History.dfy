/** The incremental health update against the whole history of a device: what is
    tracked after any number of passes is determined by the observations made of
    the device since it was last untracked. */
module History {
  import opened Types
  import opened Reconcile

  datatype Pass = Pass(found: seq<Device>, snapshots: map<string, Device>, env: Env)

  // What one pass saw of one device.
  datatype Observation =
    | Enumerated(device: Device, nodeOK: bool, at: Instant)
    | Claimed(snapshot: Device, at: Instant)

  function Observe(p: Pass, name: string): Option<Observation> {
    var listed := LastNamed(p.found, name);
    if listed.Some? then
      Some(Enumerated(listed.value, NodeExists(p.env.mock, p.env.stat, listed.value.deviceNode), p.env.clock(name)))
    else if name in p.snapshots then
      Some(Claimed(p.snapshots[name], p.env.clock(name)))
    else
      None
  }

  // The tracked set of a process after these passes, starting from none.
  function TrackedAfter(passes: seq<Pass>): Tracked {
    if passes == [] then map[]
    else
      var last := passes[|passes| - 1];
      NextTracked(TrackedAfter(passes[..|passes| - 1]), last.found, last.snapshots, last.env)
  }

  // The observations of the longest run of passes, ending with the last, that
  // all saw the device.
  function Observations(passes: seq<Pass>, name: string): seq<Observation> {
    if passes == [] then []
    else
      match Observe(passes[|passes| - 1], name)
      case None => []
      case Some(o) => Observations(passes[..|passes| - 1], name) + [o]
  }

  // ---- What a history says, without running it ----

  predicate HadNode(o: Observation) {
    o.Enumerated? && o.nodeOK
  }

  ghost predicate SeenBy(h: seq<Observation>, i: int) {
    exists j :: 0 <= j <= i && j < |h| && HadNode(h[j])
  }

  // The device counts as unavailable at observation i: not enumerated though
  // claimed, or enumerated without the node it once had.
  ghost predicate UnavailableAt(h: seq<Observation>, i: int)
    requires 0 <= i < |h|
  {
    h[i].Claimed? || (!HadNode(h[i]) && SeenBy(h, i))
  }

  // The unbroken stretch of unavailability that includes the last observation
  // began at k.
  ghost predicate StretchBegan(h: seq<Observation>, k: int) {
    && 0 <= k < |h|
    && (forall j :: k <= j < |h| ==> UnavailableAt(h, j))
    && (k > 0 ==> !UnavailableAt(h, k - 1))
  }

  // The device description in force: the last one enumerated, or the snapshot
  // first retained when none was.
  ghost predicate Described(h: seq<Observation>, d: Device) {
    || (exists i :: 0 <= i < |h| && h[i].Enumerated? && h[i].device == d && forall j :: i < j < |h| ==> h[j].Claimed?)
    || (h != [] && (forall j :: 0 <= j < |h| ==> h[j].Claimed?) && h[0].snapshot == d)
  }

  ghost predicate Matches(td: TrackedDevice, h: seq<Observation>)
    requires h != []
  {
    var last := |h| - 1;
    && (td.nodeSeen <==> SeenBy(h, last))
    && (td.retained <==> h[last].Claimed?)
    && (td.status == if UnavailableAt(h, last) then Unhealthy else if HadNode(h[last]) then Healthy else Unknown)
    && (td.message == if !UnavailableAt(h, last) then (if HadNode(h[last]) then "" else MSG_NOT_YET_PRESENT)
                      else if h[last].Claimed? then MSG_NOT_DISCOVERED else MSG_NODE_MISSING)
    && (td.taintValue == if !UnavailableAt(h, last) then ""
                         else if h[last].Claimed? then TAINT_NOT_DISCOVERED
                         else TAINT_NODE_MISSING)
    && (if UnavailableAt(h, last) then exists k :: StretchBegan(h, k) && td.taintedAt == h[k].at else td.taintedAt == 0)
    && Described(h, td.device)
  }

  /** Matches leaves nothing open: a history admits one tracked entry. */
  lemma MatchesUnique(a: TrackedDevice, b: TrackedDevice, h: seq<Observation>)
    requires h != [] && Matches(a, h) && Matches(b, h)
    ensures a == b
  {
    if UnavailableAt(h, |h| - 1) {
      var k :| StretchBegan(h, k) && a.taintedAt == h[k].at;
      var m :| StretchBegan(h, m) && b.taintedAt == h[m].at;
    }
    DescribedUnique(h, a.device, b.device);
  }

  lemma DescribedUnique(h: seq<Observation>, a: Device, b: Device)
    requires Described(h, a) && Described(h, b)
    ensures a == b
  {
    if i, j :| 0 <= i < |h| && h[i].Enumerated? && h[i].device == a && (forall n :: i < n < |h| ==> h[n].Claimed?)
               && 0 <= j < |h| && h[j].Enumerated? && h[j].device == b && (forall n :: j < n < |h| ==> h[n].Claimed?) {
      assert i == j;
    }
  }

  function Update(prev: Option<TrackedDevice>, o: Observation): TrackedDevice {
    match o
    case Enumerated(d, nodeOK, at) => AssessEnumerated(d, prev, nodeOK, at)
    case Claimed(snapshot, at) => Retain(snapshot, prev, at)
  }

  lemma PrefixFacts(h: seq<Observation>, o: Observation)
    ensures forall i :: 0 <= i < |h| ==> (SeenBy(h + [o], i) <==> SeenBy(h, i))
    ensures forall i :: 0 <= i < |h| ==> (UnavailableAt(h + [o], i) <==> UnavailableAt(h, i))
    ensures SeenBy(h + [o], |h|) <==> SeenBy(h, |h| - 1) || HadNode(o)
  {
    var g := h + [o];
    forall i | 0 <= i < |h| ensures SeenBy(g, i) <==> SeenBy(h, i) {
      if SeenBy(g, i) {
        var j :| 0 <= j <= i && j < |g| && HadNode(g[j]);
        assert HadNode(h[j]);
      }
      if SeenBy(h, i) {
        var j :| 0 <= j <= i && j < |h| && HadNode(h[j]);
        assert HadNode(g[j]);
      }
    }
    if SeenBy(g, |h|) && !HadNode(o) {
      var j :| 0 <= j <= |h| && j < |g| && HadNode(g[j]);
      assert HadNode(h[j]);
    }
    if SeenBy(h, |h| - 1) {
      var j :| 0 <= j <= |h| - 1 && j < |h| && HadNode(h[j]);
      assert HadNode(g[j]);
    }
    assert g[|h|] == o;
  }

  lemma DescribedNext(h: seq<Observation>, o: Observation, d: Device)
    requires h == [] || Described(h, d)
    ensures o.Enumerated? ==> Described(h + [o], o.device)
    ensures o.Claimed? ==> Described(h + [o], if h == [] then o.snapshot else d)
  {
    var g := h + [o];
    assert g[|h|] == o;
    if o.Claimed? && h != [] {
      if i :| 0 <= i < |h| && h[i].Enumerated? && h[i].device == d && forall j :: i < j < |h| ==> h[j].Claimed? {
        assert g[i] == h[i];
      }
    }
  }

  lemma StretchNext(h: seq<Observation>, o: Observation, k: int)
    requires UnavailableAt(h + [o], |h|)
    ensures h == [] || !UnavailableAt(h, |h| - 1) ==> StretchBegan(h + [o], |h|)
    ensures StretchBegan(h, k) ==> StretchBegan(h + [o], k)
  {
    PrefixFacts(h, o);
    var g := h + [o];
    if StretchBegan(h, k) {
      forall j | k <= j < |g| ensures UnavailableAt(g, j) {
        if j < |h| { assert UnavailableAt(h, j); }
      }
    }
  }

  lemma UpdateMatches(prev: Option<TrackedDevice>, h: seq<Observation>, o: Observation)
    requires prev.Some? <==> h != []
    requires prev.Some? ==> Matches(prev.value, h)
    ensures Matches(Update(prev, o), h + [o])
  {
    var g, td := h + [o], Update(prev, o);
    PrefixFacts(h, o);
    assert g[|h|] == o && !SeenBy([], -1);
    DescribedNext(h, o, if prev.Some? then prev.value.device else td.device);
    if UnavailableAt(g, |h|) {
      if h != [] && UnavailableAt(h, |h| - 1) {
        var k :| StretchBegan(h, k) && prev.value.taintedAt == h[k].at;
        StretchNext(h, o, k);
        assert g[k].at == h[k].at;
      } else {
        StretchNext(h, o, 0);
        assert td.taintedAt == g[|h|].at;
      }
    }
  }

  /** Whatever passes a process has run, a device is tracked exactly when the last
      pass saw it, and its entry is the one its observations since it was last
      untracked determine. */
  lemma {:induction false} HistoryDeterminesTracked(passes: seq<Pass>, name: string)
    ensures var h := Observations(passes, name);
            && (name in TrackedAfter(passes) <==> h != [])
            && (h != [] ==> Matches(TrackedAfter(passes)[name], h))
  {
    if passes != [] {
      var before, last := passes[..|passes| - 1], passes[|passes| - 1];
      HistoryDeterminesTracked(before, name);
      var prev := TrackedAfter(before);
      match Observe(last, name)
      case None =>
      case Some(o) =>
        assert TrackedAfter(passes)[name] == NextEntry(prev, last.found, last.snapshots, last.env, name) ==
               Update(Lookup(prev, name), o);
        UpdateMatches(Lookup(prev, name), Observations(before, name), o);
    }
  }

  /** Which devices are in good health after a pass: in mock mode every one the pass
      listed, whatever is on the host; otherwise those whose node the pass found. */
  lemma {:induction false} LastPassDecides(passes: seq<Pass>, name: string)
    requires passes != [] && name in TrackedAfter(passes)
    ensures var last, td := passes[|passes| - 1], TrackedAfter(passes)[name];
            && (td.retained <==> name !in Names(last.found))
            && (!td.retained ==> td.device in last.found && td.device.name == name)
            && (!td.retained && last.env.mock ==> td.status == Healthy && td.nodeSeen)
            && (!td.retained && !last.env.mock ==>
                  (td.status == Healthy <==> td.device.deviceNode != "" && last.env.stat(td.device.deviceNode)))
  {
    var prev, last := TrackedAfter(passes[..|passes| - 1]), passes[|passes| - 1];
    assert TrackedAfter(passes)[name] == NextEntry(prev, last.found, last.snapshots, last.env, name);
    EntryHealth(prev, last.found, last.snapshots, last.env, name);
  }

  /** Once its node has been seen, a device that stays tracked is never Unknown again. */
  lemma {:induction false} SeenNeverUnknown(passes: seq<Pass>, name: string, i: nat)
    requires name in TrackedAfter(passes) && i < |Observations(passes, name)|
    requires HadNode(Observations(passes, name)[i])
    ensures TrackedAfter(passes)[name].nodeSeen && TrackedAfter(passes)[name].status != Unknown
  {
    HistoryDeterminesTracked(passes, name);
    var h := Observations(passes, name);
    assert SeenBy(h, |h| - 1);
  }

  /** While a device stays unavailable its taint keeps the time of the pass that
      first found it so, even when the reason switches. */
  lemma TaintTimeOfFirstPass(passes: seq<Pass>, name: string, k: nat)
    requires name in TrackedAfter(passes) && StretchBegan(Observations(passes, name), k)
    ensures TrackedAfter(passes)[name].taintedAt == Observations(passes, name)[k].at
  {
    HistoryDeterminesTracked(passes, name);
    var h := Observations(passes, name);
    assert UnavailableAt(h, |h| - 1);
    var m :| StretchBegan(h, m) && TrackedAfter(passes)[name].taintedAt == h[m].at;
  }
}
