/** Enumeration: which video4linux nodes become which device, how devices are
    numbered, and what every enumeration satisfies. Reading sysfs is left to the
    caller, who passes what was read. */
module Discovery {
  import opened Types
  import opened Sorting
  import opened Naming

  const KMD_RKVDEC: string := "rkvdec"
  const KMD_HANTRO: string := "hantro-vpu"
  const KMD_RGA: string := "rockchip-rga"
  const KMD_ROCKET: string := "rocket"
  const KMD_PANTHOR: string := "panthor"
  const DEFAULT_GPU_MAX_ALLOCATIONS: int := 8
  const DEFAULT_VPU_MAX_ALLOCATIONS: int := 1
  const DEFAULT_RGA_MAX_ALLOCATIONS: int := 1

  datatype Config = Config(
    mock: bool,
    npuEnabled: bool, gpuEnabled: bool, vpuEnabled: bool, rgaEnabled: bool,
    npuMax: int, gpuMax: int, vpuMax: int, rgaMax: int)

  datatype V4lNode = V4lNode(index: nat, driver: string, cardName: string, compatible: string, deviceNode: string)

  // What one look at sysfs and /dev yields. A render node of "" means none is
  // bound to panthor; gid is the group of a device node, when stat gives one.
  datatype Sysfs = Sysfs(
    soc: string,
    rocketCores: nat,
    accelNode: string,
    renderNode: string,
    nodes: seq<V4lNode>,
    gid: string -> Option<int>)

  // ---- Classification ----

  // strings.ToLower as far as the ASCII patterns below can see it.
  function ToLower(s: string): string {
    seq(|s|, i requires 0 <= i < |s| => if 'A' <= s[i] <= 'Z' then s[i] - 'A' + 'a' else s[i])
  }

  predicate Contains(s: string, sub: string) {
    exists i :: 0 <= i <= |s| && sub <= s[i..]
  }

  function ClassifyVPU(n: V4lNode): Option<(Block, string)> {
    var compat, card := ToLower(n.compatible), ToLower(n.cardName);
    if n.driver == KMD_RKVDEC then Some((Rkvdec, "decode"))
    else if n.driver == KMD_HANTRO then
      if Contains(compat, "av1") || Contains(card, "av1") then Some((HantroAV1, "decode"))
      else if Contains(compat, "vepu") || Contains(card, "vepu") then Some((HantroEnc, "encode"))
      else if Contains(compat, "vpu121") || Contains(card, "vpu-dec") then Some((HantroDec, "decode"))
      else None
    else None
  }

  // A node together with the series it is numbered in.
  datatype Match = Match(node: V4lNode, series: Stem, purpose: string)

  function MatchVPU(n: V4lNode): Option<Match> {
    match ClassifyVPU(n)
    case Some(c) => Some(Match(n, VPU(c.0), c.1))
    case None => None
  }

  function MatchRGA(n: V4lNode): Option<Match> {
    if n.driver == KMD_RGA then Some(Match(n, RGA, "")) else None
  }

  /** No node becomes both a VPU and an RGA device. */
  lemma VpuRgaDisjoint(n: V4lNode)
    ensures MatchVPU(n).None? || MatchRGA(n).None?
  {}

  // The matches of a listing, in listing order.
  function Matches(nodes: seq<V4lNode>, classify: V4lNode -> Option<Match>): seq<Match> {
    if nodes == [] then []
    else
      var rest := Matches(nodes[..|nodes| - 1], classify);
      match classify(nodes[|nodes| - 1])
      case Some(m) => rest + [m]
      case None => rest
  }

  method CollectMatches(nodes: seq<V4lNode>, classify: V4lNode -> Option<Match>) returns (matches: seq<Match>)
    ensures matches == Matches(nodes, classify)
  {
    matches := [];
    for i := 0 to |nodes|
      invariant matches == Matches(nodes[..i], classify)
    {
      assert nodes[..i + 1][..i] == nodes[..i];
      var m := classify(nodes[i]);
      if m.Some? {
        matches := matches + [m.value];
      }
    }
    assert nodes[..|nodes|] == nodes;
  }

  // ---- Numbering ----

  function SeriesKey(s: Stem): string {
    if s.VPU? then BlockName(s.block) else ""
  }

  // The order of both discoverers: by block, then by index; RGA nodes share one
  // series, which leaves the index.
  predicate MatchLess(a: Match, b: Match) {
    if a.series != b.series then StringLess(SeriesKey(a.series), SeriesKey(b.series)) else a.node.index < b.node.index
  }

  function InSeries(s: Stem): Match -> bool {
    (m: Match) => m.series == s
  }

  // The number given to the i-th entry of a sorted list.
  function NumberAt(sorted: seq<Match>, i: nat): nat
    requires i < |sorted|
  {
    Count(sorted[..i], InSeries(sorted[i].series))
  }

  function MatchDevice(m: Match, number: nat, soc: string, gid: string -> Option<int>, maxAlloc: int): Device {
    Device(DeviceName(m.series, number), if m.series.VPU? then "vpu" else "rga", soc, "rockchip",
           m.node.compatible, m.node.driver, 0, 0, m.node.deviceNode, maxAlloc,
           m.purpose, SeriesKey(m.series), gid(m.node.deviceNode))
  }

  function Maker(soc: string, gid: string -> Option<int>, maxAlloc: int): (Match, nat) -> Device {
    (m: Match, number: nat) => MatchDevice(m, number, soc, gid, maxAlloc)
  }

  function NumberedDevices(sorted: seq<Match>, make: (Match, nat) -> Device): seq<Device> {
    seq(|sorted|, i requires 0 <= i < |sorted| => make(sorted[i], NumberAt(sorted, i)))
  }

  function DevicesOf(nodes: seq<V4lNode>, classify: V4lNode -> Option<Match>,
                     make: (Match, nat) -> Device): seq<Device> {
    NumberedDevices(Sort(Matches(nodes, classify), MatchLess), make)
  }

  function Cap(configured: int, default: int): int {
    if configured <= 0 then default else configured
  }

  function VpuDevices(cfg: Config, sys: Sysfs): seq<Device> {
    DevicesOf(sys.nodes, MatchVPU, Maker(sys.soc, sys.gid, Cap(cfg.vpuMax, DEFAULT_VPU_MAX_ALLOCATIONS)))
  }

  function RgaDevices(cfg: Config, sys: Sysfs): seq<Device> {
    DevicesOf(sys.nodes, MatchRGA, Maker(sys.soc, sys.gid, Cap(cfg.rgaMax, DEFAULT_RGA_MAX_ALLOCATIONS)))
  }

  lemma CountNext(s: seq<Match>, i: nat, p: Match -> bool)
    requires i < |s|
    ensures Count(s[..i + 1], p) == Count(s[..i], p) + (if p(s[i]) then 1 else 0)
  {
    assert s[..i + 1][..i] == s[..i];
  }

  /** discoverVPU: classify, sort, and number with one running counter per block. */
  method DiscoverVPU(cfg: Config, sys: Sysfs) returns (devices: seq<Device>)
    ensures devices == VpuDevices(cfg, sys)
  {
    var matches := CollectMatches(sys.nodes, MatchVPU);
    var maxAlloc := cfg.vpuMax;
    if maxAlloc <= 0 {
      maxAlloc := DEFAULT_VPU_MAX_ALLOCATIONS;
    }
    devices := NumberByCounters(Sort(matches, MatchLess), Maker(sys.soc, sys.gid, maxAlloc));
  }

  method NumberByCounters(sorted: seq<Match>, make: (Match, nat) -> Device) returns (devices: seq<Device>)
    ensures devices == NumberedDevices(sorted, make)
  {
    var counts: map<Stem, nat> := map[];
    devices := [];
    for i := 0 to |sorted|
      invariant |devices| == i
      invariant forall j :: 0 <= j < i ==> devices[j] == NumberedDevices(sorted, make)[j]
      invariant forall s :: (if s in counts then counts[s] else 0) == Count(sorted[..i], InSeries(s))
    {
      var m := sorted[i];
      var n := if m.series in counts then counts[m.series] else 0;
      assert n == NumberAt(sorted, i);
      counts := counts[m.series := n + 1];
      forall s ensures (if s in counts then counts[s] else 0) == Count(sorted[..i + 1], InSeries(s)) {
        CountNext(sorted, i, InSeries(s));
      }
      devices := devices + [make(m, n)];
    }
  }

  /** discoverRGA: filter, sort by index, number by position. */
  method DiscoverRGA(cfg: Config, sys: Sysfs) returns (devices: seq<Device>)
    ensures devices == RgaDevices(cfg, sys)
  {
    var matches := CollectMatches(sys.nodes, MatchRGA);
    MatchesAreRGA(sys.nodes);
    var sorted := Sort(matches, MatchLess);
    SameElements(matches, sorted);
    var maxAlloc := cfg.rgaMax;
    if maxAlloc <= 0 {
      maxAlloc := DEFAULT_RGA_MAX_ALLOCATIONS;
    }
    devices := NumberByPosition(sorted, Maker(sys.soc, sys.gid, maxAlloc));
  }

  method NumberByPosition(sorted: seq<Match>, make: (Match, nat) -> Device) returns (devices: seq<Device>)
    requires forall m :: m in sorted ==> m.series == RGA
    ensures devices == NumberedDevices(sorted, make)
  {
    devices := [];
    for i := 0 to |sorted|
      invariant |devices| == i
      invariant forall j :: 0 <= j < i ==> devices[j] == NumberedDevices(sorted, make)[j]
    {
      OneSeries(sorted, i);
      devices := devices + [make(sorted[i], i)];
    }
  }

  lemma {:induction false} MatchesAreRGA(nodes: seq<V4lNode>)
    ensures forall m :: m in Matches(nodes, MatchRGA) ==> m.series == RGA
  {
    if nodes != [] { MatchesAreRGA(nodes[..|nodes| - 1]); }
  }

  // With one series the running count is the position.
  lemma OneSeries(sorted: seq<Match>, i: nat)
    requires i < |sorted| && forall m :: m in sorted ==> m.series == RGA
    ensures NumberAt(sorted, i) == i
  {
    forall x | x in sorted[..i] ensures InSeries(sorted[i].series)(x) {
      assert x in sorted && sorted[i] in sorted;
    }
    CountEvery(sorted[..i], InSeries(sorted[i].series));
  }

  // ---- Rank ----

  ghost predicate DistinctIndexes(nodes: seq<V4lNode>) {
    forall i, j :: 0 <= i < j < |nodes| ==> nodes[i].index != nodes[j].index
  }

  function SmallerInSeries(m: Match): Match -> bool {
    (x: Match) => x.series == m.series && x.node.index < m.node.index
  }

  // How many matches of the same series have a smaller index, in whatever order
  // they are listed.
  function Rank(matches: seq<Match>, m: Match): nat {
    Count(matches, SmallerInSeries(m))
  }

  ghost predicate Faithful(classify: V4lNode -> Option<Match>) {
    forall n :: classify(n).Some? ==> classify(n).value.node == n
  }

  lemma SeriesKeyInjective(s: Stem, t: Stem)
    requires (s.VPU? || s.RGA?) && (t.VPU? || t.RGA?) && s != t
    ensures SeriesKey(s) != SeriesKey(t)
  {
    match s {
      case VPU(HantroDec) => assert BlockName(HantroDec)[7] == 'd';
      case VPU(HantroEnc) => assert BlockName(HantroEnc)[7] == 'e';
      case VPU(HantroAV1) => assert BlockName(HantroAV1)[7] == 'a';
      case _ =>
    }
  }

  lemma MatchLessStrict()
    ensures StrictOrder(MatchLess)
  {
    forall a: Match, b: Match ensures !(MatchLess(a, b) && MatchLess(b, a)) {
      StringLessAsymmetric(SeriesKey(a.series), SeriesKey(b.series));
    }
    forall a, b, c | MatchLess(a, b) && MatchLess(b, c) ensures MatchLess(a, c) {
      if a.series != b.series && b.series != c.series {
        StringLessTransitive(SeriesKey(a.series), SeriesKey(b.series), SeriesKey(c.series));
        StringLessAsymmetric(SeriesKey(a.series), SeriesKey(b.series));
      }
    }
  }

  ghost predicate Numbered(m: Match) {
    m.series.VPU? || m.series.RGA?
  }

  ghost predicate Classifier(classify: V4lNode -> Option<Match>) {
    Faithful(classify) && forall n :: classify(n).Some? ==> Numbered(classify(n).value)
  }

  lemma {:induction false} MatchesOf(nodes: seq<V4lNode>, classify: V4lNode -> Option<Match>)
    requires Faithful(classify)
    ensures forall m :: m in Matches(nodes, classify) <==> m.node in nodes && classify(m.node) == Some(m)
    ensures DistinctIndexes(nodes) ==> forall i, j :: 0 <= i < j < |Matches(nodes, classify)| ==>
              Matches(nodes, classify)[i].node.index != Matches(nodes, classify)[j].node.index
  {
    if nodes != [] {
      var rest, last := nodes[..|nodes| - 1], nodes[|nodes| - 1];
      assert nodes == rest + [last];
      MatchesOf(rest, classify);
      if DistinctIndexes(nodes) {
        forall i | 0 <= i < |Matches(rest, classify)| ensures Matches(rest, classify)[i].node.index != last.index {
          assert Matches(rest, classify)[i] in Matches(rest, classify);
        }
      }
    }
  }

  lemma DistinctNoTies(matches: seq<Match>)
    requires forall i, j :: 0 <= i < j < |matches| ==> matches[i].node.index != matches[j].node.index
    requires forall m :: m in matches ==> Numbered(m)
    ensures NoTies(matches, MatchLess)
  {
    forall i, j | 0 <= i < j < |matches|
      ensures MatchLess(matches[i], matches[j]) || MatchLess(matches[j], matches[i])
    {
      assert matches[i] in matches && matches[j] in matches;
      if matches[i].series != matches[j].series {
        SeriesKeyInjective(matches[i].series, matches[j].series);
        StringLessConnected(SeriesKey(matches[i].series), SeriesKey(matches[j].series));
      }
    }
  }

  lemma SortedRank(sorted: seq<Match>, i: nat)
    requires StrictlySorted(sorted, MatchLess) && i < |sorted|
    ensures NumberAt(sorted, i) == Rank(sorted, sorted[i])
  {
    var m := sorted[i];
    forall j | 0 <= j < i ensures InSeries(m.series)(sorted[j]) == SmallerInSeries(m)(sorted[j]) {
      assert MatchLess(sorted[j], m);
    }
    forall j | i <= j < |sorted| ensures !SmallerInSeries(m)(sorted[j]) {
      if j > i { assert MatchLess(m, sorted[j]); }
    }
    CountSplit(sorted, i, InSeries(m.series), SmallerInSeries(m));
  }

  // What a discoverer makes of a listing: one device per match, numbered by rank.
  ghost predicate RankedDevices(devices: seq<Device>, nodes: seq<V4lNode>, classify: V4lNode -> Option<Match>) {
    var sorted := Sort(Matches(nodes, classify), MatchLess);
    && |devices| == |sorted|
    && (forall i :: 0 <= i < |sorted| ==>
          && devices[i].deviceNode == sorted[i].node.deviceNode
          && devices[i].name == DeviceName(sorted[i].series, Rank(Matches(nodes, classify), sorted[i])))
    && (forall m :: m in sorted <==> m.node in nodes && classify(m.node) == Some(m))
    && StrictlySorted(sorted, MatchLess)
  }

  lemma RanksAreNumbers(nodes: seq<V4lNode>, classify: V4lNode -> Option<Match>)
    requires DistinctIndexes(nodes) && Classifier(classify)
    ensures var matches := Matches(nodes, classify);
            var sorted := Sort(matches, MatchLess);
            && StrictlySorted(sorted, MatchLess)
            && (forall i :: 0 <= i < |sorted| ==> NumberAt(sorted, i) == Rank(matches, sorted[i]))
  {
    var matches := Matches(nodes, classify);
    var sorted := Sort(matches, MatchLess);
    MatchesOf(nodes, classify);
    DistinctNoTies(matches);
    MatchLessStrict();
    SortStrict(matches, MatchLess);
    forall i | 0 <= i < |sorted| ensures NumberAt(sorted, i) == Rank(matches, sorted[i]) {
      SortedRank(sorted, i);
      CountPermutation(sorted, matches, SmallerInSeries(sorted[i]));
    }
  }

  lemma SortedMatches(nodes: seq<V4lNode>, classify: V4lNode -> Option<Match>)
    requires Faithful(classify)
    ensures forall m ::
              m in Sort(Matches(nodes, classify), MatchLess) <==> m.node in nodes && classify(m.node) == Some(m)
  {
    MatchesOf(nodes, classify);
    SameElements(Matches(nodes, classify), Sort(Matches(nodes, classify), MatchLess));
  }

  lemma DeviceAt(sorted: seq<Match>, sys: Sysfs, maxAlloc: int, i: nat)
    requires i < |sorted|
    ensures var devices := NumberedDevices(sorted, Maker(sys.soc, sys.gid, maxAlloc));
            && i < |devices| && devices[i].deviceNode == sorted[i].node.deviceNode
            && devices[i].name == DeviceName(sorted[i].series, NumberAt(sorted, i))
  {
    assert NumberedDevices(sorted, Maker(sys.soc, sys.gid, maxAlloc))[i] ==
           MatchDevice(sorted[i], NumberAt(sorted, i), sys.soc, sys.gid, maxAlloc);
  }

  lemma DevicesRanked(sys: Sysfs, maxAlloc: int, classify: V4lNode -> Option<Match>)
    requires DistinctIndexes(sys.nodes) && Classifier(classify)
    ensures RankedDevices(DevicesOf(sys.nodes, classify, Maker(sys.soc, sys.gid, maxAlloc)), sys.nodes, classify)
  {
    var matches := Matches(sys.nodes, classify);
    var devices := DevicesOf(sys.nodes, classify, Maker(sys.soc, sys.gid, maxAlloc));
    var sorted := Sort(matches, MatchLess);
    RanksAreNumbers(sys.nodes, classify);
    forall i | 0 <= i < |sorted|
      ensures devices[i].deviceNode == sorted[i].node.deviceNode
      ensures devices[i].name == DeviceName(sorted[i].series, Rank(matches, sorted[i]))
    {
      DeviceAt(sorted, sys, maxAlloc, i);
    }
    SortedMatches(sys.nodes, classify);
  }

  /** Given distinct video indexes, a VPU's number is its rank by index among all
      nodes of its block, an RGA's its rank among the RGA nodes, and every matching
      node becomes exactly one device. */
  lemma RankNaming(cfg: Config, sys: Sysfs)
    requires DistinctIndexes(sys.nodes)
    ensures RankedDevices(VpuDevices(cfg, sys), sys.nodes, MatchVPU)
    ensures RankedDevices(RgaDevices(cfg, sys), sys.nodes, MatchRGA)
  {
    DevicesRanked(sys, Cap(cfg.vpuMax, DEFAULT_VPU_MAX_ALLOCATIONS), MatchVPU);
    DevicesRanked(sys, Cap(cfg.rgaMax, DEFAULT_RGA_MAX_ALLOCATIONS), MatchRGA);
  }

  lemma SameOrder(sys: Sysfs, relisted: seq<V4lNode>, classify: V4lNode -> Option<Match>)
    requires DistinctIndexes(sys.nodes) && DistinctIndexes(relisted)
    requires forall n :: n in relisted <==> n in sys.nodes
    requires Classifier(classify)
    ensures Sort(Matches(sys.nodes, classify), MatchLess) == Sort(Matches(relisted, classify), MatchLess)
  {
    MatchLessStrict();
    DevicesRanked(sys, 1, classify);
    DevicesRanked(sys.(nodes := relisted), 1, classify);
    StrictlySortedUnique(Sort(Matches(sys.nodes, classify), MatchLess), Sort(Matches(relisted, classify), MatchLess),
                         MatchLess);
  }

  /** The order of the directory listing does not matter. */
  lemma ListingOrderIrrelevant(cfg: Config, sys: Sysfs, relisted: seq<V4lNode>)
    requires DistinctIndexes(sys.nodes) && DistinctIndexes(relisted)
    requires forall n :: n in relisted <==> n in sys.nodes
    ensures VpuDevices(cfg, sys) == VpuDevices(cfg, sys.(nodes := relisted))
    ensures RgaDevices(cfg, sys) == RgaDevices(cfg, sys.(nodes := relisted))
  {
    SameOrder(sys, relisted, MatchVPU);
    SameOrder(sys, relisted, MatchRGA);
  }

  // ---- Other nodes coming and going ----

  lemma PlaceOf(nodes: seq<V4lNode>, classify: V4lNode -> Option<Match>, m: Match) returns (i: nat)
    requires DistinctIndexes(nodes) && Classifier(classify) && m in Matches(nodes, classify)
    ensures var sorted := Sort(Matches(nodes, classify), MatchLess);
            i < |sorted| && sorted[i] == m && NumberAt(sorted, i) == Rank(Matches(nodes, classify), m)
  {
    var sorted := Sort(Matches(nodes, classify), MatchLess);
    assert m in sorted by { SameElements(Matches(nodes, classify), sorted); }
    i :| i < |sorted| && sorted[i] == m;
    RanksAreNumbers(nodes, classify);
  }

  lemma NumberedAt(sorted: seq<Match>, make: (Match, nat) -> Device, i: nat)
    requires i < |sorted|
    ensures make(sorted[i], NumberAt(sorted, i)) in NumberedDevices(sorted, make)
  {
    assert NumberedDevices(sorted, make)[i] == make(sorted[i], NumberAt(sorted, i));
  }

  // Every match has its device, under its rank as number ...
  lemma MatchGiven(nodes: seq<V4lNode>, classify: V4lNode -> Option<Match>, make: (Match, nat) -> Device, m: Match,
                   number: nat)
    requires DistinctIndexes(nodes) && Classifier(classify) && m in Matches(nodes, classify)
    requires number == Rank(Matches(nodes, classify), m)
    ensures make(m, number) in DevicesOf(nodes, classify, make)
  {
    var i := PlaceOf(nodes, classify, m);
    NumberedAt(Sort(Matches(nodes, classify), MatchLess), make, i);
  }

  // ... and every device is that of some match.
  lemma DeviceGiven(nodes: seq<V4lNode>, classify: V4lNode -> Option<Match>, make: (Match, nat) -> Device, d: Device)
    returns (m: Match)
    requires DistinctIndexes(nodes) && Classifier(classify) && d in DevicesOf(nodes, classify, make)
    ensures m in Matches(nodes, classify) && d == make(m, Rank(Matches(nodes, classify), m))
  {
    var matches := Matches(nodes, classify);
    var sorted, devices := Sort(matches, MatchLess), DevicesOf(nodes, classify, make);
    RanksAreNumbers(nodes, classify);
    SameElements(matches, sorted);
    var i :| 0 <= i < |devices| && devices[i] == d;
    m := sorted[i];
    assert m in sorted;
  }

  lemma MatchesDistinct(nodes: seq<V4lNode>, classify: V4lNode -> Option<Match>)
    requires DistinctIndexes(nodes) && Faithful(classify)
    ensures Distinct(Matches(nodes, classify))
    ensures forall m :: m in Matches(nodes, classify) <==> m.node in nodes && classify(m.node) == Some(m)
  {
    MatchesOf(nodes, classify);
  }

  lemma RankIsSize(nodes: seq<V4lNode>, classify: V4lNode -> Option<Match>, m: Match)
    requires DistinctIndexes(nodes) && Faithful(classify)
    ensures Rank(Matches(nodes, classify), m) == |Chosen(Matches(nodes, classify), SmallerInSeries(m))|
  {
    MatchesDistinct(nodes, classify);
    CountElements(Matches(nodes, classify), SmallerInSeries(m));
  }

  ghost predicate SameInSeries(nodes: seq<V4lNode>, others: seq<V4lNode>, classify: V4lNode -> Option<Match>,
                               series: Stem) {
    forall n :: classify(n).Some? && classify(n).value.series == series ==> (n in nodes <==> n in others)
  }

  lemma SameRank(nodes: seq<V4lNode>, others: seq<V4lNode>, classify: V4lNode -> Option<Match>, m: Match)
    requires DistinctIndexes(nodes) && DistinctIndexes(others) && Faithful(classify)
    requires SameInSeries(nodes, others, classify, m.series)
    ensures Rank(Matches(nodes, classify), m) == Rank(Matches(others, classify), m)
  {
    MatchesOf(nodes, classify);
    MatchesOf(others, classify);
    RankIsSize(nodes, classify, m);
    RankIsSize(others, classify, m);
    assert Chosen(Matches(nodes, classify), SmallerInSeries(m)) ==
           Chosen(Matches(others, classify), SmallerInSeries(m));
  }

  /** A block's devices, names and all, depend on the nodes of that block alone. */
  lemma OtherBlocksIrrelevant(cfg: Config, sys: Sysfs, others: seq<V4lNode>, block: Block, d: Device)
    requires DistinctIndexes(sys.nodes) && DistinctIndexes(others)
    requires SameInSeries(sys.nodes, others, MatchVPU, VPU(block)) && d.block == BlockName(block)
    ensures d in VpuDevices(cfg, sys) <==> d in VpuDevices(cfg, sys.(nodes := others))
  {
    var make := Maker(sys.soc, sys.gid, Cap(cfg.vpuMax, DEFAULT_VPU_MAX_ALLOCATIONS));
    if d in DevicesOf(sys.nodes, MatchVPU, make) {
      BlockKept(sys.nodes, others, make, block, d);
    }
    if d in DevicesOf(others, MatchVPU, make) {
      BlockKept(others, sys.nodes, make, block, d);
    }
  }

  ghost predicate ShowsBlock(make: (Match, nat) -> Device) {
    forall m, number :: make(m, number).block == SeriesKey(m.series)
  }

  lemma BlockKept(nodes: seq<V4lNode>, others: seq<V4lNode>, make: (Match, nat) -> Device, block: Block, d: Device)
    requires DistinctIndexes(nodes) && DistinctIndexes(others) && ShowsBlock(make)
    requires SameInSeries(nodes, others, MatchVPU, VPU(block)) && d.block == BlockName(block)
    requires d in DevicesOf(nodes, MatchVPU, make)
    ensures d in DevicesOf(others, MatchVPU, make)
  {
    var m := DeviceGiven(nodes, MatchVPU, make, d);
    InBlock(nodes, others, m, block);
    SameRank(nodes, others, MatchVPU, m);
    MatchGiven(others, MatchVPU, make, m, Rank(Matches(nodes, MatchVPU), m));
  }

  lemma InBlock(nodes: seq<V4lNode>, others: seq<V4lNode>, m: Match, block: Block)
    requires m in Matches(nodes, MatchVPU) && SeriesKey(m.series) == BlockName(block)
    requires SameInSeries(nodes, others, MatchVPU, VPU(block))
    ensures m.series == VPU(block) && m in Matches(others, MatchVPU)
  {
    MatchesOf(nodes, MatchVPU);
    MatchesOf(others, MatchVPU);
    if m.series != VPU(block) {
      SeriesKeyInjective(m.series, VPU(block));
    }
  }

  ghost predicate AllBut(rest: seq<V4lNode>, nodes: seq<V4lNode>, gone: V4lNode) {
    gone in nodes && forall n :: n in rest <==> n in nodes && n != gone
  }

  lemma RankGone(nodes: seq<V4lNode>, rest: seq<V4lNode>, gone: V4lNode, classify: V4lNode -> Option<Match>, m: Match)
    requires DistinctIndexes(nodes) && DistinctIndexes(rest) && Faithful(classify)
    requires AllBut(rest, nodes, gone) && classify(gone).Some?
    ensures Rank(Matches(nodes, classify), m) ==
            Rank(Matches(rest, classify), m) + if SmallerInSeries(m)(classify(gone).value) then 1 else 0
  {
    var lost := classify(gone).value;
    MatchesDistinct(nodes, classify);
    MatchesDistinct(rest, classify);
    forall x ensures x in Matches(nodes, classify) <==> x in Matches(rest, classify) || x == lost {
      assert x.node in rest <==> x.node in nodes && x.node != gone;
    }
    assert lost !in Matches(rest, classify);
    CountWithout(Matches(nodes, classify), Matches(rest, classify), lost, SmallerInSeries(m));
  }

  /** When a node disappears the nodes below it in its series keep their numbers, those
      above it move down by one, and other series are left alone. */
  lemma NodeGone(nodes: seq<V4lNode>, rest: seq<V4lNode>, gone: V4lNode, classify: V4lNode -> Option<Match>,
                 make: (Match, nat) -> Device, m: Match, number: nat)
    requires DistinctIndexes(nodes) && DistinctIndexes(rest) && Classifier(classify)
    requires AllBut(rest, nodes, gone) && classify(gone).Some?
    requires m in Matches(nodes, classify) && m.node != gone && number == Rank(Matches(nodes, classify), m)
    ensures make(m, number) in DevicesOf(nodes, classify, make)
    ensures if SmallerInSeries(m)(classify(gone).value)
            then number > 0 && make(m, number - 1) in DevicesOf(rest, classify, make)
            else make(m, number) in DevicesOf(rest, classify, make)
  {
    RankGone(nodes, rest, gone, classify, m);
    StillMatched(nodes, rest, gone, classify, m);
    MatchGiven(nodes, classify, make, m, number);
    MatchGiven(rest, classify, make, m, if SmallerInSeries(m)(classify(gone).value) then number - 1 else number);
  }

  lemma StillMatched(nodes: seq<V4lNode>, rest: seq<V4lNode>, gone: V4lNode, classify: V4lNode -> Option<Match>,
                     m: Match)
    requires Faithful(classify) && AllBut(rest, nodes, gone) && m in Matches(nodes, classify) && m.node != gone
    ensures m in Matches(rest, classify)
  {
    MatchesOf(nodes, classify);
    MatchesOf(rest, classify);
  }

  // ---- Enumerate ----

  function DefaultConfig(c: Config): Config {
    if !c.npuEnabled && !c.gpuEnabled && !c.vpuEnabled && !c.rgaEnabled
    then c.(npuEnabled := true, gpuEnabled := true, vpuEnabled := true, rgaEnabled := true)
    else c
  }

  function DefaultNPUMax(soc: string, cores: int): int {
    if cores > 0 then cores else if soc == "rk3588" || soc == "rk3588s" then 3 else 1
  }

  function NpuDevices(cfg: Config, sys: Sysfs): seq<Device> {
    if sys.rocketCores == 0 then []
    else [Device(DeviceName(NPU, 0), "npu", sys.soc, "rockchip", "rknn", KMD_ROCKET, sys.rocketCores, 0, sys.accelNode,
                 Cap(cfg.npuMax, DefaultNPUMax(sys.soc, sys.rocketCores)), "", "", sys.gid(sys.accelNode))]
  }

  function GpuDevices(cfg: Config, sys: Sysfs): seq<Device> {
    if sys.renderNode == "" then []
    else
      var known := sys.soc == "rk3588" || sys.soc == "rk3588s";
      [Device(DeviceName(GPU, 0), "gpu", sys.soc, "arm", if known then "Mali-G610" else "Mali", KMD_PANTHOR, 0,
              if known then 4 else 0, sys.renderNode, Cap(cfg.gpuMax, DEFAULT_GPU_MAX_ALLOCATIONS), "", "",
                sys.gid(sys.renderNode))]
  }

  function MockNode(stem: Stem, path: string, kmd: string, model: string, purpose: string): Match {
    Match(V4lNode(0, kmd, "", model, path), stem, purpose)
  }

  // The synthetic RK3588 of mock mode.
  function MockSysfs(): Sysfs {
    Sysfs("rk3588", 3, "/dev/accel/accel0", "/dev/dri/renderD128", [], (path: string) => None)
  }

  // Mock mode publishes one rkvdec and one RGA without looking at any node.
  function VideoParts(cfg: Config, sys: Sysfs): (seq<Device>, seq<Device>) {
    if cfg.mock then
      (NumberedDevices([MockNode(VPU(Rkvdec), "/dev/video2", KMD_RKVDEC, "rockchip,rk3588-vdec", "decode")],
                       Maker(sys.soc, sys.gid, Cap(cfg.vpuMax, DEFAULT_VPU_MAX_ALLOCATIONS))),
       NumberedDevices([MockNode(RGA, "/dev/video0", KMD_RGA, "rockchip,rk3588-rga", "")],
                       Maker(sys.soc, sys.gid, Cap(cfg.rgaMax, DEFAULT_RGA_MAX_ALLOCATIONS))))
    else (VpuDevices(cfg, sys), RgaDevices(cfg, sys))
  }

  function Enumeration(config: Config, host: Sysfs): seq<Device> {
    var cfg := DefaultConfig(config);
    var sys := if cfg.mock then MockSysfs() else host;
    var video := VideoParts(cfg, sys);
    Enabled(cfg, NpuDevices(cfg, sys), GpuDevices(cfg, sys), video.0, video.1)
  }

  function Enabled(cfg: Config, npu: seq<Device>, gpu: seq<Device>, vpu: seq<Device>, rga: seq<Device>): seq<Device> {
    (if cfg.npuEnabled then npu else [])
    + (if cfg.gpuEnabled then gpu else [])
    + (if cfg.vpuEnabled then vpu else [])
    + (if cfg.rgaEnabled then rga else [])
  }

  // What the rest of the plugin may rely on about an enumeration.
  ghost predicate Sound(d: Device) {
    ValidName(d.name) && d.name != "" && d.maxAllocations >= 1 && d.deviceNode != "" && d.coreCount >= 0 &&
      d.shaderCores >= 0
  }

  ghost predicate ValidEnumeration(found: seq<Device>) {
    && (forall i :: 0 <= i < |found| ==> Sound(found[i]))
    && (forall i, j :: 0 <= i < j < |found| ==> found[i].name != found[j].name)
  }

  // sysfs hands out device paths, and they are not empty.
  ghost predicate PathsGiven(sys: Sysfs) {
    sys.accelNode != "" && forall i :: 0 <= i < |sys.nodes| ==> sys.nodes[i].deviceNode != ""
  }

  datatype Kind = KindNPU | KindGPU | KindVPU | KindRGA

  function KindOf(s: Stem): Kind {
    match s
    case NPU => KindNPU
    case GPU => KindGPU
    case VPU(_) => KindVPU
    case RGA => KindRGA
  }

  ghost predicate NamedAs(name: string, kinds: set<Kind>) {
    exists s, n :: KindOf(s) in kinds && name == DeviceName(s, n)
  }

  // A part of the enumeration whose names are of the given kinds.
  ghost predicate ValidPart(part: seq<Device>, kinds: set<Kind>) {
    && ValidEnumeration(part)
    && (forall i :: 0 <= i < |part| ==> NamedAs(part[i].name, kinds))
  }

  lemma KindsDistinct(a: string, b: string, p: set<Kind>, q: set<Kind>)
    requires NamedAs(a, p) && NamedAs(b, q) && p !! q
    ensures a != b
  {
    var s, n :| KindOf(s) in p && a == DeviceName(s, n);
    var t, m :| KindOf(t) in q && b == DeviceName(t, m);
    NamesDistinct(s, n, t, m);
  }

  lemma PartsJoin(a: seq<Device>, b: seq<Device>, p: set<Kind>, q: set<Kind>)
    requires ValidPart(a, p) && ValidPart(b, q) && p !! q
    ensures ValidPart(a + b, p + q)
  {
    var c := a + b;
    forall i | 0 <= i < |c| ensures NamedAs(c[i].name, p + q) {
      if i < |a| { assert NamedAs(a[i].name, p); } else { assert NamedAs(b[i - |a|].name, q); }
    }
    forall i, j | 0 <= i < j < |c| ensures c[i].name != c[j].name {
      if i < |a| <= j { KindsDistinct(a[i].name, b[j - |a|].name, p, q); }
    }
  }

  lemma NumberGrows(sorted: seq<Match>, i: nat, j: nat)
    requires i < j < |sorted| && sorted[i].series == sorted[j].series
    ensures NumberAt(sorted, i) < NumberAt(sorted, j)
  {
    var p := InSeries(sorted[j].series);
    CountNext(sorted, i, p);
    assert sorted[..j] == sorted[..i + 1] + sorted[i + 1..j];
    CountAppend(sorted[..i + 1], sorted[i + 1..j], p);
  }

  /** The running numbers never repeat a name, even if indexes do. */
  lemma NumberedValid(sorted: seq<Match>, soc: string, gid: string -> Option<int>, maxAlloc: int, kind: Kind)
    requires maxAlloc >= 1
    requires forall m :: m in sorted ==> KindOf(m.series) == kind && m.node.deviceNode != ""
    ensures ValidPart(NumberedDevices(sorted, Maker(soc, gid, maxAlloc)), {kind})
  {
    var part := NumberedDevices(sorted, Maker(soc, gid, maxAlloc));
    forall i | 0 <= i < |part|
      ensures Sound(part[i]) && NamedAs(part[i].name, {kind}) &&
              part[i].name == DeviceName(sorted[i].series, NumberAt(sorted, i))
    {
      assert sorted[i] in sorted;
      assert part[i] == MatchDevice(sorted[i], NumberAt(sorted, i), soc, gid, maxAlloc);
    }
    forall i, j | 0 <= i < j < |part| ensures part[i].name != part[j].name {
      if sorted[i].series == sorted[j].series { NumberGrows(sorted, i, j); }
      NamesDistinct(sorted[i].series, NumberAt(sorted, i), sorted[j].series, NumberAt(sorted, j));
    }
  }

  predicate MatchOf(kind: Kind, m: Match) {
    KindOf(m.series) == kind && m.node.deviceNode != ""
  }

  lemma {:induction false} MatchesKept(nodes: seq<V4lNode>, classify: V4lNode -> Option<Match>, kind: Kind)
    requires forall n :: n in nodes && classify(n).Some? ==> MatchOf(kind, classify(n).value)
    ensures forall m :: m in Matches(nodes, classify) ==> MatchOf(kind, m)
  {
    if nodes != [] {
      assert nodes[|nodes| - 1] in nodes;
      MatchesKept(nodes[..|nodes| - 1], classify, kind);
    }
  }

  lemma DiscoveredValid(sys: Sysfs, classify: V4lNode -> Option<Match>, kind: Kind, maxAlloc: int)
    requires PathsGiven(sys) && maxAlloc >= 1 && Faithful(classify)
    requires forall n :: classify(n).Some? ==> KindOf(classify(n).value.series) == kind
    ensures ValidPart(NumberedDevices(Sort(Matches(sys.nodes, classify), MatchLess),
                                      Maker(sys.soc, sys.gid, maxAlloc)), {kind})
  {
    var matches := Matches(sys.nodes, classify);
    forall n | n in sys.nodes && classify(n).Some? ensures MatchOf(kind, classify(n).value) {
      assert classify(n).value.node == n;
    }
    MatchesKept(sys.nodes, classify, kind);
    SameElements(matches, Sort(matches, MatchLess));
    forall m | m in Sort(matches, MatchLess) ensures KindOf(m.series) == kind && m.node.deviceNode != "" {
      assert MatchOf(kind, m);
    }
    NumberedValid(Sort(matches, MatchLess), sys.soc, sys.gid, maxAlloc, kind);
  }

  lemma VideoPartsValid(cfg: Config, sys: Sysfs)
    requires PathsGiven(sys)
    ensures ValidPart(VideoParts(cfg, sys).0, {KindVPU})
    ensures ValidPart(VideoParts(cfg, sys).1, {KindRGA})
  {
    var vpuMax, rgaMax := Cap(cfg.vpuMax, DEFAULT_VPU_MAX_ALLOCATIONS), Cap(cfg.rgaMax, DEFAULT_RGA_MAX_ALLOCATIONS);
    if cfg.mock {
      NumberedValid([MockNode(VPU(Rkvdec), "/dev/video2", KMD_RKVDEC, "rockchip,rk3588-vdec", "decode")], sys.soc,
                    sys.gid, vpuMax, KindVPU);
      NumberedValid([MockNode(RGA, "/dev/video0", KMD_RGA, "rockchip,rk3588-rga", "")], sys.soc, sys.gid, rgaMax,
                    KindRGA);
    } else {
      DiscoveredValid(sys, MatchVPU, KindVPU, vpuMax);
      DiscoveredValid(sys, MatchRGA, KindRGA, rgaMax);
    }
  }

  lemma SingleValid(cfg: Config, sys: Sysfs)
    requires PathsGiven(sys)
    ensures ValidPart(NpuDevices(cfg, sys), {KindNPU})
    ensures ValidPart(GpuDevices(cfg, sys), {KindGPU})
  {
    assert NamedAs(DeviceName(NPU, 0), {KindNPU}) && NamedAs(DeviceName(GPU, 0), {KindGPU});
  }

  lemma EnabledValid(cfg: Config, npu: seq<Device>, gpu: seq<Device>, vpu: seq<Device>, rga: seq<Device>)
    requires ValidPart(npu, {KindNPU}) && ValidPart(gpu, {KindGPU}) && ValidPart(vpu, {KindVPU}) &&
             ValidPart(rga, {KindRGA})
    ensures ValidEnumeration(Enabled(cfg, npu, gpu, vpu, rga))
  {
    var a := if cfg.npuEnabled then npu else [];
    var b := if cfg.gpuEnabled then gpu else [];
    var c := if cfg.vpuEnabled then vpu else [];
    var d := if cfg.rgaEnabled then rga else [];
    PartsJoin(a, b, {KindNPU}, {KindGPU});
    PartsJoin(a + b, c, {KindNPU} + {KindGPU}, {KindVPU});
    PartsJoin(a + b + c, d, {KindNPU} + {KindGPU} + {KindVPU}, {KindRGA});
  }

  /** Every enumeration, mock or real, whatever is enabled and whatever the host
      shows, has distinct names from the grammar and a capacity for each device. */
  lemma EnumerationValid(config: Config, host: Sysfs)
    requires PathsGiven(host)
    ensures ValidEnumeration(Enumeration(config, host))
  {
    var cfg := DefaultConfig(config);
    var sys := if cfg.mock then MockSysfs() else host;
    SingleValid(cfg, sys);
    VideoPartsValid(cfg, sys);
    EnabledValid(cfg, NpuDevices(cfg, sys), GpuDevices(cfg, sys), VideoParts(cfg, sys).0, VideoParts(cfg, sys).1);
  }

  /** Enumerate grows one list, kind by kind. */
  method Enumerate(config: Config, host: Sysfs) returns (devices: seq<Device>)
    ensures devices == Enumeration(config, host)
    ensures PathsGiven(host) ==> ValidEnumeration(devices)
  {
    var cfg := DefaultConfig(config);
    var sys := if cfg.mock then MockSysfs() else host;
    var video := VideoParts(cfg, sys);
    if !cfg.mock {
      var vpu := DiscoverVPU(cfg, sys);
      var rga := DiscoverRGA(cfg, sys);
      video := (vpu, rga);
    }
    devices := AppendEnabled(cfg, NpuDevices(cfg, sys), GpuDevices(cfg, sys), video.0, video.1);
    if PathsGiven(host) { EnumerationValid(config, host); }
  }

  method AppendEnabled(cfg: Config, npu: seq<Device>, gpu: seq<Device>, vpu: seq<Device>,
                       rga: seq<Device>) returns (devices: seq<Device>)
    ensures devices == Enabled(cfg, npu, gpu, vpu, rga)
  {
    devices := [];
    if cfg.npuEnabled {
      devices := devices + npu;
    }
    if cfg.gpuEnabled {
      devices := devices + gpu;
    }
    if cfg.vpuEnabled {
      devices := devices + vpu;
    }
    if cfg.rgaEnabled {
      devices := devices + rga;
    }
  }
}
