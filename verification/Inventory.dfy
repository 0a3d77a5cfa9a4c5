/** What an enumeration lists, said of the nodes, the host and the configuration and
    not of the discoverers: which node becomes which device, which kinds are listed,
    with which capacity and under which name. */
module Inventory {
  import opened Types
  import opened Sorting
  import opened Naming
  import opened Discovery

  // ---- Which node is which block ----

  // A character of the text against one of a pattern in lower case.
  predicate SameLetter(c: char, pattern: char) {
    c == pattern || ('A' <= c <= 'Z' && c as int + 32 == pattern as int)
  }

  predicate SpelledAt(text: string, pattern: string, i: nat) {
    i + |pattern| <= |text| && forall k :: 0 <= k < |pattern| ==> SameLetter(text[i + k], pattern[k])
  }

  // The text has the pattern somewhere, in whatever case.
  ghost predicate Mentions(text: string, pattern: string) {
    exists i: nat :: SpelledAt(text, pattern, i)
  }

  predicate LowerCase(pattern: string) {
    forall k :: 0 <= k < |pattern| ==> !('A' <= pattern[k] <= 'Z')
  }

  lemma PrefixSpelled(text: string, pattern: string, i: nat)
    requires LowerCase(pattern) && i <= |text|
    ensures pattern <= ToLower(text)[i..] <==> SpelledAt(text, pattern, i)
  {
    var lower := ToLower(text);
    if i + |pattern| <= |text| {
      forall k | 0 <= k < |pattern| ensures lower[i..][k] == pattern[k] <==> SameLetter(text[i + k], pattern[k]) {
        assert lower[i..][k] == lower[i + k];
      }
    }
  }

  /** The search through a lower-cased text ignores case. */
  lemma ContainsIgnoresCase(text: string, pattern: string)
    requires LowerCase(pattern)
    ensures Contains(ToLower(text), pattern) <==> Mentions(text, pattern)
  {
    var lower := ToLower(text);
    forall i: nat | i <= |text| ensures pattern <= lower[i..] <==> SpelledAt(text, pattern, i) {
      PrefixSpelled(text, pattern, i);
    }
    if i: nat :| SpelledAt(text, pattern, i) {
      assert pattern <= lower[i..];
    }
  }

  ghost predicate Says(n: V4lNode, pattern: string) {
    Mentions(n.compatible, pattern) || Mentions(n.cardName, pattern)
  }

  // The node is of this hardware block, and of this block alone.
  ghost predicate IsBlock(n: V4lNode, block: string) {
    || (block == "rkvdec" && n.driver == "rkvdec")
    || (block == "hantro-av1" && n.driver == "hantro-vpu" && Says(n, "av1"))
    || (block == "hantro-enc" && n.driver == "hantro-vpu" && Says(n, "vepu") && !Says(n, "av1"))
    || (block == "hantro-dec" && n.driver == "hantro-vpu" && !Says(n, "av1") && !Says(n, "vepu")
        && (Mentions(n.compatible, "vpu121") || Mentions(n.cardName, "vpu-dec")))
  }

  function PurposeOf(block: string): string {
    if block == "hantro-enc" then "encode" else "decode"
  }

  lemma SaysIff(n: V4lNode, pattern: string)
    requires LowerCase(pattern)
    ensures Contains(ToLower(n.compatible), pattern) <==> Mentions(n.compatible, pattern)
    ensures Contains(ToLower(n.cardName), pattern) <==> Mentions(n.cardName, pattern)
  {
    ContainsIgnoresCase(n.compatible, pattern);
    ContainsIgnoresCase(n.cardName, pattern);
  }

  lemma BlockNamesDiffer()
    ensures "rkvdec" != "hantro-vpu" && "hantro-av1"[7] == 'a' && "hantro-enc"[7] == 'e' && "hantro-dec"[7] == 'd'
    ensures |"rkvdec"| == 6 && |"hantro-dec"| == 10
  {
    assert "rkvdec"[0] != "hantro-vpu"[0];
  }

  lemma ClassifiedIsBlock(n: V4lNode)
    ensures MatchVPU(n).Some? ==>
              var m := MatchVPU(n).value;
              && m.node == n && m.series.VPU? && IsBlock(n, BlockName(m.series.block))
              && m.purpose == PurposeOf(BlockName(m.series.block))
    ensures forall block :: IsBlock(n, block) ==>
              MatchVPU(n).Some? && MatchVPU(n).value.series.VPU? && BlockName(MatchVPU(n).value.series.block) == block
  {
    SaysIff(n, "av1");
    SaysIff(n, "vepu");
    SaysIff(n, "vpu121");
    SaysIff(n, "vpu-dec");
    BlockNamesDiffer();
  }

  // The device shows its node, its block and what the block is for.
  ghost predicate Shows(d: Device, n: V4lNode, sys: Sysfs) {
    && d.deviceNode == n.deviceNode && d.model == n.compatible && d.kmd == n.driver
    && d.soc == sys.soc && d.vendor == "rockchip" && d.deviceGID == sys.gid(n.deviceNode)
    && d.coreCount == 0 && d.shaderCores == 0
  }

  ghost predicate ShowsVPU(d: Device, n: V4lNode, sys: Sysfs) {
    Shows(d, n, sys) && d.kind == "vpu" && IsBlock(n, d.block) && d.purpose == PurposeOf(d.block)
  }

  ghost predicate ShowsRGA(d: Device, n: V4lNode, sys: Sysfs) {
    Shows(d, n, sys) && d.kind == "rga" && n.driver == "rockchip-rga" && d.block == "" && d.purpose == ""
  }

  lemma MadeAt(sorted: seq<Match>, sys: Sysfs, maxAlloc: int, i: nat)
    requires i < |sorted|
    ensures var devices := NumberedDevices(sorted, Maker(sys.soc, sys.gid, maxAlloc));
            && i < |devices| && devices[i] == MatchDevice(sorted[i], NumberAt(sorted, i), sys.soc, sys.gid, maxAlloc)
            && devices[i] in devices && Shows(devices[i], sorted[i].node, sys)
            && devices[i].purpose == sorted[i].purpose && devices[i].block == SeriesKey(sorted[i].series)
            && devices[i].kind == (if sorted[i].series.VPU? then "vpu" else "rga")
            && devices[i].maxAllocations == maxAlloc
  {}

  /** Every VPU device is that of a listed node of its block ... */
  lemma DeviceHasNode(cfg: Config, sys: Sysfs, d: Device) returns (n: V4lNode)
    requires d in VpuDevices(cfg, sys)
    ensures n in sys.nodes && ShowsVPU(d, n, sys)
  {
    var sorted := Sort(Matches(sys.nodes, MatchVPU), MatchLess);
    SortedMatches(sys.nodes, MatchVPU);
    var i :| 0 <= i < |sorted| && VpuDevices(cfg, sys)[i] == d;
    assert sorted[i] in sorted;
    n := sorted[i].node;
    MadeAt(sorted, sys, Cap(cfg.vpuMax, DEFAULT_VPU_MAX_ALLOCATIONS), i);
    ClassifiedIsBlock(n);
  }

  /** ... and every listed node of a block becomes a device of it; other nodes none. */
  lemma NodeHasDevice(cfg: Config, sys: Sysfs, n: V4lNode, block: string) returns (d: Device)
    requires n in sys.nodes && IsBlock(n, block)
    ensures d in VpuDevices(cfg, sys) && d.block == block && ShowsVPU(d, n, sys)
  {
    var sorted := Sort(Matches(sys.nodes, MatchVPU), MatchLess);
    SortedMatches(sys.nodes, MatchVPU);
    ClassifiedIsBlock(n);
    var m := MatchVPU(n).value;
    var i :| 0 <= i < |sorted| && sorted[i] == m;
    MadeAt(sorted, sys, Cap(cfg.vpuMax, DEFAULT_VPU_MAX_ALLOCATIONS), i);
    d := VpuDevices(cfg, sys)[i];
  }

  ghost predicate DistinctPaths(nodes: seq<V4lNode>) {
    forall n, m :: n in nodes && m in nodes && n.deviceNode == m.deviceNode ==> n == m
  }

  /** A node has a device of a block exactly when its driver and its compatible or card
      name say so, whatever their case. */
  lemma BlockOfNode(cfg: Config, sys: Sysfs, n: V4lNode, block: string)
    requires n in sys.nodes && DistinctPaths(sys.nodes)
    ensures (exists d :: d in VpuDevices(cfg, sys) && d.deviceNode == n.deviceNode && d.block == block) <==>
            IsBlock(n, block)
  {
    if d :| d in VpuDevices(cfg, sys) && d.deviceNode == n.deviceNode && d.block == block {
      var m := DeviceHasNode(cfg, sys, d);
      assert m == n;
    }
    if IsBlock(n, block) {
      var d := NodeHasDevice(cfg, sys, n, block);
    }
  }

  lemma RgaHasNode(cfg: Config, sys: Sysfs, d: Device) returns (n: V4lNode)
    requires d in RgaDevices(cfg, sys)
    ensures n in sys.nodes && ShowsRGA(d, n, sys)
  {
    var sorted := Sort(Matches(sys.nodes, MatchRGA), MatchLess);
    SortedMatches(sys.nodes, MatchRGA);
    var i :| 0 <= i < |sorted| && RgaDevices(cfg, sys)[i] == d;
    assert sorted[i] in sorted;
    n := sorted[i].node;
    MadeAt(sorted, sys, Cap(cfg.rgaMax, DEFAULT_RGA_MAX_ALLOCATIONS), i);
  }

  lemma NodeHasRga(cfg: Config, sys: Sysfs, n: V4lNode) returns (d: Device)
    requires n in sys.nodes && n.driver == "rockchip-rga"
    ensures d in RgaDevices(cfg, sys) && ShowsRGA(d, n, sys)
  {
    var sorted := Sort(Matches(sys.nodes, MatchRGA), MatchLess);
    SortedMatches(sys.nodes, MatchRGA);
    var i :| 0 <= i < |sorted| && sorted[i] == MatchRGA(n).value;
    MadeAt(sorted, sys, Cap(cfg.rgaMax, DEFAULT_RGA_MAX_ALLOCATIONS), i);
    d := RgaDevices(cfg, sys)[i];
  }

  // ---- Kinds, capacities and names ----

  // The host as Enumerate sees it.
  function Seen(config: Config, host: Sysfs): Sysfs {
    if config.mock then MockSysfs() else host
  }

  ghost predicate InPart(config: Config, host: Sysfs, kind: Kind, d: Device) {
    var cfg, sys := DefaultConfig(config), Seen(config, host);
    match kind
    case KindNPU => cfg.npuEnabled && d in NpuDevices(cfg, sys)
    case KindGPU => cfg.gpuEnabled && d in GpuDevices(cfg, sys)
    case KindVPU => cfg.vpuEnabled && d in VideoParts(cfg, sys).0
    case KindRGA => cfg.rgaEnabled && d in VideoParts(cfg, sys).1
  }

  lemma InEnabled(cfg: Config, npu: seq<Device>, gpu: seq<Device>, vpu: seq<Device>, rga: seq<Device>, d: Device)
    ensures d in Enabled(cfg, npu, gpu, vpu, rga) <==>
            || (cfg.npuEnabled && d in npu) || (cfg.gpuEnabled && d in gpu)
            || (cfg.vpuEnabled && d in vpu) || (cfg.rgaEnabled && d in rga)
  {}

  lemma PartOf(config: Config, host: Sysfs, d: Device) returns (kind: Kind)
    requires d in Enumeration(config, host)
    ensures InPart(config, host, kind, d)
  {
    var cfg, sys := DefaultConfig(config), Seen(config, host);
    var npu, gpu, video := NpuDevices(cfg, sys), GpuDevices(cfg, sys), VideoParts(cfg, sys);
    InEnabled(cfg, npu, gpu, video.0, video.1, d);
    kind := if cfg.npuEnabled && d in npu then KindNPU
            else if cfg.gpuEnabled && d in gpu then KindGPU
            else if cfg.vpuEnabled && d in video.0 then KindVPU
            else KindRGA;
  }

  lemma PartListed(config: Config, host: Sysfs, kind: Kind, d: Device)
    requires InPart(config, host, kind, d)
    ensures d in Enumeration(config, host)
  {
    var cfg, sys := DefaultConfig(config), Seen(config, host);
    var video := VideoParts(cfg, sys);
    InEnabled(cfg, NpuDevices(cfg, sys), GpuDevices(cfg, sys), video.0, video.1, d);
  }

  function KindText(kind: Kind): string {
    match kind
    case KindNPU => "npu"
    case KindGPU => "gpu"
    case KindVPU => "vpu"
    case KindRGA => "rga"
  }

  // Asked for by name, or by naming nothing.
  predicate Wanted(c: Config, kind: Kind) {
    || (!c.npuEnabled && !c.gpuEnabled && !c.vpuEnabled && !c.rgaEnabled)
    || (kind == KindNPU && c.npuEnabled) || (kind == KindGPU && c.gpuEnabled)
    || (kind == KindVPU && c.vpuEnabled) || (kind == KindRGA && c.rgaEnabled)
  }

  ghost predicate OnHost(c: Config, host: Sysfs, kind: Kind) {
    c.mock ||
    match kind
    case KindNPU => host.rocketCores > 0
    case KindGPU => host.renderNode != ""
    case KindVPU => exists n, block :: n in host.nodes && IsBlock(n, block)
    case KindRGA => exists n :: n in host.nodes && n.driver == "rockchip-rga"
  }

  // What a device of the kind says, wherever it comes from.
  ghost predicate OfKind(config: Config, kind: Kind, d: Device) {
    && d.kind == KindText(kind)
    && d.maxAllocations == Capacity(config, kind, d.coreCount)
    && (exists n: nat :: NamedAfter(d, n))
  }

  // A configured cap wins; otherwise one share per core, eight for a GPU, else one.
  function Capacity(c: Config, kind: Kind, cores: int): int {
    match kind
    case KindNPU => if c.npuMax > 0 then c.npuMax else cores
    case KindGPU => if c.gpuMax > 0 then c.gpuMax else 8
    case KindVPU => if c.vpuMax > 0 then c.vpuMax else 1
    case KindRGA => if c.rgaMax > 0 then c.rgaMax else 1
  }

  // The name is the published type, the block if there is one, and a number.
  predicate NamedAfter(d: Device, number: nat) {
    d.name == d.kind + "-" + (if d.block == "" then "" else d.block + "-") + Decimal(number)
  }

  lemma SinglesOfKind(config: Config, host: Sysfs, d: Device)
    ensures InPart(config, host, KindNPU, d) ==> OfKind(config, KindNPU, d)
    ensures InPart(config, host, KindGPU, d) ==> OfKind(config, KindGPU, d)
  {
    assert DeviceName(NPU, 0) == "npu" + "-" + "" + Decimal(0);
    assert DeviceName(GPU, 0) == "gpu" + "-" + "" + Decimal(0);
    if InPart(config, host, KindNPU, d) { assert NamedAfter(d, 0); }
    if InPart(config, host, KindGPU, d) { assert NamedAfter(d, 0); }
  }

  lemma VideoName(s: Stem, number: nat, d: Device)
    requires s.VPU? || s.RGA?
    requires d.name == DeviceName(s, number) && d.block == SeriesKey(s) && d.kind == if s.VPU? then "vpu" else "rga"
    ensures NamedAfter(d, number)
  {
    if s.VPU? {
      assert d.block != "";
      assert DeviceName(s, number) == "vpu" + "-" + (BlockName(s.block) + "-") + Decimal(number);
    } else {
      assert DeviceName(s, number) == "rga" + "-" + "" + Decimal(number);
    }
  }

  lemma NumberedOfKind(config: Config, sorted: seq<Match>, sys: Sysfs, maxAlloc: int, kind: Kind, d: Device)
    requires kind.KindVPU? || kind.KindRGA?
    requires forall m :: m in sorted ==> KindOf(m.series) == kind
    requires maxAlloc == Capacity(config, kind, 0) && d in NumberedDevices(sorted, Maker(sys.soc, sys.gid, maxAlloc))
    ensures OfKind(config, kind, d)
  {
    var i :| 0 <= i < |sorted| && NumberedDevices(sorted, Maker(sys.soc, sys.gid, maxAlloc))[i] == d;
    assert sorted[i] in sorted;
    MadeAt(sorted, sys, maxAlloc, i);
    VideoName(sorted[i].series, NumberAt(sorted, i), d);
  }

  lemma VpuSeries(nodes: seq<V4lNode>)
    ensures forall m :: m in Sort(Matches(nodes, MatchVPU), MatchLess) ==> KindOf(m.series) == KindVPU
  {
    SortedMatches(nodes, MatchVPU);
    forall m | m in Sort(Matches(nodes, MatchVPU), MatchLess) ensures KindOf(m.series) == KindVPU {
      assert MatchVPU(m.node) == Some(m);
    }
  }

  lemma RgaSeries(nodes: seq<V4lNode>)
    ensures forall m :: m in Sort(Matches(nodes, MatchRGA), MatchLess) ==> KindOf(m.series) == KindRGA
  {
    SortedMatches(nodes, MatchRGA);
    forall m | m in Sort(Matches(nodes, MatchRGA), MatchLess) ensures KindOf(m.series) == KindRGA {
      assert MatchRGA(m.node) == Some(m);
    }
  }

  lemma VideosOfKind(config: Config, host: Sysfs, kind: Kind, d: Device)
    requires (kind.KindVPU? || kind.KindRGA?) && InPart(config, host, kind, d)
    ensures OfKind(config, kind, d)
  {
    var sys := Seen(config, host);
    var vpuMax := Cap(config.vpuMax, DEFAULT_VPU_MAX_ALLOCATIONS);
    var rgaMax := Cap(config.rgaMax, DEFAULT_RGA_MAX_ALLOCATIONS);
    if config.mock {
      var vpu := MockNode(VPU(Rkvdec), "/dev/video2", KMD_RKVDEC, "rockchip,rk3588-vdec", "decode");
      var rga := MockNode(RGA, "/dev/video0", KMD_RGA, "rockchip,rk3588-rga", "");
      if kind.KindVPU? { NumberedOfKind(config, [vpu], sys, vpuMax, kind, d); }
      else { NumberedOfKind(config, [rga], sys, rgaMax, kind, d); }
    } else {
      VpuSeries(sys.nodes);
      RgaSeries(sys.nodes);
      if kind.KindVPU? { NumberedOfKind(config, Sort(Matches(sys.nodes, MatchVPU), MatchLess), sys, vpuMax, kind, d); }
      else { NumberedOfKind(config, Sort(Matches(sys.nodes, MatchRGA), MatchLess), sys, rgaMax, kind, d); }
    }
  }

  lemma PartOfKind(config: Config, host: Sysfs, kind: Kind, d: Device)
    requires InPart(config, host, kind, d)
    ensures OfKind(config, kind, d)
  {
    SinglesOfKind(config, host, d);
    if kind.KindVPU? || kind.KindRGA? { VideosOfKind(config, host, kind, d); }
  }

  /** Every enumerated device is of one of the four kinds, has the configured or default
      capacity of its kind, and is named after its published type and block. */
  lemma EnumeratedOfKind(config: Config, host: Sysfs, d: Device)
    requires d in Enumeration(config, host)
    ensures exists kind :: OfKind(config, kind, d)
  {
    var kind := PartOf(config, host, d);
    PartOfKind(config, host, kind, d);
  }

  lemma KindTextsDiffer(a: Kind, b: Kind)
    requires KindText(a) == KindText(b)
    ensures a == b
  {
    assert "npu"[0] == 'n' && "gpu"[0] == 'g' && "vpu"[0] == 'v' && "rga"[0] == 'r';
  }

  lemma PartWitness(config: Config, host: Sysfs, kind: Kind) returns (d: Device)
    requires Wanted(config, kind) && OnHost(config, host, kind)
    ensures InPart(config, host, kind, d)
  {
    var cfg, sys := DefaultConfig(config), Seen(config, host);
    match kind {
      case KindNPU => d := NpuDevices(cfg, sys)[0];
      case KindGPU => d := GpuDevices(cfg, sys)[0];
      case KindVPU =>
        if config.mock {
          d := VideoParts(cfg, sys).0[0];
        } else {
          var n, block :| n in host.nodes && IsBlock(n, block);
          d := NodeHasDevice(cfg, host, n, block);
        }
      case KindRGA =>
        if config.mock {
          d := VideoParts(cfg, sys).1[0];
        } else {
          var n :| n in host.nodes && n.driver == "rockchip-rga";
          d := NodeHasRga(cfg, host, n);
        }
    }
  }

  lemma PartNeedsHost(config: Config, host: Sysfs, kind: Kind, d: Device)
    requires InPart(config, host, kind, d)
    ensures Wanted(config, kind) && OnHost(config, host, kind)
  {
    if !config.mock {
      if kind.KindVPU? { var n := DeviceHasNode(DefaultConfig(config), host, d); }
      if kind.KindRGA? { var n := RgaHasNode(DefaultConfig(config), host, d); }
    }
  }

  /** A kind is listed exactly when it is asked for and the host, or mock mode, has it. */
  lemma KindListed(config: Config, host: Sysfs, kind: Kind)
    ensures (exists d :: d in Enumeration(config, host) && d.kind == KindText(kind)) <==>
            Wanted(config, kind) && OnHost(config, host, kind)
  {
    if Wanted(config, kind) && OnHost(config, host, kind) {
      var d := PartWitness(config, host, kind);
      PartListed(config, host, kind, d);
      PartOfKind(config, host, kind, d);
    }
    if d :| d in Enumeration(config, host) && d.kind == KindText(kind) {
      var part := PartOf(config, host, d);
      PartOfKind(config, host, part, d);
      KindTextsDiffer(kind, part);
      PartNeedsHost(config, host, kind, d);
    }
  }

  /** The one NPU and the one GPU show the host's cores and nodes; a GPU's model and
      shader cores are known exactly on the RK3588 family. */
  lemma SinglesShowHost(cfg: Config, sys: Sysfs, d: Device)
    ensures d in NpuDevices(cfg, sys) ==>
              && d.coreCount == sys.rocketCores && d.deviceNode == sys.accelNode && d.shaderCores == 0
              && d.soc == sys.soc && d.kmd == "rocket" && d.vendor == "rockchip" && d.model == "rknn"
    ensures d in GpuDevices(cfg, sys) ==>
              && d.deviceNode == sys.renderNode && d.coreCount == 0
              && d.soc == sys.soc && d.kmd == "panthor" && d.vendor == "arm"
              && (sys.soc in ["rk3588", "rk3588s"] ==> d.model == "Mali-G610" && d.shaderCores == 4)
              && (sys.soc !in ["rk3588", "rk3588s"] ==> d.model == "Mali" && d.shaderCores == 0)
  {}

  // ---- Mock mode ----

  // An RK3588 with one decoder and one RGA node.
  function SmallHost(): Sysfs {
    Sysfs("rk3588", 3, "/dev/accel/accel0", "/dev/dri/renderD128",
          [V4lNode(0, "rockchip-rga", "", "rockchip,rk3588-rga", "/dev/video0"),
           V4lNode(2, "rkvdec", "", "rockchip,rk3588-vdec", "/dev/video2")],
          (path: string) => None)
  }

  lemma SmallHostMatches()
    ensures var nodes := SmallHost().nodes;
            && Matches(nodes, MatchVPU) == [Match(nodes[1], VPU(Rkvdec), "decode")]
            && Matches(nodes, MatchRGA) == [Match(nodes[0], RGA, "")]
  {
    var nodes := SmallHost().nodes;
    assert "rockchip-rga"[1] != "rkvdec"[1] && "rockchip-rga"[0] != "hantro-vpu"[0];
    assert nodes[..1] == [nodes[0]] && nodes[..1][..0] == [];
    assert Matches([], MatchVPU) == [] && Matches([], MatchRGA) == [];
    assert Matches(nodes[..1], MatchVPU) == [] && Matches(nodes[..1], MatchRGA) == [Match(nodes[0], RGA, "")];
  }

  lemma SortOne(m: Match)
    ensures Sort([m], MatchLess) == [m]
  {
    assert [m][1..] == [];
    assert Sort([], MatchLess) == [];
  }

  lemma SmallHostVideo(cfg: Config)
    requires !cfg.mock
    ensures VideoParts(cfg, SmallHost()) == VideoParts(cfg.(mock := true), MockSysfs())
  {
    var sys := SmallHost();
    var vpuMax, rgaMax := Cap(cfg.vpuMax, DEFAULT_VPU_MAX_ALLOCATIONS), Cap(cfg.rgaMax, DEFAULT_RGA_MAX_ALLOCATIONS);
    SmallHostMatches();
    var vpu, rga := Match(sys.nodes[1], VPU(Rkvdec), "decode"), Match(sys.nodes[0], RGA, "");
    SortOne(vpu);
    SortOne(rga);
    OneDevice(vpu, MockNode(VPU(Rkvdec), "/dev/video2", KMD_RKVDEC, "rockchip,rk3588-vdec", "decode"), vpuMax);
    OneDevice(rga, MockNode(RGA, "/dev/video0", KMD_RGA, "rockchip,rk3588-rga", ""), rgaMax);
  }

  lemma OneDevice(m: Match, mock: Match, maxAlloc: int)
    requires m == mock.(node := mock.node.(index := m.node.index))
    ensures NumberedDevices([m], Maker("rk3588", SmallHost().gid, maxAlloc)) ==
            NumberedDevices([mock], Maker("rk3588", MockSysfs().gid, maxAlloc))
  {
    MadeAt([m], SmallHost(), maxAlloc, 0);
    MadeAt([mock], MockSysfs(), maxAlloc, 0);
    assert [m][..0] == [] && [mock][..0] == [];
    assert NumberAt([m], 0) == NumberAt([mock], 0) == 0;
  }

  /** Mock mode lists exactly what discovery would find on a small RK3588. */
  lemma MockIsSmallHost(config: Config, host: Sysfs)
    requires config.mock
    ensures Enumeration(config, host) == Enumeration(config.(mock := false), SmallHost())
  {
    SmallHostVideo(DefaultConfig(config.(mock := false)));
  }
}
