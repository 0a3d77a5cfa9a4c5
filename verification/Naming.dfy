/** The names discovery gives to devices: a fixed stem per kind of accelerator and
    a decimal number. */
module Naming {

  datatype Block = Rkvdec | HantroDec | HantroEnc | HantroAV1

  datatype Stem = NPU | GPU | RGA | VPU(block: Block)

  function BlockName(b: Block): string {
    match b
    case Rkvdec => "rkvdec"
    case HantroDec => "hantro-dec"
    case HantroEnc => "hantro-enc"
    case HantroAV1 => "hantro-av1"
  }

  function StemText(s: Stem): string {
    match s
    case NPU => "npu-"
    case GPU => "gpu-"
    case RGA => "rga-"
    case VPU(b) => "vpu-" + BlockName(b) + "-"
  }

  function Digit(d: nat): char
    requires d < 10
  {
    '0' + d as char
  }

  predicate IsDigit(c: char) {
    '0' <= c <= '9'
  }

  // fmt's %d for a non-negative number.
  function Decimal(n: nat): (s: string)
    ensures s != "" && forall i :: 0 <= i < |s| ==> IsDigit(s[i])
  {
    if n < 10 then [Digit(n)] else Decimal(n / 10) + [Digit(n % 10)]
  }

  function Value(s: string): nat
    requires forall i :: 0 <= i < |s| ==> IsDigit(s[i])
  {
    if s == "" then 0
    else
      assert IsDigit(s[|s| - 1]);
      10 * Value(s[..|s| - 1]) + s[|s| - 1] as nat - '0' as nat
  }

  lemma {:induction false} DecimalValue(n: nat)
    ensures Value(Decimal(n)) == n
  {
    if n >= 10 {
      DecimalValue(n / 10);
      var s := Decimal(n);
      assert s[..|s| - 1] == Decimal(n / 10);
      assert s[|s| - 1] == Digit(n % 10);
    } else {
      assert Decimal(n)[..0] == "";
    }
  }

  function DeviceName(s: Stem, n: nat): string {
    StemText(s) + Decimal(n)
  }

  ghost predicate ValidName(name: string) {
    exists s, n :: name == DeviceName(s, n)
  }

  // Where two stems first differ.
  function Difference(s: Stem, t: Stem): nat {
    if !s.VPU? || !t.VPU? then 0 else if s.block == Rkvdec || t.block == Rkvdec then 4 else 11
  }

  lemma StemsDiffer(s: Stem, t: Stem)
    requires s != t
    ensures var i := Difference(s, t);
            i < |StemText(s)| && i < |StemText(t)| && StemText(s)[i] != StemText(t)[i]
  {
    match s {
      case VPU(Rkvdec) =>
      case VPU(HantroDec) =>
      case VPU(HantroEnc) =>
      case VPU(HantroAV1) =>
      case _ =>
    }
  }

  lemma NamesDiverge(s: Stem, n: nat, t: Stem, m: nat)
    requires s != t
    ensures var i := Difference(s, t);
            i < |DeviceName(s, n)| && i < |DeviceName(t, m)| && DeviceName(s, n)[i] != DeviceName(t, m)[i]
  {
    StemsDiffer(s, t);
  }

  /** No device name, extended by a dash, begins another device name. */
  lemma NamesPrefixFree(s: Stem, n: nat, t: Stem, m: nat)
    ensures !(DeviceName(s, n) + "-" <= DeviceName(t, m))
  {
    var a, b := DeviceName(s, n) + "-", DeviceName(t, m);
    if s != t {
      NamesDiverge(s, n, t, m);
      assert a[Difference(s, t)] != b[Difference(s, t)];
    } else if |a| <= |b| {
      var at := |DeviceName(s, n)|;
      assert a[at] == '-' && b[at] == Decimal(m)[at - |StemText(t)|];
    }
  }

  lemma NamesDistinct(s: Stem, n: nat, t: Stem, m: nat)
    requires s != t || n != m
    ensures DeviceName(s, n) != DeviceName(t, m)
  {
    if s != t {
      NamesDiverge(s, n, t, m);
    } else {
      DecimalValue(n);
      DecimalValue(m);
      assert DeviceName(s, n)[|StemText(s)|..] == Decimal(n);
      assert DeviceName(t, m)[|StemText(t)|..] == Decimal(m);
    }
  }

  /** What follows a dash inside a device name does not begin like a device name. */
  lemma DashThenOther(s: Stem, n: nat, k: nat, t: Stem, m: nat)
    requires k < |DeviceName(s, n)| && DeviceName(s, n)[k] == '-'
    ensures var a, b := DeviceName(s, n), DeviceName(t, m);
            k + 1 < |a| && 2 <= |b| && (a[k + 1] != b[0] || (k + 2 < |a| && a[k + 2] != b[1]))
  {
    var a, b, stem := DeviceName(s, n), DeviceName(t, m), StemText(s);
    NumberFollows(s, n);
    assert b[0] == StemText(t)[0] && b[1] == StemText(t)[1];
    if k < |stem| - 1 {
      assert a[k + 1] == stem[k + 1];
      DashInStem(s, k);
      assert a[k + 2] == stem[k + 2];
    }
  }

  lemma NumberFollows(s: Stem, n: nat)
    ensures |DeviceName(s, n)| > |StemText(s)|
    ensures forall i :: |StemText(s)| <= i < |DeviceName(s, n)| ==> IsDigit(DeviceName(s, n)[i])
  {
    forall i | |StemText(s)| <= i < |DeviceName(s, n)| ensures IsDigit(DeviceName(s, n)[i]) {
      assert DeviceName(s, n)[i] == Decimal(n)[i - |StemText(s)|];
    }
  }

  lemma DashInStem(s: Stem, k: nat)
    requires k < |StemText(s)| - 1 && StemText(s)[k] == '-'
    ensures k + 2 < |StemText(s)| && (StemText(s)[k + 1] in "hdea" || StemText(s)[k + 2] == 'k')
  {
    match s {
      case VPU(Rkvdec) => assert k == 3;
      case VPU(HantroDec) => assert k == 3 || k == 10;
      case VPU(HantroEnc) => assert k == 3 || k == 10;
      case VPU(HantroAV1) => assert k == 3 || k == 10;
      case NPU =>
      case GPU =>
      case RGA =>
    }
  }
}
