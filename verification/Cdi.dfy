/** CDI specs: the device names written for a claim and the IDs handed to the
    runtime. */
module Cdi {
  import opened Types
  import opened Naming

  // One entry of a claim's spec; the container edits are a function of the device.
  datatype SpecDevice = SpecDevice(name: string, device: Device)

  datatype Spec = Spec(kind: string, devices: seq<SpecDevice>)

  const CDI_CLASS: string := "dra"

  function ShareText(share: Option<string>): string {
    if share.Some? then share.value else ""
  }

  function CdiDeviceName(uid: UID, device: string, share: string): string {
    uid + "-" + device + (if share != "" then "-" + share else "")
  }

  function Vendor(driver: string): string {
    "k8s." + driver
  }

  function Kind(driver: string): string {
    Vendor(driver) + "/" + CDI_CLASS
  }

  // The CDI parser's QualifiedName.
  function QualifiedName(vendor: string, class_: string, name: string): string {
    vendor + "/" + class_ + "=" + name
  }

  function ClaimDeviceIDs(driver: string, uid: UID, device: string, share: Option<string>): seq<string> {
    [QualifiedName(Vendor(driver), CDI_CLASS, CdiDeviceName(uid, device, ShareText(share)))]
  }

  function EntryFor(uid: UID, d: PreparedDevice): SpecDevice {
    SpecDevice(CdiDeviceName(uid, d.deviceName, ShareText(d.shareID)), d.discovered)
  }

  function EntriesFor(uid: UID, prepared: seq<PreparedDevice>): seq<SpecDevice> {
    seq(|prepared|, i requires 0 <= i < |prepared| => EntryFor(uid, prepared[i]))
  }

  function SpecFor(driver: string, uid: UID, prepared: seq<PreparedDevice>): Spec {
    Spec(Kind(driver), EntriesFor(uid, prepared))
  }

  function SpecDevices(spec: Spec): seq<Device> {
    seq(|spec.devices|, i requires 0 <= i < |spec.devices| => spec.devices[i].device)
  }

  /** The append loop of CreateClaimSpecFile. */
  method BuildSpec(driver: string, uid: UID, prepared: seq<PreparedDevice>) returns (spec: Spec)
    ensures spec == SpecFor(driver, uid, prepared)
  {
    var devices := [];
    for i := 0 to |prepared|
      invariant devices == EntriesFor(uid, prepared[..i])
    {
      devices := devices + [EntryFor(uid, prepared[i])];
    }
    assert prepared[..|prepared|] == prepared;
    spec := Spec(Kind(driver), devices);
  }

  function Tail(device: string, share: string): string {
    device + (if share != "" then "-" + share else "")
  }

  lemma NotPrefix(a: string, b: string) returns (i: nat)
    requires !(a <= b) && |a| <= |b|
    ensures i < |a| && a[i] != b[i]
  {
    i :| i < |a| && a[i] != b[i];
  }

  lemma TailsDiffer(device: string, share: string, device': string, share': string)
    requires ValidName(device) && ValidName(device') && |device| < |device'|
    ensures Tail(device, share) != Tail(device', share')
  {
    var s, n :| device == DeviceName(s, n);
    var t, m :| device' == DeviceName(t, m);
    NamesPrefixFree(s, n, t, m);
    var i := NotPrefix(device + "-", device');
    assert Tail(device', share')[i] == device'[i];
    if share != "" { assert Tail(device, share)[i] == (device + "-")[i]; }
  }

  lemma TailInjective(device: string, share: string, device': string, share': string)
    requires ValidName(device) && ValidName(device')
    ensures Tail(device, share) == Tail(device', share') ==> device == device' && share == share'
  {
    var a, b := Tail(device, share), Tail(device', share');
    if |device| < |device'| {
      TailsDiffer(device, share, device', share');
    } else if |device'| < |device| {
      TailsDiffer(device', share', device, share);
    } else if a == b {
      assert a[..|device|] == device && b[..|device|] == device';
      assert a[|device|..] == b[|device|..];
      if share != "" { assert a[|device| + 1..] == share && b[|device| + 1..] == share'; }
    }
  }

  /** Claims whose UIDs have one length, as Kubernetes UIDs do, never share a CDI
      device name, and within a claim the name determines device and share. */
  lemma CdiNameInjective(uid: UID, device: string, share: string, uid': UID, device': string, share': string)
    requires |uid| == |uid'| && ValidName(device) && ValidName(device')
    ensures CdiDeviceName(uid, device, share) == CdiDeviceName(uid', device', share')
            ==> uid == uid' && device == device' && share == share'
  {
    NameSplits(uid, device, share);
    NameSplits(uid', device', share');
    TailInjective(device, share, device', share');
  }

  lemma NameSplits(uid: UID, device: string, share: string)
    ensures var a := CdiDeviceName(uid, device, share);
            |a| > |uid| && a[..|uid|] == uid && a[|uid| + 1..] == Tail(device, share)
  {
    assert CdiDeviceName(uid, device, share) == uid + "-" + Tail(device, share);
  }

  /** With UIDs of different lengths two claims can collide. */
  lemma CdiNameCollision()
    ensures exists uid, uid', share ::
              uid != uid' && CdiDeviceName(uid, DeviceName(NPU, 0), share) ==
                CdiDeviceName(uid', DeviceName(NPU, 0), "")
  {
    assert DeviceName(NPU, 0) == "npu-0";
    assert CdiDeviceName("x", "npu-0", "npu-0") == "x-npu-0-npu-0" == CdiDeviceName("x-npu-0", "npu-0", "");
  }

  ghost predicate Collide(uid: UID, uid': UID) {
    exists device, share, device', share' ::
      ValidName(device) && ValidName(device') &&
        CdiDeviceName(uid, device, share) == CdiDeviceName(uid', device', share')
  }

  // The second UID goes on after the first one like a CDI device name of it.
  ghost predicate Continues(uid: UID, uid': UID) {
    exists device :: ValidName(device) && uid + "-" + device + "-" <= uid' + "-"
  }

  /** Exactly when they can: one UID continues the other with a device name. */
  lemma CollideIffContinues(uid: UID, uid': UID)
    requires uid != uid'
    ensures Collide(uid, uid') <==> Continues(uid, uid') || Continues(uid', uid)
  {
    if Continues(uid, uid') {
      ContinuedCollides(uid, uid');
    }
    if Continues(uid', uid) {
      ContinuedCollides(uid', uid);
    }
    if device, share, device', share' :| ValidName(device) && ValidName(device')
                                         && CdiDeviceName(uid, device, share) == CdiDeviceName(uid', device', share') {
      if |uid| < |uid'| {
        CollisionContinues(uid, device, share, uid', device', share');
      } else if |uid'| < |uid| {
        CollisionContinues(uid', device', share', uid, device, share);
      } else {
        CdiNameInjective(uid, device, share, uid', device', share');
      }
    }
  }

  lemma ContinuedCollides(uid: UID, uid': UID)
    requires Continues(uid, uid')
    ensures Collide(uid, uid') && Collide(uid', uid)
  {
    var device :| ValidName(device) && uid + "-" + device + "-" <= uid' + "-";
    var other := DeviceName(NPU, 0);
    assert ValidName(other);
    var rest := (uid' + "-")[|uid + "-" + device + "-"|..];
    SharesContinue(uid, device, rest, uid', other);
  }

  lemma SharesContinue(uid: UID, device: string, rest: string, uid': UID, other: string)
    requires uid' + "-" == uid + "-" + device + "-" + rest && other != ""
    ensures CdiDeviceName(uid, device, rest + other) == CdiDeviceName(uid', other, "")
  {
    assert CdiDeviceName(uid, device, rest + other) == uid + "-" + device + "-" + rest + other;
    assert CdiDeviceName(uid', other, "") == uid' + "-" + other;
  }

  lemma CollisionContinues(uid: UID, device: string, share: string, uid': UID, device': string, share': string)
    requires |uid| < |uid'| && ValidName(device) && ValidName(device')
    requires CdiDeviceName(uid, device, share) == CdiDeviceName(uid', device', share')
    ensures Continues(uid, uid')
  {
    var whole, tail, k := CdiDeviceName(uid, device, share), Tail(device, share), |uid'| - |uid| - 1;
    NameSplits(uid, device, share);
    NameSplits(uid', device', share');
    assert whole[|uid| + 1..][k + 1..] == whole[|uid'| + 1..];
    assert tail[k] == whole[|uid'|] == '-' && tail[k + 1..] == Tail(device', share');
    if k < |device| {
      DashStaysInside(device, share, k, device', share');
    }
    assert uid' + "-" == whole[..|uid'| + 1];
    assert uid + "-" + device + "-" <= whole;
  }

  // What follows a dash inside a device name is not the tail of a CDI name.
  lemma DashStaysInside(device: string, share: string, k: nat, device': string, share': string)
    requires ValidName(device) && ValidName(device') && k < |device| && device[k] == '-'
    ensures Tail(device, share)[k + 1..] != Tail(device', share')
  {
    var s, n :| device == DeviceName(s, n);
    var t, m :| device' == DeviceName(t, m);
    DashThenOther(s, n, k, t, m);
    var rest, tail := Tail(device, share)[k + 1..], Tail(device', share');
    assert tail[0] == device'[0] && tail[1] == device'[1] && rest[0] == device[k + 1];
    if k + 2 < |device| { assert rest[1] == device[k + 2]; }
  }

  // ---- What a container runtime makes of an ID ----

  function IndexOf(s: string, c: char): (i: nat)
    ensures i <= |s| && (i < |s| ==> s[i] == c) && forall k :: 0 <= k < i ==> s[k] != c
  {
    if s == "" || s[0] == c then 0 else 1 + IndexOf(s[1..], c)
  }

  datatype ParsedID = ParsedID(vendor: string, class_: string, name: string)

  // An ID is cut at its first '=', and what precedes that at its first '/'.
  function ParseID(id: string): Option<ParsedID> {
    var at := IndexOf(id, '=');
    if at == |id| then None
    else
      var slash := IndexOf(id[..at], '/');
      if slash == at then None else Some(ParsedID(id[..slash], id[slash + 1..at], id[at + 1..]))
  }

  // A driver name the separators do not occur in, as in every DNS name.
  predicate Plain(driver: string) {
    '=' !in driver && '/' !in driver
  }

  lemma FirstIndex(a: string, c: char, b: string)
    ensures IndexOf(a + [c] + b, c) == |a| <==> c !in a
  {
    var s := a + [c] + b;
    assert s[|a|] == c && forall k :: 0 <= k < |a| ==> s[k] == a[k];
  }

  /** An ID reads back as the plugin's vendor, the class and the name exactly when the
      driver name holds neither separator. */
  lemma IDReadsBack(driver: string, name: string)
    ensures ParseID(QualifiedName(Vendor(driver), CDI_CLASS, name)) == Some(ParsedID("k8s." + driver, "dra", name)) <==>
            Plain(driver)
  {
    var id, vendor, kind := QualifiedName(Vendor(driver), CDI_CLASS, name), "k8s." + driver, "k8s." + driver + "/dra";
    assert id == kind + ['='] + name && kind == vendor + ['/'] + "dra";
    FirstIndex(kind, '=', name);
    FirstIndex(vendor, '/', "dra");
    assert '=' in kind <==> '=' in driver by { InKind(driver, '='); }
    assert '/' in vendor <==> '/' in driver by { InVendor(driver, '/'); }
    assert id[..|kind|] == kind && id[|kind| + 1..] == name;
    assert id[..|vendor|] == vendor && id[|vendor| + 1..|kind|] == "dra";
  }

  lemma InVendor(driver: string, c: char)
    requires c !in "k8s."
    ensures c in "k8s." + driver <==> c in driver
  {
    var vendor := "k8s." + driver;
    if c in driver {
      var k :| 0 <= k < |driver| && driver[k] == c;
      assert vendor[4 + k] == c;
    }
  }

  lemma InKind(driver: string, c: char)
    requires c !in "k8s." && c !in "/dra"
    ensures c in "k8s." + driver + "/dra" <==> c in driver
  {
    InVendor(driver, c);
    var vendor := "k8s." + driver;
    if c in vendor {
      var k :| 0 <= k < |vendor| && vendor[k] == c;
      assert (vendor + "/dra")[k] == c;
    }
  }

  // A runtime that is given this ID finds entry j of this spec.
  predicate Finds(spec: Spec, j: nat, id: string)
    requires j < |spec.devices|
  {
    match ParseID(id)
    case None => false
    case Some(parsed) => spec.kind == parsed.vendor + "/" + parsed.class_ && spec.devices[j].name == parsed.name
  }

  lemma FindsIff(driver: string, spec: Spec, j: nat, name: string)
    requires Plain(driver) && j < |spec.devices| && spec.kind == Kind(driver)
    ensures Finds(spec, j, QualifiedName(Vendor(driver), CDI_CLASS, name)) <==> spec.devices[j].name == name
  {
    IDReadsBack(driver, name);
  }

  // No share ID and an empty one are the same to the plugin.
  predicate SameShare(a: Option<string>, b: Option<string>) {
    a == b || (a in [None, Some("")] && b in [None, Some("")])
  }

  predicate SamePair(a: PreparedDevice, b: PreparedDevice) {
    a.deviceName == b.deviceName && SameShare(a.shareID, b.shareID)
  }

  ghost predicate DistinctPairs(prepared: seq<PreparedDevice>) {
    forall i, j :: 0 <= i < j < |prepared| ==> !SamePair(prepared[i], prepared[j])
  }

  // The one ID returned for device i leads a runtime to entry j of the claim's CDI spec.
  predicate Resolves(driver: string, uid: UID, prepared: seq<PreparedDevice>, i: nat, j: nat)
    requires i < |prepared| && j < |prepared|
  {
    |prepared[i].cdiDeviceIDs| == 1 && Finds(SpecFor(driver, uid, prepared), j, prepared[i].cdiDeviceIDs[0])
  }

  ghost predicate Addressed(driver: string, uid: UID, d: PreparedDevice) {
    ValidName(d.deviceName) && d.cdiDeviceIDs == ClaimDeviceIDs(driver, uid, d.deviceName, d.shareID)
  }

  lemma ResolvesIff(driver: string, uid: UID, prepared: seq<PreparedDevice>, i: nat, j: nat)
    requires i < |prepared| && j < |prepared| && Plain(driver)
    requires Addressed(driver, uid, prepared[i]) && Addressed(driver, uid, prepared[j])
    ensures Resolves(driver, uid, prepared, i, j) <==> SamePair(prepared[i], prepared[j])
  {
    var a, b := prepared[i], prepared[j];
    FindsIff(driver, SpecFor(driver, uid, prepared), j, CdiDeviceName(uid, a.deviceName, ShareText(a.shareID)));
    CdiNameInjective(uid, a.deviceName, ShareText(a.shareID), uid, b.deviceName, ShareText(b.shareID));
  }

  /** Every ID a Prepare returns leads a runtime to its own entry of the spec, and to
      that one only for all entries exactly when the (device, share) pairs differ. */
  lemma IDsResolve(driver: string, uid: UID, prepared: seq<PreparedDevice>)
    requires Plain(driver) && forall i :: 0 <= i < |prepared| ==> Addressed(driver, uid, prepared[i])
    ensures forall i :: 0 <= i < |prepared| ==> Resolves(driver, uid, prepared, i, i)
    ensures DistinctPairs(prepared) <==>
            forall i, j :: 0 <= i < |prepared| && 0 <= j < |prepared| && Resolves(driver, uid, prepared, i, j) ==>
              i == j
  {
    forall i, j | 0 <= i < |prepared| && 0 <= j < |prepared|
      ensures Resolves(driver, uid, prepared, i, j) <==> SamePair(prepared[i], prepared[j])
    {
      ResolvesIff(driver, uid, prepared, i, j);
    }
    if !DistinctPairs(prepared) {
      var i, j :| 0 <= i < j < |prepared| && SamePair(prepared[i], prepared[j]);
      assert Resolves(driver, uid, prepared, i, j);
    } else {
      forall i, j | 0 <= i < |prepared| && 0 <= j < |prepared| && Resolves(driver, uid, prepared, i, j) ensures i == j {
        assert SamePair(prepared[i], prepared[j]) && SamePair(prepared[j], prepared[i]);
      }
    }
  }
}
