/**
 A bundle that is accepted as PASS: one file for each control, a sign-off for each gate, and nothing else
 beside the manifest. A sign-off digests the other controls of its gate only, so no digest contains itself.
 */
module PassingBundle {
  import opened BundlePaths
  import opened EvidenceBundle
  import opened FiniteSets
  import opened Outcomes

  const PAYLOAD: Bytes := [123, 125]

  // ---------------------------------------------------------------- the files

  function Letter(k: nat): char {
    if k < 26 then 'a' + k as char else 'z'
  }

  /** The place of the file of the gate's k-th control. */
  function Place(gate: string, k: nat): Path {
    [gate, [Letter(k)]]
  }

  function Text(gate: string, k: nat): string {
    gate + "/" + [Letter(k)]
  }

  function GateByte(gate: string): bv8 {
    if gate == "A" then 65 else if gate == "B" then 66 else if gate == "C" then 67 else 68
  }

  function GateOfByte(b: bv8): string {
    if b == 65 then "A" else if b == 66 then "B" else if b == 67 then "C" else "D"
  }

  function ContentAt(p: Path): Bytes {
    if p == [MANIFEST] || |p| != 2 || p[1] == "" then PAYLOAD
    else [GateByte(p[0]), (p[1][0] as int % 256) as bv8]
  }

  predicate Slot(gate: string, k: nat) {
    gate in GATES && k < |RequiredControls(gate)|
  }

  function Places(): set<Path> {
    set gate, k: nat | gate in GATES && 0 <= k < |RequiredControls(gate)| :: Place(gate, k)
  }

  function Files(): Directory {
    Directory(map p | p in Places() + {[MANIFEST]} :: ContentAt(p), {})
  }

  // ---------------------------------------------------------------- the manifest

  function TargetValue(field: string): Value {
    if field == "migration_head" then EXPECTED_MIGRATION_HEAD
    else if field == "android_application_id" then EXPECTED_APPLICATION
    else if field == "android_version_code" then EXPECTED_VERSION_CODE
    else if field == "android_version_name" then EXPECTED_VERSION_NAME
    else Word("set")
  }

  function AllTargets(): Targets {
    map f | f in TARGET_FIELDS :: Some(TargetValue(f))
  }

  function Descriptor(gate: string, k: nat): Evidence {
    Evidence(Text(gate, k), Sha256(ContentAt(Place(gate, k))), "now", true)
  }

  function Position(gate: string, control: string): nat {
    match Find(RequiredControls(gate), (c: string) => c == control)
    case None => 0
    case Some(k) => k
  }

  function PassedGate(gate: string): Gate {
    Gate(PASS, map c | c in SetOf(RequiredControls(gate)) :: Control(PASS, [Descriptor(gate, Position(gate, c))]))
  }

  function Passed(): Manifest {
    Manifest(1, PASS, true, AllTargets(), Some("now"), Some("now"), map n | n in SetOf(GATES) :: PassedGate(n))
  }

  function SignoffOf(gate: string): Signoff {
    Signoff(1, gate, PASS, true, "now", OfTargets(TargetSnapshot(AllTargets(), gate)),
            OfControls(Snapshot(PassedGate(gate).controls)))
  }

  function Parsers(): Judges {
    Judges((b: Bytes) => if b == PAYLOAD then Some(Passed()) else None,
           (b: Bytes) => if |b| == 2 then Some(SignoffOf(GateOfByte(b[0]))) else None,
           (text: string) => Some(0), (field: string, v: Value) => true,
           (a: Bytes, b: Bytes, t: Targets) => true, (a: Bytes, b: Bytes, t: Targets) => true)
  }

  // ---------------------------------------------------------------- the controls are distinct

  /** Length and last letter tell the controls of a gate apart. */
  function Mark(control: string): (int, char) {
    (|control|, if control == "" then ' ' else control[|control| - 1])
  }

  function Marks(gate: string): seq<(int, char)> {
    if gate == "A" then
      [(23, 'p'), (27, 'l'), (22, 'y'), (21, 'y'), (26, 'w'), (19, 'n'), (29, 'l'), (37, 'l'), (16, 'f')]
    else if gate == "B" then
      [(20, 'l'), (13, 'r'), (13, 'n'), (12, 'r'), (31, 'g'), (19, 'y'), (34, 'n'), (23, 'l'), (24, 'l'), (13, 'l'),
       (23, 'e'), (16, 'f')]
    else if gate == "C" then
      [(21, 'e'), (18, '1'), (18, '3'), (15, 's'), (18, 's'), (16, 's'), (16, 'f')]
    else
      [(25, 'y'), (26, 'd'), (21, 'd'), (20, 'd'), (21, 'n'), (25, 's'), (14, 't'), (16, 'f')]
  }

  predicate Marked(gate: string) {
    var names, marks := RequiredControls(gate), Marks(gate);
    |names| == |marks| && forall k :: 0 <= k < |names| ==> Mark(names[k]) == marks[k]
  }

  lemma MarkedA()
    ensures Marked("A")
  {
  }

  lemma MarkedB()
    ensures Marked("B")
  {
  }

  lemma MarkedC()
    ensures Marked("C")
  {
  }

  lemma MarkedD()
    ensures Marked("D")
  {
  }

  lemma MarksDistinct(gate: string)
    ensures Unrepeated(Marks(gate)) && 7 <= |Marks(gate)| <= 12
  {
    hide EvidenceControls;
  }

  lemma ControlsDistinct(gate: string)
    requires gate in GATES
    ensures Unrepeated(RequiredControls(gate)) && 7 <= |RequiredControls(gate)| <= 12
  {
    hide RequiredControls, Mark, Marks;
    MarkedA();
    MarkedB();
    MarkedC();
    MarkedD();
    MarksDistinct(gate);
    var names := RequiredControls(gate);
    forall i, j | 0 <= i < j < |names| ensures names[i] != names[j] {
      assert Marks(gate)[i] != Marks(gate)[j];
      assert Mark(names[i]) == Marks(gate)[i] && Mark(names[j]) == Marks(gate)[j];
    }
  }

  lemma PositionOf(gate: string, k: nat)
    requires Slot(gate, k)
    ensures Position(gate, RequiredControls(gate)[k]) == k
  {
    hide RequiredControls;
    ControlsDistinct(gate);
    var found := Find(RequiredControls(gate), (c: string) => c == RequiredControls(gate)[k]);
    assert found.Some?;
  }

  // ---------------------------------------------------------------- the descriptors

  lemma LetterSafe(k: nat)
    ensures SafeChar(Letter(k)) && Letter(k) !in "./"
  {
  }

  lemma GateNamed(gate: string)
    requires gate in GATES
    ensures |gate| == 1 && 'A' <= gate[0] <= 'D'
  {
  }

  lemma GatesByByte(gate: string)
    requires gate in GATES
    ensures GateOfByte(GateByte(gate)) == gate
  {
  }

  /** The text of a descriptor is the name of its file. */
  lemma TextNames(gate: string, k: nat)
    requires gate in GATES
    ensures Proper(Place(gate, k)) && Join(Place(gate, k)) == Text(gate, k)
    ensures Parts(Text(gate, k)) == Place(gate, k) && Acceptable(Text(gate, k))
    ensures |Text(gate, k)| == 3 && Text(gate, k)[0] == gate[0] && Text(gate, k)[2] == Letter(k)
    ensures Text(gate, k) != MANIFEST
  {
    hide Parts, Split, Significant, Letter;
    GateNamed(gate);
    LetterSafe(k);
    var place, text := Place(gate, k), Text(gate, k);
    assert place[1..] == [[Letter(k)]];
    NameReadsBack(place);
    assert text == [gate[0], '/', Letter(k)];
    assert SafeChar(gate[0]) && SafeChar('/');
  }

  function Listed(gate: string, n: nat): (list: seq<Evidence>)
    ensures |list| == n && forall k :: 0 <= k < n ==> list[k] == Descriptor(gate, k)
  {
    seq(n, k requires 0 <= k < n => Descriptor(gate, k))
  }

  lemma PassedControl(gate: string, k: nat)
    requires Slot(gate, k)
    ensures var controls, name := PassedGate(gate).controls, RequiredControls(gate)[k];
      name in controls && controls[name] == Control(PASS, [Descriptor(gate, k)])
  {
    hide RequiredControls, Descriptor, Position;
    PositionOf(gate, k);
    assert RequiredControls(gate)[k] in SetOf(RequiredControls(gate));
  }

  lemma {:induction false} GateEvidence(gate: string, n: nat)
    requires gate in GATES && n <= |RequiredControls(gate)|
    ensures EvidenceOf(PassedGate(gate).controls, RequiredControls(gate)[..n]) == Listed(gate, n)
  {
    hide RequiredControls, Descriptor, PassedGate, EvidenceOf;
    if n == 0 {
      NoEvidence(PassedGate(gate).controls);
      assert RequiredControls(gate)[..0] == [];
    } else {
      GateEvidence(gate, n - 1);
      PassedControl(gate, n - 1);
      EvidenceNext(PassedGate(gate).controls, RequiredControls(gate), n - 1);
      assert Listed(gate, n) == Listed(gate, n - 1) + [Descriptor(gate, n - 1)];
    }
  }

  ghost predicate InSlot(e: Evidence, gates: seq<string>) {
    exists gate, k: nat :: gate in gates && Slot(gate, k) && e == Descriptor(gate, k)
  }

  /** The list holds the descriptor of every slot of these gates once, and nothing else. */
  ghost predicate Complete(list: seq<Evidence>, gates: seq<string>) {
    && (forall e :: e in list ==> InSlot(e, gates))
    && (forall gate, k: nat :: gate in gates && Slot(gate, k) ==> Descriptor(gate, k) in list)
    && Unrepeated(Texts(list)) && |list| <= 12 * |gates|
  }

  lemma SlotsApart(gate: string, k: nat, other: string, n: nat)
    requires Slot(gate, k) && Slot(other, n) && (gate != other || k != n)
    ensures Text(gate, k) != Text(other, n)
  {
    hide RequiredControls;
    TextNames(gate, k);
    TextNames(other, n);
    GateNamed(gate);
    GateNamed(other);
    ControlsDistinct(gate);
    ControlsDistinct(other);
    assert gate == [gate[0]] && other == [other[0]];
  }

  lemma OneMoreGate(list: seq<Evidence>, gates: seq<string>, gate: string)
    requires Complete(list, gates) && gate !in gates && gate in GATES
    ensures Complete(list + Listed(gate, |RequiredControls(gate)|), gates + [gate])
  {
    hide RequiredControls, Text, Place, ContentAt;
    ControlsDistinct(gate);
    var more := Listed(gate, |RequiredControls(gate)|);
    var all := list + more;
    forall e | e in all ensures InSlot(e, gates + [gate]) {
      if e in list {
        var other, k: nat :| other in gates && Slot(other, k) && e == Descriptor(other, k);
        assert other in gates + [gate];
      } else {
        var k :| 0 <= k < |more| && more[k] == e;
        assert Slot(gate, k) && gate in gates + [gate];
      }
    }
    forall other, k: nat | other in gates + [gate] && Slot(other, k) ensures Descriptor(other, k) in all {
      if other == gate {
        assert more[k] in more;
      }
    }
    forall i, j | 0 <= i < j < |all| ensures Texts(all)[i] != Texts(all)[j] {
      if j < |list| {
        assert Texts(list)[i] != Texts(list)[j];
      } else if i < |list| {
        assert list[i] in list;
        var other, k: nat :| other in gates && Slot(other, k) && list[i] == Descriptor(other, k);
        SlotsApart(other, k, gate, j - |list|);
      } else {
        SlotsApart(gate, i - |list|, gate, j - |list|);
      }
    }
  }

  lemma {:induction false} AllListed(gates: seq<string>)
    requires Unrepeated(gates) && forall k :: 0 <= k < |gates| ==> gates[k] in GATES
    ensures Complete(AllEvidence(Passed().gates, gates), gates)
  {
    hide RequiredControls, Complete, PassedGate, EvidenceOf;
    if gates == [] {
      assert Complete([], []) by {
        hide *;
        NothingListed();
      }
    } else {
      var n := |gates| - 1;
      var gate := gates[n];
      AllListed(gates[..n]);
      GateEvidence(gate, |RequiredControls(gate)|);
      var names := RequiredControls(gate);
      assert names[..|names|] == names;
      OneMoreGate(AllEvidence(Passed().gates, gates[..n]), gates[..n], gate);
      assert gates[..n] + [gate] == gates;
    }
  }

  lemma NothingListed()
    ensures Complete([], [])
  {
  }

  // ---------------------------------------------------------------- acceptance

  const NOW: Window := Window(Some(0), Some(0))

  lemma FileThere(gate: string, k: nat)
    requires Slot(gate, k)
    ensures Place(gate, k) in Files().files && Files().files[Place(gate, k)] == ContentAt(Place(gate, k))
  {
    hide RequiredControls, ContentAt;
    assert Place(gate, k) in Places();
  }

  lemma ContentThere(gate: string, k: nat)
    ensures |ContentAt(Place(gate, k))| == 2 && ContentAt(Place(gate, k))[0] == GateByte(gate)
  {
    hide GateByte, Letter;
    assert |Place(gate, k)| == 2 && Place(gate, k)[1] == [Letter(k)];
  }

  lemma DescriptorOk(gate: string, k: nat)
    requires Slot(gate, k)
    ensures EvidenceOk(Files(), Descriptor(gate, k), NOW, Parsers())
    ensures Place(gate, k) in Files().files && Files().files[Place(gate, k)] == ContentAt(Place(gate, k))
    ensures |ContentAt(Place(gate, k))| == 2 && ContentAt(Place(gate, k))[0] == GateByte(gate)
  {
    hide RequiredControls, Acceptable, Parts, Place, Text, Files, ContentAt, GateByte, Places;
    TextNames(gate, k);
    FileThere(gate, k);
    ContentThere(gate, k);
    NoLinks();
  }

  lemma {:induction false} TwoBytesEach(list: seq<Evidence>)
    requires forall e :: e in list ==> SizeOf(Files(), e) <= 2
    ensures ByteCount(Files(), list) <= 2 * |list|
  {
    if list != [] {
      hide SizeOf;
      TwoBytesEach(list[..|list| - 1]);
    }
  }

  lemma EvidenceAccepted(list: seq<Evidence>)
    requires Complete(list, GATES)
    ensures ListOk(Files(), list, NOW, Parsers())
    ensures InventoryOk(Files(), SetOf(Texts(list)))
  {
    hide EvidenceOk, Slot, Text, Place, ContentAt, Parts, Join, Places;
    forall e | e in list
      ensures EvidenceOk(Files(), e, NOW, Parsers()) && SizeOf(Files(), e) <= 2
    {
      var gate, k: nat :| gate in GATES && Slot(gate, k) && e == Descriptor(gate, k);
      DescriptorOk(gate, k);
      TextInPlace(gate, k);
    }
    TwoBytesEach(list);
    Inventoried(list);
  }

  lemma TextInPlace(gate: string, k: nat)
    requires Slot(gate, k)
    ensures Parts(Text(gate, k)) == Place(gate, k)
  {
    TextNames(gate, k);
  }

  lemma Inventoried(list: seq<Evidence>)
    requires Complete(list, GATES)
    ensures InventoryOk(Files(), SetOf(Texts(list)))
  {
    hide Complete, Files, Join;
    forall name ensures name in Names(Files()) <==> name in SetOf(Texts(list)) + {MANIFEST} {
      if name in Names(Files()) {
        NamesListed(list, name);
      }
      if name in SetOf(Texts(list)) + {MANIFEST} {
        ListedNamed(list, name);
      }
    }
    NoLinks();
  }

  lemma NoLinks()
    ensures Files().links == {} && Files().files.Keys == Places() + {[MANIFEST]}
  {
    hide Places, ContentAt;
  }

  lemma NamesListed(list: seq<Evidence>, name: string)
    requires Complete(list, GATES) && name in Names(Files())
    ensures name in SetOf(Texts(list)) + {MANIFEST}
  {
    hide Slot, Text, Place, ContentAt, Join, Files, Places;
    NoLinks();
    ManifestPath();
    var p :| p in Files().files && Join(p) == name;
    if p != [MANIFEST] {
      var gate, k := SlotAt(p);
      var i :| 0 <= i < |list| && list[i] == Descriptor(gate, k);
      assert Texts(list)[i] == name;
    }
  }

  lemma ListedNamed(list: seq<Evidence>, name: string)
    requires Complete(list, GATES) && name in SetOf(Texts(list)) + {MANIFEST}
    ensures name in Names(Files())
  {
    hide Slot, Text, Place, ContentAt, Join, Files, Places;
    NoLinks();
    ManifestPath();
    var p := [MANIFEST];
    if name in Texts(list) {
      var i :| 0 <= i < |list| && Texts(list)[i] == name;
      assert list[i] in list;
      var gate, k: nat :| gate in GATES && Slot(gate, k) && list[i] == Descriptor(gate, k);
      PlaceNamed(gate, k);
      p := Place(gate, k);
    }
    assert p in Files().files && Join(p) == name;
  }

  lemma SlotAt(p: Path) returns (gate: string, k: nat)
    requires p in Places()
    ensures gate in GATES && Slot(gate, k) && p == Place(gate, k) && Join(p) == Text(gate, k) && Proper(p)
  {
    hide RequiredControls;
    gate, k :| gate in GATES && 0 <= k < |RequiredControls(gate)| && p == Place(gate, k);
    TextNames(gate, k);
  }

  lemma PlaceNamed(gate: string, k: nat)
    requires Slot(gate, k)
    ensures Place(gate, k) in Files().files && Join(Place(gate, k)) == Text(gate, k)
  {
    hide RequiredControls, ContentAt;
    TextNames(gate, k);
    assert Place(gate, k) in Places();
  }

  lemma DirectoryIsOk()
    ensures DirectoryOk(Files())
  {
    hide Places, Files, Place, Text, Join, Slot;
    NoLinks();
    ManifestPath();
    forall p | p in Files().files ensures Proper(p) {
      if p != [MANIFEST] {
        var gate, k := SlotAt(p);
      }
    }
  }

  lemma SignoffSlot(gate: string)
    requires gate in GATES
    ensures var k := |RequiredControls(gate)| - 1; k >= 0 && Slot(gate, k) && RequiredControls(gate)[k] == SIGNOFF
  {
    hide EvidenceControls;
  }

  lemma TargetsKnown(gate: string, field: string)
    requires field in GateTargets(gate)
    ensures field in TARGET_FIELDS
  {
    var k :| 0 <= k < |GateTargets(gate)| && GateTargets(gate)[k] == field;
  }

  lemma PassedGateOk(gate: string)
    requires gate in GATES
    ensures AllTargets().Keys == TARGET_FIELDS && PassedGate(gate).status == PASS
    ensures GateOk(gate, PassedGate(gate), AllTargets())
  {
    hide RequiredControls, GateTargets, Descriptor, TargetValue, Position;
    var controls := PassedGate(gate).controls;
    assert forall c :: c in RequiredControls(gate) ==> c in controls && controls[c].status == PASS;
    forall f | f in GateTargets(gate) ensures f in AllTargets() && AllTargets()[f].Some? {
      TargetsKnown(gate, f);
    }
    assert TargetsSet(AllTargets(), gate);
  }

  lemma PassedReviewed()
    ensures Passed().targets.Keys == TARGET_FIELDS && Passed().gates.Keys == SetOf(GATES)
    ensures ReviewedOk(Passed())
  {
    hide EvidenceControls, PassedGate;
    Required();
  }

  lemma SignedOff(gate: string)
    requires gate in GATES
    ensures SIGNOFF in PassedGate(gate).controls
    ensures SignoffOk(Files(), gate, PassedGate(gate), AllTargets(), NOW, Parsers())
  {
    hide RequiredControls, Files, Snapshot, TargetSnapshot, PassedGate, Parts, Text, EvidenceOf, ContentAt;
    SignoffSlot(gate);
    var k := |RequiredControls(gate)| - 1;
    PassedControl(gate, k);
    DescriptorOk(gate, k);
    TextInPlace(gate, k);
    GatesByByte(gate);
  }

  lemma Reported(gate: string, first: string, second: string, judge: (Bytes, Bytes, Targets) -> bool)
    requires gate in GATES && first in RequiredControls(gate) && second in RequiredControls(gate)
    requires forall a, b, t :: judge(a, b, t)
    ensures ReportsOk(Files(), PassedGate(gate), first, second, AllTargets(), judge)
  {
    hide RequiredControls, Files, PassedGate, Parts, Text, ContentAt, Slot;
    ControlFile(gate, first);
    ControlFile(gate, second);
  }

  /** The control has one descriptor, of a file that is there. */
  lemma ControlFile(gate: string, control: string)
    requires gate in GATES && control in RequiredControls(gate)
    ensures control in PassedGate(gate).controls && |PassedGate(gate).controls[control].evidence| == 1
    ensures Parts(PassedGate(gate).controls[control].evidence[0].path) in Files().files
  {
    hide RequiredControls, Files, PassedGate, Parts, Text, ContentAt;
    var k :| 0 <= k < |RequiredControls(gate)| && RequiredControls(gate)[k] == control;
    PassedControl(gate, k);
    DescriptorOk(gate, k);
    TextInPlace(gate, k);
  }

  lemma ReportControls()
    ensures "resource_report_v1" in RequiredControls("C") && "internal_report_v3" in RequiredControls("C")
    ensures "restored_state_assertions" in RequiredControls("D") && "live_pid_abort" in RequiredControls("D")
  {
    assert RequiredControls("C")[1] == "resource_report_v1" && RequiredControls("C")[2] == "internal_report_v3";
    assert RequiredControls("D")[5] == "restored_state_assertions" && RequiredControls("D")[6] == "live_pid_abort";
  }

  lemma PassedGates()
    ensures forall n :: n in Passed().gates ==>
      n in GATES && GateOk(n, Passed().gates[n], AllTargets()) && Passed().gates[n].status == PASS
    ensures AllPass(Passed().gates)
  {
    hide PassedGate, GateOk, TargetValue, GateTargets, EvidenceControls;
    forall n | n in GATES ensures GateOk(n, Passed().gates[n], AllTargets()) && Passed().gates[n].status == PASS {
      PassedGateOk(n);
    }
  }

  lemma TargetsAccepted()
    ensures TargetsOk(AllTargets(), Parsers())
  {
    hide TargetValue;
  }

  lemma PassedWindow()
    ensures WindowOf(Passed(), Parsers()) == NOW && WindowOk(Passed(), Parsers())
  {
    hide PassedGate, AllTargets;
  }

  lemma PassedStatus()
    ensures StatusOk(Passed(), Parsers())
  {
    hide PassedGate, GateOk, ReviewedOk, AllTargets, TargetsOk, WindowOk, WindowOf, EvidenceControls;
    hide AllPass, GateTargets, Parsers;
    Required();
    PassedReviewed();
    PassedGates();
    TargetsAccepted();
    PassedWindow();
    assert ShapeOk(Passed(), Parsers());
  }

  lemma PassedBundle()
    ensures BundleOk(Files(), Passed(), Parsers())
  {
    hide StatusOk, ListOk, InventoryOk, Files, ReportsOk, SignoffOk, RequiredControls, AllEvidence;
    hide Complete, PassedGate;
    Required();
    PassedStatus();
    PassedWindow();
    GatesUnrepeated();
    AllListed(GATES);
    EvidenceAccepted(AllEvidence(Passed().gates, GATES));
    ReportControls();
    Reported("C", "resource_report_v1", "internal_report_v3", Parsers().resourceReports);
    Reported("D", "restored_state_assertions", "live_pid_abort", Parsers().restoreReports);
    forall n | n in Passed().gates
      ensures SIGNOFF in Passed().gates[n].controls && GatePassOk(Files(), Passed(), n, Parsers())
    {
      SignedOff(n);
    }
  }

  lemma GatesUnrepeated()
    ensures Unrepeated(GATES)
  {
  }

  /** A PASS is within reach: a directory and a manifest that are accepted, sign-offs and reports included. */
  lemma PassIsPossible()
    ensures exists dir, j :: DirectoryOk(dir) && Accepted(dir, j) && ManifestOf(dir, j).value.status == PASS
  {
    hide Places, BundleOk, StatusOk;
    DirectoryIsOk();
    PassedBundle();
    NoLinks();
    assert ManifestOf(Files(), Parsers()) == Some(Passed());
    assert Accepted(Files(), Parsers());
  }
}
