/**
 The closed evidence bundle (scripts/admin_target_acceptance.py, `validate_bundle`): what it accepts,
 stated on the list of all evidence descriptors, and the nested loops that check it one by one.
 SHA-256 and canonical JSON are constructors, hence injective.
 */
module EvidenceBundle {
  import opened BundlePaths
  import opened FiniteSets
  import opened Outcomes

  const MAX_MANIFEST_BYTES: nat := 262144
  const MAX_ARTIFACT_BYTES: nat := 256 * 1024 * 1024
  const MAX_BUNDLE_BYTES: nat := 1024 * 1024 * 1024
  const MAX_ARTIFACTS: nat := 256
  const EXPECTED_MIGRATION_HEAD: Value := Word("0060_local_bridge_authority")
  const EXPECTED_APPLICATION: Value := Word("app.autplay")
  const EXPECTED_VERSION_CODE: Value := Number(11)
  const EXPECTED_VERSION_NAME: Value := Word("0.3.7-metadata")
  const MANIFEST: string := "manifest.json"
  const SIGNOFF: string := "operator_signoff"

  // ---------------------------------------------------------------- documents

  datatype Value = Word(text: string) | Number(n: int)
  type Targets = map<string, Option<Value>>

  datatype Status = PENDING | PASS | FAIL | UNKNOWN

  /** The digest a descriptor claims: that of some bytes, or no digest at all. */
  datatype FileDigest = Sha256(content: Bytes) | NoDigest

  datatype Evidence = Evidence(path: string, sha256: FileDigest, capturedAt: string, reviewed: bool)
  datatype Control = Control(status: Status, evidence: seq<Evidence>)
  datatype Gate = Gate(status: Status, controls: map<string, Control>)

  datatype Manifest = Manifest(version: int, status: Status, sourceOk: bool, targets: Targets,
                               startedAt: Option<string>, endedAt: Option<string>, gates: map<string, Gate>)

  datatype TargetsDigest = OfTargets(targets: Targets) | NoTargets
  datatype ControlsDigest = OfControls(controls: map<string, Control>) | NoControls

  datatype Signoff = Signoff(version: int, gate: string, status: Status, reviewerOk: bool, reviewedAt: string,
                             targetsDigest: TargetsDigest, evidenceDigest: ControlsDigest)

  datatype Directory = Directory(files: map<Path, Bytes>, links: set<Path>)

  /** The parsers and the checks of single values and of gate reports, which the model leaves open. */
  datatype Judges = Judges(
    manifest: Bytes -> Option<Manifest>,
    signoff: Bytes -> Option<Signoff>,
    time: string -> Option<int>,
    targetOk: (string, Value) -> bool,
    resourceReports: (Bytes, Bytes, Targets) -> bool,
    restoreReports: (Bytes, Bytes, Targets) -> bool)

  const GATES: seq<string> := ["A", "B", "C", "D"]

  function EvidenceControls(gate: string): seq<string> {
    if gate == "A" then
      ["private_https_origin_rp", "third_device_network_denial", "windows_hello_ceremony",
       "a55_platform_ceremony", "admin_en_ru_desktop_narrow", "keyboard_navigation",
       "synced_passkey_network_denial", "credential_revocation_session_refusal"]
    else if gate == "B" then
      ["a55_reviewed_install", "pairing_owner", "pairing_admin", "pairing_user",
       "encrypted_process_death_pending", "txt_manual_recovery", "recovery_rotation_total_revocation",
       "deletion_request_cancel", "consent_grant_withdrawal", "quota_refusal", "receipts_database_state"]
    else if gate == "C" then
      ["joint_workload_recipe", "resource_report_v1", "internal_report_v3", "all_audio_paths",
       "all_internal_paths", "metrics_outcomes"]
    else
      ["isolated_restore_identity", "normal_supervisors_stopped", "deletion_ledger_guard",
       "consent_ledger_guard", "trusted_offline_drain", "restored_state_assertions", "live_pid_abort"]
  }

  /** Every gate ends with its operator's sign-off. */
  function RequiredControls(gate: string): seq<string> {
    EvidenceControls(gate) + [SIGNOFF]
  }

  function GateTargets(gate: string): seq<string> {
    if gate == "A" then
      ["server_build_sha256", "migration_head", "admin_origin_sha256", "rp_id_sha256", "tls_chain_sha256",
       "a55_serial_sha256", "a55_build_sha256", "windows_build_sha256", "browser_build_sha256",
       "network_policy_sha256", "server_identity_sha256"]
    else if gate == "B" then
      ["server_build_sha256", "migration_head", "android_apk_sha256", "android_application_id",
       "android_version_code", "android_version_name", "android_signing_sha256", "a55_serial_sha256",
       "a55_build_sha256", "server_identity_sha256"]
    else if gate == "C" then
      ["server_build_sha256", "migration_head", "server_identity_sha256", "environment_sha256"]
    else
      ["server_build_sha256", "migration_head", "server_identity_sha256", "environment_sha256", "backup_sha256"]
  }

  const TARGET_FIELDS: set<string> := {
    "server_build_sha256", "migration_head", "admin_origin_sha256", "rp_id_sha256", "tls_chain_sha256",
    "android_apk_sha256", "android_application_id", "android_version_code", "android_version_name",
    "android_signing_sha256", "a55_serial_sha256", "a55_build_sha256", "windows_build_sha256",
    "browser_build_sha256", "network_policy_sha256", "server_identity_sha256", "environment_sha256",
    "backup_sha256"}

  // ---------------------------------------------------------------- what is accepted

  datatype Window = Window(started: Option<int>, ended: Option<int>)

  predicate InWindow(w: Window, time: Option<int>) {
    w.started.Some? && w.ended.Some? && time.Some? && w.started.value <= time.value <= w.ended.value
  }

  function TimeOf(text: Option<string>, j: Judges): Option<int> {
    if text.None? then None else j.time(text.value)
  }

  /** Both ends of the acceptance window or neither, in order. */
  predicate WindowOk(m: Manifest, j: Judges) {
    var w := Window(TimeOf(m.startedAt, j), TimeOf(m.endedAt, j));
    && (m.startedAt.Some? <==> w.started.Some?) && (m.endedAt.Some? <==> w.ended.Some?)
    && (w.started.Some? <==> w.ended.Some?)
    && (w.started.Some? && w.ended.Some? ==> w.started.value <= w.ended.value)
  }

  predicate TargetsOk(targets: Targets, j: Judges) {
    && targets.Keys == TARGET_FIELDS
    && forall f :: f in targets && targets[f].Some? ==> j.targetOk(f, targets[f].value)
  }

  predicate Linked(dir: Directory, path: Path) {
    exists n :: 1 <= n <= |path| && path[..n] in dir.links
  }

  /** One descriptor: an acceptable path to a regular file of the claimed digest, captured in time. */
  predicate EvidenceOk(dir: Directory, e: Evidence, w: Window, j: Judges) {
    && Acceptable(e.path)
    && !Linked(dir, Parts(e.path))
    && Parts(e.path) in dir.files
    && e.path != MANIFEST
    && e.sha256.Sha256?
    && e.reviewed
    && InWindow(w, j.time(e.capturedAt))
    && var content := dir.files[Parts(e.path)];
       1 <= |content| <= MAX_ARTIFACT_BYTES && e.sha256 == Sha256(content)
  }

  function SizeOf(dir: Directory, e: Evidence): nat {
    if Parts(e.path) in dir.files then |dir.files[Parts(e.path)]| else 0
  }

  function ByteCount(dir: Directory, list: seq<Evidence>): nat {
    if list == [] then 0 else ByteCount(dir, list[..|list| - 1]) + SizeOf(dir, list[|list| - 1])
  }

  function Texts(list: seq<Evidence>): (texts: seq<string>)
    ensures |texts| == |list| && forall i :: 0 <= i < |list| ==> texts[i] == list[i].path
  {
    seq(|list|, i requires 0 <= i < |list| => list[i].path)
  }

  /** Descriptors that are good one by one, name no path twice, and stay within the bounds. */
  predicate ListOk(dir: Directory, list: seq<Evidence>, w: Window, j: Judges) {
    && (forall i :: 0 <= i < |list| ==> EvidenceOk(dir, list[i], w, j))
    && Unrepeated(Texts(list))
    && |list| <= MAX_ARTIFACTS
    && ByteCount(dir, list) <= MAX_BUNDLE_BYTES
  }

  predicate ControlOk(c: Control) {
    c.status != UNKNOWN && |c.evidence| <= MAX_ARTIFACTS && (c.status == PASS ==> c.evidence != [])
  }

  predicate TargetsSet(targets: Targets, gate: string)
    requires targets.Keys == TARGET_FIELDS
  {
    forall f :: f in GateTargets(gate) ==> f in targets && targets[f].Some?
  }

  predicate ControlsPass(controls: map<string, Control>, names: seq<string>) {
    forall c :: c in names ==> c in controls && controls[c].status == PASS
  }

  /** Neither a false PASS nor a stale PENDING. */
  predicate StatusAgrees(declared: Status, passes: bool) {
    declared != UNKNOWN && (declared == PASS ==> passes) && (declared == PENDING ==> !passes)
  }

  predicate GateOk(name: string, g: Gate, targets: Targets)
    requires targets.Keys == TARGET_FIELDS
  {
    && g.controls.Keys == SetOf(RequiredControls(name))
    && (forall c :: c in g.controls ==> ControlOk(g.controls[c]))
    && StatusAgrees(g.status, ControlsPass(g.controls, RequiredControls(name)) && TargetsSet(targets, name))
  }

  /** The descriptors of the named controls, in order. */
  function EvidenceOf(controls: map<string, Control>, names: seq<string>): seq<Evidence> {
    if names == [] then []
    else EvidenceOf(controls, names[..|names| - 1])
         + (if names[|names| - 1] in controls then controls[names[|names| - 1]].evidence else [])
  }

  lemma NoEvidence(controls: map<string, Control>)
    ensures EvidenceOf(controls, []) == []
  {
  }

  lemma EvidenceNext(controls: map<string, Control>, names: seq<string>, k: nat)
    requires k < |names| && names[k] in controls
    ensures EvidenceOf(controls, names[..k + 1]) == EvidenceOf(controls, names[..k]) + controls[names[k]].evidence
  {
    assert names[..k + 1][..k] == names[..k];
  }

  /** And those of the named gates. */
  function AllEvidence(gates: map<string, Gate>, names: seq<string>): seq<Evidence> {
    if names == [] then []
    else AllEvidence(gates, names[..|names| - 1])
         + (if names[|names| - 1] in gates
            then EvidenceOf(gates[names[|names| - 1]].controls, RequiredControls(names[|names| - 1])) else [])
  }

  function Names(dir: Directory): set<string> {
    set p | p in dir.files :: Join(p)
  }

  /** No link, and no file but the manifest and what the descriptors name. */
  predicate InventoryOk(dir: Directory, referenced: set<string>) {
    dir.links == {} && Names(dir) == referenced + {MANIFEST}
  }

  function Snapshot(controls: map<string, Control>): map<string, Control> {
    controls - {SIGNOFF}
  }

  function TargetSnapshot(targets: Targets, gate: string): Targets {
    map f | f in targets && f in GateTargets(gate) :: targets[f]
  }

  /** The sign-off of a gate: one file, whose digests are those of the gate's targets and of all its other
      controls, reviewed after the last evidence and before its own capture. */
  predicate SignoffOk(dir: Directory, name: string, g: Gate, targets: Targets, w: Window, j: Judges)
    requires SIGNOFF in g.controls
  {
    && |g.controls[SIGNOFF].evidence| == 1
    && var e := g.controls[SIGNOFF].evidence[0];
       && Parts(e.path) in dir.files
       && 1 <= |dir.files[Parts(e.path)]| <= MAX_MANIFEST_BYTES
       && j.signoff(dir.files[Parts(e.path)]).Some?
       && var s := j.signoff(dir.files[Parts(e.path)]).value;
          && s.version == 1 && s.gate == name && s.status == PASS && s.reviewerOk
          && InWindow(w, j.time(s.reviewedAt))
          && (forall d :: d in EvidenceOf(Snapshot(g.controls), RequiredControls(name)) ==>
                j.time(d.capturedAt).Some? ==> j.time(d.capturedAt).value <= j.time(s.reviewedAt).value)
          && j.time(e.capturedAt).Some? && j.time(s.reviewedAt).value <= j.time(e.capturedAt).value
          && s.targetsDigest == OfTargets(TargetSnapshot(targets, name))
          && s.evidenceDigest == OfControls(Snapshot(g.controls))
  }

  /** Gates C and D have one report of each of two kinds, which agree with the targets. */
  predicate ReportsOk(dir: Directory, g: Gate, first: string, second: string, targets: Targets,
                      judge: (Bytes, Bytes, Targets) -> bool)
  {
    && first in g.controls && second in g.controls
    && |g.controls[first].evidence| == 1 && |g.controls[second].evidence| == 1
    && var p, q := Parts(g.controls[first].evidence[0].path), Parts(g.controls[second].evidence[0].path);
       p in dir.files && q in dir.files && judge(dir.files[p], dir.files[q], targets)
  }

  predicate ReviewedOk(m: Manifest)
    requires m.targets.Keys == TARGET_FIELDS && m.gates.Keys == SetOf(GATES)
  {
    Required();
    && ((exists n :: n in m.gates && m.gates[n].status == PASS) ==>
          m.targets["migration_head"] == Some(EXPECTED_MIGRATION_HEAD))
    && (m.gates["B"].status == PASS ==>
          && m.targets["android_application_id"] == Some(EXPECTED_APPLICATION)
          && m.targets["android_version_code"] == Some(EXPECTED_VERSION_CODE)
          && m.targets["android_version_name"] == Some(EXPECTED_VERSION_NAME))
  }

  lemma Required()
    ensures SetOf(GATES) == {"A", "B", "C", "D"}
    ensures forall n :: SIGNOFF in RequiredControls(n)
  {
    hide EvidenceControls;
    assert GATES[0] == "A" && GATES[1] == "B" && GATES[2] == "C" && GATES[3] == "D";
  }

  predicate ShapeOk(m: Manifest, j: Judges) {
    && m.version == 1 && m.status != UNKNOWN && m.sourceOk
    && TargetsOk(m.targets, j) && WindowOk(m, j)
    && m.gates.Keys == SetOf(GATES)
    && forall n :: n in m.gates ==> GateOk(n, m.gates[n], m.targets)
  }

  function WindowOf(m: Manifest, j: Judges): Window {
    Window(TimeOf(m.startedAt, j), TimeOf(m.endedAt, j))
  }

  predicate GatePassOk(dir: Directory, m: Manifest, name: string, j: Judges)
    requires name in m.gates && SIGNOFF in m.gates[name].controls
  {
    m.gates[name].status == PASS ==> SignoffOk(dir, name, m.gates[name], m.targets, WindowOf(m, j), j)
  }

  predicate AllPass(gates: map<string, Gate>) {
    forall n :: n in GATES ==> n in gates && gates[n].status == PASS
  }

  /** What the manifest says of itself: well-formed, reviewed versions only, and a status that agrees with
      the gates. */
  predicate StatusOk(m: Manifest, j: Judges) {
    Required();
    && ShapeOk(m, j)
    && ReviewedOk(m)
    && StatusAgrees(m.status, AllPass(m.gates))
    && (AllPass(m.gates) ==> WindowOf(m, j).started.Some?)
  }

  predicate BundleOk(dir: Directory, m: Manifest, j: Judges) {
    Required();
    && StatusOk(m, j)
    && ListOk(dir, AllEvidence(m.gates, GATES), WindowOf(m, j), j)
    && InventoryOk(dir, SetOf(Texts(AllEvidence(m.gates, GATES))))
    && (m.gates["C"].status == PASS ==>
          ReportsOk(dir, m.gates["C"], "resource_report_v1", "internal_report_v3", m.targets, j.resourceReports))
    && (m.gates["D"].status == PASS ==>
          ReportsOk(dir, m.gates["D"], "restored_state_assertions", "live_pid_abort", m.targets, j.restoreReports))
    && (forall n :: n in m.gates ==> GatePassOk(dir, m, n, j))
  }

  /** The manifest is a regular file of bounded size that parses. */
  function ManifestOf(dir: Directory, j: Judges): Option<Manifest> {
    if [MANIFEST] in dir.links || [MANIFEST] !in dir.files then None
    else if !(1 <= |dir.files[[MANIFEST]]| <= MAX_MANIFEST_BYTES) then None
    else j.manifest(dir.files[[MANIFEST]])
  }

  predicate Accepted(dir: Directory, j: Judges) {
    ManifestOf(dir, j).Some? && BundleOk(dir, ManifestOf(dir, j).value, j)
  }

  // ---------------------------------------------------------------- what acceptance means

  /** What a file system guarantees of the names in a directory. */
  predicate DirectoryOk(dir: Directory) {
    forall p :: p in dir.files ==> Proper(p)
  }

  /** In a closed inventory every descriptor spells its path the way the directory does. */
  lemma Spelled(dir: Directory, list: seq<Evidence>, e: Evidence)
    requires DirectoryOk(dir) && InventoryOk(dir, SetOf(Texts(list))) && e in list
    ensures Parts(e.path) in dir.files && Join(Parts(e.path)) == e.path
  {
    var i :| 0 <= i < |list| && list[i] == e;
    assert Texts(list)[i] in SetOf(Texts(list));
    assert e.path in Names(dir);
    var p :| p in dir.files && Join(p) == e.path;
    NameReadsBack(p);
  }

  lemma ManifestPath()
    ensures Proper([MANIFEST]) && Join([MANIFEST]) == MANIFEST
  {
    assert '/' !in MANIFEST;
  }

  /** Good descriptors in a closed inventory. */
  predicate Closed(dir: Directory, list: seq<Evidence>, w: Window, j: Judges) {
    DirectoryOk(dir) && ListOk(dir, list, w, j) && InventoryOk(dir, SetOf(Texts(list)))
  }

  lemma AcceptedIsClosed(dir: Directory, j: Judges)
    requires DirectoryOk(dir) && Accepted(dir, j)
    ensures var m := ManifestOf(dir, j).value; Closed(dir, AllEvidence(m.gates, GATES), WindowOf(m, j), j)
  {
    hide ShapeOk, ReviewedOk, ReportsOk, GatePassOk, StatusAgrees, ListOk, InventoryOk, AllEvidence;
  }

  /** The descriptors of a closed bundle are in bijection with the files other than the manifest: each names
      a file of the claimed digest, no two the same one, and every file is named. */
  lemma Bijection(dir: Directory, list: seq<Evidence>, w: Window, j: Judges)
    requires Closed(dir, list, w, j)
    ensures forall e :: e in list ==>
      && Parts(e.path) in dir.files && Parts(e.path) != [MANIFEST]
      && e.sha256 == Sha256(dir.files[Parts(e.path)])
    ensures forall a, b :: 0 <= a < b < |list| ==> Parts(list[a].path) != Parts(list[b].path)
    ensures forall p :: p in dir.files && p != [MANIFEST] ==> exists e :: e in list && Parts(e.path) == p
  {
    hide Acceptable, Parts, Join;
    ManifestPath();
    forall e | e in list
      ensures Parts(e.path) in dir.files && Parts(e.path) != [MANIFEST]
      ensures e.sha256 == Sha256(dir.files[Parts(e.path)])
    {
      Spelled(dir, list, e);
      var i :| 0 <= i < |list| && list[i] == e;
      assert EvidenceOk(dir, list[i], w, j);
    }
    forall a, b | 0 <= a < b < |list| ensures Parts(list[a].path) != Parts(list[b].path) {
      Spelled(dir, list, list[a]);
      Spelled(dir, list, list[b]);
      assert Texts(list)[a] != Texts(list)[b];
    }
    forall p | p in dir.files && p != [MANIFEST] ensures exists e :: e in list && Parts(e.path) == p {
      NameReadsBack(p);
      NameReadsBack([MANIFEST]);
      assert Join(p) in Names(dir);
      assert Join(p) in SetOf(Texts(list));
      var i :| 0 <= i < |list| && Texts(list)[i] == Join(p);
      assert list[i] in list;
    }
  }

  function PathsOf(list: seq<Evidence>): (paths: seq<Path>)
    ensures |paths| == |list| && forall i :: 0 <= i < |list| ==> paths[i] == Parts(list[i].path)
  {
    seq(|list|, i requires 0 <= i < |list| => Parts(list[i].path))
  }

  lemma LastOff(paths: seq<Path>)
    requires Unrepeated(paths) && paths != []
    ensures var n := |paths| - 1;
      Unrepeated(paths[..n]) && SetOf(paths[..n]) == SetOf(paths) - {paths[n]}
  {
    var n := |paths| - 1;
    assert paths == paths[..n] + [paths[n]];
  }

  lemma {:induction false} CountFiles(files: map<Path, Bytes>, dir: Directory, list: seq<Evidence>)
    requires forall p :: p in files ==> p in dir.files && dir.files[p] == files[p]
    requires Unrepeated(PathsOf(list)) && SetOf(PathsOf(list)) == files.Keys
    ensures |files| == |list| && TotalSize(files) == ByteCount(dir, list)
  {
    hide Parts, TotalSize, Unrepeated;
    if list == [] {
      assert files.Keys == {};
      assert files == map[];
      NoFiles();
    } else {
      var n := |list| - 1;
      var last := PathsOf(list)[n];
      var rest := files - {last};
      LastOff(PathsOf(list));
      TotalWithout(files, last);
      assert PathsOf(list[..n]) == PathsOf(list)[..n];
      CountFiles(rest, dir, list[..n]);
      assert files.Keys == rest.Keys + {last};
    }
  }

  lemma NoFiles()
    ensures TotalSize(map[]) == 0
  {
  }

  /** The counts of a closed bundle are the true ones: the files but the manifest, and their bytes. */
  lemma CountsAreTrue(dir: Directory, list: seq<Evidence>, w: Window, j: Judges)
    requires Closed(dir, list, w, j)
    ensures [MANIFEST] in dir.files
    ensures |list| == |dir.files| - 1 && |list| <= MAX_ARTIFACTS
    ensures ByteCount(dir, list) == TotalSize(dir.files - {[MANIFEST]}) && ByteCount(dir, list) <= MAX_BUNDLE_BYTES
  {
    Bijection(dir, list, w, j);
    ManifestIsThere(dir, list);
    hide Parts, Join, EvidenceOk, TotalSize, ByteCount, InventoryOk;
    PathsAreFiles(dir, list);
    CountFiles(dir.files - {[MANIFEST]}, dir, list);
    assert dir.files.Keys == (dir.files - {[MANIFEST]}).Keys + {[MANIFEST]};
  }

  lemma ManifestIsThere(dir: Directory, list: seq<Evidence>)
    requires DirectoryOk(dir) && InventoryOk(dir, SetOf(Texts(list)))
    ensures [MANIFEST] in dir.files
  {
    hide Parts;
    ManifestPath();
    assert MANIFEST in Names(dir);
    var p :| p in dir.files && Join(p) == MANIFEST;
    NameReadsBack(p);
    NameReadsBack([MANIFEST]);
  }

  lemma PathsAreFiles(dir: Directory, list: seq<Evidence>)
    requires forall e :: e in list ==> Parts(e.path) in dir.files && Parts(e.path) != [MANIFEST]
    requires forall a, b :: 0 <= a < b < |list| ==> Parts(list[a].path) != Parts(list[b].path)
    requires forall p :: p in dir.files && p != [MANIFEST] ==> exists e :: e in list && Parts(e.path) == p
    ensures Unrepeated(PathsOf(list)) && SetOf(PathsOf(list)) == (dir.files - {[MANIFEST]}).Keys
  {
    hide Parts;
    forall i | 0 <= i < |list| ensures PathsOf(list)[i] in dir.files - {[MANIFEST]} {
      assert list[i] in list;
    }
    forall p | p in dir.files - {[MANIFEST]} ensures p in SetOf(PathsOf(list)) {
      var e :| e in list && Parts(e.path) == p;
      var i :| 0 <= i < |list| && list[i] == e;
      assert PathsOf(list)[i] == p;
    }
  }

  /** A returned PASS means that all four gates pass, every control with evidence and every gate target set,
      inside a fixed acceptance window. */
  lemma PassIsComplete(m: Manifest, j: Judges, name: string, control: string, field: string)
    requires StatusOk(m, j) && m.status == PASS
    requires name in GATES && control in RequiredControls(name) && field in GateTargets(name)
    ensures name in m.gates && m.gates[name].status == PASS
    ensures control in m.gates[name].controls && m.gates[name].controls[control].status == PASS
    ensures m.gates[name].controls[control].evidence != []
    ensures field in m.targets && m.targets[field].Some?
    ensures WindowOf(m, j).started.Some? && WindowOf(m, j).ended.Some?
    ensures "migration_head" in m.targets && m.targets["migration_head"] == Some(EXPECTED_MIGRATION_HEAD)
  {
    hide RequiredControls, GateTargets;
    Required();
    assert AllPass(m.gates) && GateOk(name, m.gates[name], m.targets);
    assert ControlOk(m.gates[name].controls[control]);
  }

  /** A gate that passes in an accepted bundle. */
  predicate Passing(dir: Directory, m: Manifest, name: string, j: Judges) {
    && name in GATES && name in m.gates && SIGNOFF in m.gates[name].controls
    && m.gates[name].controls.Keys == SetOf(RequiredControls(name))
    && SignoffOk(dir, name, m.gates[name], m.targets, WindowOf(m, j), j)
    && ListOk(dir, AllEvidence(m.gates, GATES), WindowOf(m, j), j)
  }

  lemma AcceptedPasses(dir: Directory, j: Judges, name: string)
    requires Accepted(dir, j) && name in GATES
    ensures name in ManifestOf(dir, j).value.gates
    ensures ManifestOf(dir, j).value.gates[name].status == PASS ==> Passing(dir, ManifestOf(dir, j).value, name, j)
  {
    hide ListOk, InventoryOk, ReportsOk, EvidenceControls, GateTargets, ReviewedOk, StatusAgrees, SignoffOk;
    Required();
    var m := ManifestOf(dir, j).value;
    assert GateOk(name, m.gates[name], m.targets) && GatePassOk(dir, m, name, j);
  }

  /** The sign-off file of a passing gate fixes the gate's targets and every byte of its other evidence: two
      bundles with the same sign-off bytes agree on both. */
  lemma SignoffDetermines(one: Directory, two: Directory, m: Manifest, n: Manifest, j: Judges, name: string,
                          control: string)
    requires Passing(one, m, name, j) && Passing(two, n, name, j)
    requires SignoffBytes(one, m, name) == SignoffBytes(two, n, name)
    requires control in RequiredControls(name) && control != SIGNOFF
    ensures TargetSnapshot(m.targets, name) == TargetSnapshot(n.targets, name)
    ensures control in m.gates[name].controls && control in n.gates[name].controls
    ensures m.gates[name].controls[control] == n.gates[name].controls[control]
    ensures forall e :: e in m.gates[name].controls[control].evidence ==>
      && Parts(e.path) in one.files && Parts(e.path) in two.files
      && one.files[Parts(e.path)] == two.files[Parts(e.path)]
  {
    hide ListOk, RequiredControls, GateTargets, SignoffOk, SignoffBytes, Parts;
    SameSnapshots(one, two, m, n, name, j);
    assert control in Snapshot(m.gates[name].controls) && control in Snapshot(n.gates[name].controls);
    forall e | e in m.gates[name].controls[control].evidence
      ensures Parts(e.path) in one.files && Parts(e.path) in two.files
      ensures one.files[Parts(e.path)] == two.files[Parts(e.path)]
    {
      Included(one, m, j, name, control, e);
      Included(two, n, j, name, control, e);
    }
  }

  lemma SameSnapshots(one: Directory, two: Directory, m: Manifest, n: Manifest, name: string, j: Judges)
    requires name in m.gates && name in n.gates
    requires SIGNOFF in m.gates[name].controls && SIGNOFF in n.gates[name].controls
    requires SignoffOk(one, name, m.gates[name], m.targets, WindowOf(m, j), j)
    requires SignoffOk(two, name, n.gates[name], n.targets, WindowOf(n, j), j)
    requires SignoffBytes(one, m, name) == SignoffBytes(two, n, name)
    ensures TargetSnapshot(m.targets, name) == TargetSnapshot(n.targets, name)
    ensures Snapshot(m.gates[name].controls) == Snapshot(n.gates[name].controls)
  {
  }

  /** The bytes of the sign-off file, if the gate has one. */
  function SignoffBytes(dir: Directory, m: Manifest, name: string): Option<Bytes> {
    if name !in m.gates || SIGNOFF !in m.gates[name].controls then None
    else if |m.gates[name].controls[SIGNOFF].evidence| != 1 then None
    else
      var p := Parts(m.gates[name].controls[SIGNOFF].evidence[0].path);
      if p in dir.files then Some(dir.files[p]) else None
  }

  lemma {:induction false} InControls(controls: map<string, Control>, names: seq<string>, control: string, e: Evidence)
    requires control in names && control in controls && e in controls[control].evidence
    ensures e in EvidenceOf(controls, names)
  {
    var n := |names| - 1;
    if names[n] != control {
      assert control in names[..n];
      InControls(controls, names[..n], control, e);
    }
  }

  lemma {:induction false} InGates(gates: map<string, Gate>, names: seq<string>, name: string, e: Evidence)
    requires name in names && name in gates && e in EvidenceOf(gates[name].controls, RequiredControls(name))
    ensures e in AllEvidence(gates, names)
  {
    hide RequiredControls, EvidenceOf;
    var n := |names| - 1;
    if names[n] != name {
      assert name in names[..n];
      InGates(gates, names[..n], name, e);
    }
  }

  lemma Included(dir: Directory, m: Manifest, j: Judges, name: string, control: string, e: Evidence)
    requires ListOk(dir, AllEvidence(m.gates, GATES), WindowOf(m, j), j)
    requires name in GATES && name in m.gates && control in RequiredControls(name)
    requires control in m.gates[name].controls && e in m.gates[name].controls[control].evidence
    ensures EvidenceOk(dir, e, WindowOf(m, j), j)
  {
    hide EvidenceOk, RequiredControls;
    InControls(m.gates[name].controls, RequiredControls(name), control, e);
    InGates(m.gates, GATES, name, e);
    var list := AllEvidence(m.gates, GATES);
    var i :| 0 <= i < |list| && list[i] == e;
  }

  // ---------------------------------------------------------------- a fresh bundle

  function FreshGate(name: string): Gate {
    Gate(PENDING, map c | c in SetOf(RequiredControls(name)) :: Control(PENDING, []))
  }

  /** The document that `scaffold` writes: nothing set, nothing passed, no evidence. */
  function Scaffold(): Manifest {
    Manifest(1, PENDING, true, map f | f in TARGET_FIELDS :: None, None, None,
             map n | n in SetOf(GATES) :: FreshGate(n))
  }

  lemma {:induction false} NoControlEvidence(controls: map<string, Control>, names: seq<string>)
    requires forall c :: c in controls ==> controls[c].evidence == []
    ensures EvidenceOf(controls, names) == []
  {
    if names != [] {
      NoControlEvidence(controls, names[..|names| - 1]);
    }
  }

  lemma {:induction false} NoGateEvidence(names: seq<string>)
    ensures AllEvidence(Scaffold().gates, names) == []
  {
    hide EvidenceControls, EvidenceOf;
    if names != [] {
      var last := names[|names| - 1];
      NoGateEvidence(names[..|names| - 1]);
      if last in Scaffold().gates {
        NoControlEvidence(Scaffold().gates[last].controls, RequiredControls(last));
      }
    }
  }

  lemma FreshGateOk(name: string, targets: Targets)
    requires targets.Keys == TARGET_FIELDS
    ensures GateOk(name, FreshGate(name), targets) && SIGNOFF in FreshGate(name).controls
  {
    hide EvidenceControls, GateTargets;
    assert SIGNOFF in RequiredControls(name);
    assert FreshGate(name).controls[SIGNOFF].status == PENDING;
  }

  /** A scaffolded bundle, holding nothing but its manifest, is accepted as PENDING. */
  lemma ScaffoldIsAccepted(payload: Bytes, j: Judges)
    requires 1 <= |payload| <= MAX_MANIFEST_BYTES && j.manifest(payload) == Some(Scaffold())
    ensures Accepted(Directory(map[[MANIFEST] := payload], {}), j)
  {
    var dir, m := Directory(map[[MANIFEST] := payload], {}), Scaffold();
    Required();
    ManifestPath();
    NoGateEvidence(GATES);
    hide EvidenceControls, GateTargets, Parts, Join, AllEvidence, GateOk, SignoffOk, FreshGate;
    forall n | n in m.gates ensures GateOk(n, m.gates[n], m.targets) && m.gates[n].status == PENDING {
      FreshGateOk(n, m.targets);
      FreshStatus(n);
    }
    assert Names(dir) == {MANIFEST};
    assert "A" in GATES && !AllPass(m.gates);
    assert ListOk(dir, [], WindowOf(m, j), j);
    assert ShapeOk(m, j) && ReviewedOk(m);
  }

  lemma FreshStatus(name: string)
    ensures FreshGate(name).status == PENDING && SIGNOFF in FreshGate(name).controls
  {
    hide EvidenceControls;
    assert SIGNOFF in RequiredControls(name);
  }
}
