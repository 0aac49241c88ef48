/** The nested loops of `validate_bundle` (scripts/admin_target_acceptance.py), proved to accept exactly
    the bundles of module EvidenceBundle. */
module EvidenceValidator {
  import opened BundlePaths
  import opened EvidenceBundle
  import opened FiniteSets
  import opened Outcomes

  datatype Summary = Summary(status: Status, count: nat, bytes: nat)

  /** The accumulators after the descriptors in `done`. */
  predicate Progress(dir: Directory, done: seq<Evidence>, w: Window, j: Judges, seen: set<string>, total: nat) {
    ListOk(dir, done, w, j) && seen == SetOf(Texts(done)) && total == ByteCount(dir, done)
  }

  lemma {:induction false} CountPrefix(dir: Directory, list: seq<Evidence>, n: nat)
    requires n <= |list|
    ensures ByteCount(dir, list[..n]) <= ByteCount(dir, list)
  {
    if n < |list| {
      CountPrefix(dir, list[..|list| - 1], n);
      assert list[..|list| - 1][..n] == list[..n];
    } else {
      assert list[..n] == list;
    }
  }

  /** A list is good only if each of its prefixes is: the bounds need not wait for the end. */
  lemma ListPrefix(dir: Directory, part: seq<Evidence>, list: seq<Evidence>, w: Window, j: Judges)
    requires part <= list && ListOk(dir, list, w, j)
    ensures ListOk(dir, part, w, j)
  {
    hide EvidenceOk;
    CountPrefix(dir, list, |part|);
    assert list[..|part|] == part;
    assert forall i :: 0 <= i < |part| ==> part[i] == list[i] && Texts(part)[i] == Texts(list)[i];
  }

  lemma ListGrows(dir: Directory, done: seq<Evidence>, e: Evidence, w: Window, j: Judges)
    requires ListOk(dir, done, w, j)
    ensures ByteCount(dir, done + [e]) == ByteCount(dir, done) + SizeOf(dir, e)
    ensures SetOf(Texts(done + [e])) == SetOf(Texts(done)) + {e.path}
    ensures ListOk(dir, done + [e], w, j) <==>
      && EvidenceOk(dir, e, w, j) && e.path !in SetOf(Texts(done))
      && |done| + 1 <= MAX_ARTIFACTS && ByteCount(dir, done) + SizeOf(dir, e) <= MAX_BUNDLE_BYTES
  {
    hide EvidenceOk;
    var more := done + [e];
    assert more[..|done|] == done && more[|done|] == e;
    assert Texts(more) == Texts(done) + [e.path];
    if ListOk(dir, more, w, j) {
      assert Texts(more)[|done|] == e.path;
      forall i | 0 <= i < |done| ensures Texts(done)[i] != e.path {
        assert Texts(more)[i] != Texts(more)[|done|];
      }
    }
  }

  /** One descriptor; the caller keeps the running set and total. */
  method ValidateEvidence(dir: Directory, e: Evidence, w: Window, j: Judges, seen: set<string>)
    returns (size: Option<nat>)
    ensures size.Some? <==> EvidenceOk(dir, e, w, j) && e.path !in seen
    ensures size.Some? ==> size.value == SizeOf(dir, e)
  {
    if !Acceptable(e.path) || Linked(dir, Parts(e.path)) || Parts(e.path) !in dir.files {
      return None;
    }
    if e.path == MANIFEST || e.path in seen {
      return None;
    }
    if !e.sha256.Sha256? || !e.reviewed || !InWindow(w, j.time(e.capturedAt)) {
      return None;
    }
    var content := dir.files[Parts(e.path)];
    if !(1 <= |content| <= MAX_ARTIFACT_BYTES) || e.sha256 != Sha256(content) {
      return None;
    }
    return Some(|content|);
  }

  method ValidateControl(dir: Directory, c: Control, w: Window, j: Judges, seen: set<string>, total: nat,
                         ghost done: seq<Evidence>)
    returns (ok: bool, seen': set<string>, total': nat)
    requires Progress(dir, done, w, j, seen, total)
    ensures ok <==> ControlOk(c) && ListOk(dir, done + c.evidence, w, j)
    ensures ok ==> Progress(dir, done + c.evidence, w, j, seen', total')
  {
    hide Progress, ListOk, EvidenceOk, ByteCount;
    seen', total' := seen, total;
    if c.status == UNKNOWN || |c.evidence| > MAX_ARTIFACTS {
      return false, seen', total';
    }
    ghost var all := done + c.evidence;
    assert done + c.evidence[..0] == done;
    for i := 0 to |c.evidence|
      invariant Progress(dir, done + c.evidence[..i], w, j, seen', total')
    {
      ghost var part := done + c.evidence[..i];
      assert done + c.evidence[..i + 1] == part + [c.evidence[i]];
      Prefixes(dir, part + [c.evidence[i]], all, w, j);
      ok, seen', total' := Accumulate(dir, c.evidence[i], w, j, seen', total', part);
      if !ok {
        return;
      }
    }
    assert done + c.evidence[..|c.evidence|] == all;
    ProgressListOk(dir, all, w, j, seen', total');
    ok := !(c.status == PASS && c.evidence == []);
  }

  lemma ProgressListOk(dir: Directory, done: seq<Evidence>, w: Window, j: Judges, seen: set<string>, total: nat)
    requires Progress(dir, done, w, j, seen, total)
    ensures ListOk(dir, done, w, j) && |seen| == |done| && total == ByteCount(dir, done)
    ensures seen == SetOf(Texts(done))
  {
    hide EvidenceOk, ByteCount;
    DistinctSize(Texts(done));
  }

  /** Adds one descriptor to the running set and total. */
  method Accumulate(dir: Directory, e: Evidence, w: Window, j: Judges, seen: set<string>, total: nat,
                    ghost done: seq<Evidence>)
    returns (ok: bool, seen': set<string>, total': nat)
    requires Progress(dir, done, w, j, seen, total)
    ensures ok <==> ListOk(dir, done + [e], w, j)
    ensures ok ==> Progress(dir, done + [e], w, j, seen', total')
  {
    hide EvidenceOk, ByteCount, ListOk;
    ProgressListOk(dir, done, w, j, seen, total);
    ListGrows(dir, done, e, w, j);
    seen', total' := seen, total;
    var size := ValidateEvidence(dir, e, w, j, seen);
    if size.None? {
      return false, seen', total';
    }
    seen', total' := seen + {e.path}, total + size.value;
    ok := |seen'| <= MAX_ARTIFACTS && total' <= MAX_BUNDLE_BYTES;
  }

  lemma Prefixes(dir: Directory, part: seq<Evidence>, list: seq<Evidence>, w: Window, j: Judges)
    requires part <= list
    ensures ListOk(dir, list, w, j) ==> ListOk(dir, part, w, j)
  {
    hide ListOk;
    if ListOk(dir, list, w, j) {
      ListPrefix(dir, part, list, w, j);
    }
  }

  method ValidateGate(dir: Directory, name: string, g: Gate, targets: Targets, w: Window, j: Judges,
                      seen: set<string>, total: nat, ghost done: seq<Evidence>)
    returns (ok: bool, seen': set<string>, total': nat)
    requires targets.Keys == TARGET_FIELDS && Progress(dir, done, w, j, seen, total)
    ensures ok <==> GateOk(name, g, targets) && ListOk(dir, done + EvidenceOf(g.controls, RequiredControls(name)), w, j)
    ensures ok ==> Progress(dir, done + EvidenceOf(g.controls, RequiredControls(name)), w, j, seen', total')
  {
    hide Progress, ListOk, RequiredControls, GateTargets, ControlOk;
    seen', total' := seen, total;
    var names := RequiredControls(name);
    if g.status == UNKNOWN || g.controls.Keys != SetOf(names) {
      return false, seen', total';
    }
    var controlsPass;
    ok, controlsPass, seen', total' := ValidateControls(dir, g.controls, names, w, j, seen, total, done);
    if !ok {
      return;
    }
    ok := StatusAgrees(g.status, controlsPass && TargetsSet(targets, name));
  }

  method ValidateControls(dir: Directory, controls: map<string, Control>, names: seq<string>, w: Window, j: Judges,
                          seen: set<string>, total: nat, ghost done: seq<Evidence>)
    returns (ok: bool, pass: bool, seen': set<string>, total': nat)
    requires controls.Keys == SetOf(names) && Progress(dir, done, w, j, seen, total)
    ensures ok <==>
      && (forall c :: c in controls ==> ControlOk(controls[c]))
      && ListOk(dir, done + EvidenceOf(controls, names), w, j)
    ensures ok ==> Progress(dir, done + EvidenceOf(controls, names), w, j, seen', total')
    ensures ok ==> (pass <==> ControlsPass(controls, names))
  {
    hide Progress, ListOk, ControlOk, EvidenceOf;
    seen', total', pass := seen, total, true;
    ghost var all := done + EvidenceOf(controls, names);
    NoEvidence(controls);
    assert names[..0] == [] && done + [] == done;
    for k := 0 to |names|
      invariant Progress(dir, done + EvidenceOf(controls, names[..k]), w, j, seen', total')
      invariant forall i :: 0 <= i < k ==> names[i] in controls && ControlOk(controls[names[i]])
      invariant pass <==> forall i :: 0 <= i < k ==> controls[names[i]].status == PASS
    {
      assert names[k] in SetOf(names);
      ghost var part := done + EvidenceOf(controls, names[..k]);
      EvidenceNext(controls, names, k);
      EvidencePrefix(controls, names, k + 1);
      assert done + EvidenceOf(controls, names[..k + 1]) == part + controls[names[k]].evidence;
      Prefixes(dir, part + controls[names[k]].evidence, all, w, j);
      ok, seen', total' := ValidateControl(dir, controls[names[k]], w, j, seen', total', part);
      if !ok {
        return;
      }
      pass := pass && controls[names[k]].status == PASS;
    }
    assert names[..|names|] == names;
    ControlsChecked(controls, names);
    ProgressListOk(dir, all, w, j, seen', total');
    ok := true;
  }

  lemma ControlsChecked(controls: map<string, Control>, names: seq<string>)
    requires controls.Keys == SetOf(names)
    ensures (forall i :: 0 <= i < |names| ==> ControlOk(controls[names[i]])) <==>
      forall c :: c in controls ==> ControlOk(controls[c])
    ensures (forall i :: 0 <= i < |names| ==> controls[names[i]].status == PASS) <==> ControlsPass(controls, names)
  {
    hide ControlOk;
    if forall i :: 0 <= i < |names| ==> ControlOk(controls[names[i]]) {
      forall c | c in controls ensures ControlOk(controls[c]) {
        var i :| 0 <= i < |names| && names[i] == c;
      }
    }
    forall i | 0 <= i < |names| ensures names[i] in controls {
      assert names[i] in SetOf(names);
    }
  }

  lemma {:induction false} EvidencePrefix(controls: map<string, Control>, names: seq<string>, k: nat)
    requires k <= |names|
    ensures EvidenceOf(controls, names[..k]) <= EvidenceOf(controls, names)
  {
    if k < |names| {
      EvidencePrefix(controls, names[..|names| - 1], k);
      assert names[..|names| - 1][..k] == names[..k];
    } else {
      assert names[..k] == names;
    }
  }

  lemma {:induction false} GatesPrefix(gates: map<string, Gate>, names: seq<string>, k: nat)
    requires k <= |names|
    ensures AllEvidence(gates, names[..k]) <= AllEvidence(gates, names)
  {
    hide RequiredControls;
    if k < |names| {
      GatesPrefix(gates, names[..|names| - 1], k);
      assert names[..|names| - 1][..k] == names[..k];
    } else {
      assert names[..k] == names;
    }
  }

  /** All gates, whose descriptors share one set of paths and one total. */
  method ValidateGates(dir: Directory, gates: map<string, Gate>, targets: Targets, w: Window, j: Judges)
    returns (ok: bool, seen: set<string>, total: nat)
    requires targets.Keys == TARGET_FIELDS && gates.Keys == SetOf(GATES)
    ensures ok <==>
      && (forall n :: n in gates ==> GateOk(n, gates[n], targets))
      && ListOk(dir, AllEvidence(gates, GATES), w, j)
    ensures ok ==> Progress(dir, AllEvidence(gates, GATES), w, j, seen, total)
  {
    hide Progress, ListOk, GateOk, AllEvidence, RequiredControls, EvidenceOf;
    seen, total := {}, 0;
    NoGates(gates);
    assert GATES[..0] == [];
    NothingDone(dir, w, j);
    ghost var all := AllEvidence(gates, GATES);
    for k := 0 to |GATES|
      invariant Progress(dir, AllEvidence(gates, GATES[..k]), w, j, seen, total)
      invariant forall i :: 0 <= i < k ==> GATES[i] in gates && GateOk(GATES[i], gates[GATES[i]], targets)
    {
      ghost var part := AllEvidence(gates, GATES[..k]);
      var name := GATES[k];
      assert name in SetOf(GATES);
      GateNext(gates, k);
      GatesPrefix(gates, GATES, k + 1);
      Prefixes(dir, AllEvidence(gates, GATES[..k + 1]), all, w, j);
      ok, seen, total := ValidateGate(dir, name, gates[name], targets, w, j, seen, total, part);
      if !ok {
        return;
      }
    }
    assert GATES[..|GATES|] == GATES;
    ProgressListOk(dir, all, w, j, seen, total);
    ok := true;
    GatesChecked(gates, targets);
  }

  lemma GatesChecked(gates: map<string, Gate>, targets: Targets)
    requires targets.Keys == TARGET_FIELDS && gates.Keys == SetOf(GATES)
    requires forall i :: 0 <= i < |GATES| ==> GATES[i] in gates && GateOk(GATES[i], gates[GATES[i]], targets)
    ensures forall n :: n in gates ==> GateOk(n, gates[n], targets)
  {
    hide GateOk;
    forall n | n in gates ensures GateOk(n, gates[n], targets) {
      var i :| 0 <= i < |GATES| && GATES[i] == n;
    }
  }

  lemma NoGates(gates: map<string, Gate>)
    ensures AllEvidence(gates, []) == []
  {
  }

  lemma GateNext(gates: map<string, Gate>, k: nat)
    requires k < |GATES| && GATES[k] in gates
    ensures AllEvidence(gates, GATES[..k + 1])
      == AllEvidence(gates, GATES[..k]) + EvidenceOf(gates[GATES[k]].controls, RequiredControls(GATES[k]))
  {
    hide RequiredControls, EvidenceOf;
    assert GATES[..k + 1][..k] == GATES[..k];
  }

  lemma NothingDone(dir: Directory, w: Window, j: Judges)
    ensures Progress(dir, [], w, j, {}, 0)
  {
  }

  /** Accepts exactly the bundles that are `Accepted`, and reports their declared status, the number of
      descriptors and their bytes. */
  method ValidateBundle(dir: Directory, j: Judges) returns (result: Option<Summary>)
    ensures result.Some? <==> Accepted(dir, j)
    ensures result.Some? ==>
      var m := ManifestOf(dir, j).value;
      result.value == Summary(m.status, |AllEvidence(m.gates, GATES)|, ByteCount(dir, AllEvidence(m.gates, GATES)))
  {
    hide Progress, ListOk, GateOk, ReportsOk, ReviewedOk, InventoryOk, TargetsOk, WindowOf, WindowOk;
    hide SignoffOk, AllEvidence;
    var document := ManifestOf(dir, j);
    if document.None? {
      return None;
    }
    var m := document.value;
    if m.version != 1 || m.status == UNKNOWN || !m.sourceOk {
      return None;
    }
    if !TargetsChecked(m, j) || m.gates.Keys != SetOf(GATES) {
      return None;
    }
    Required();
    var w := WindowOf(m, j);
    var ok, seen, total := ValidateGates(dir, m.gates, m.targets, w, j);
    if !ok {
      return None;
    }
    ProgressListOk(dir, AllEvidence(m.gates, GATES), w, j, seen, total);
    forall n | n in m.gates ensures SIGNOFF in m.gates[n].controls {
      SignoffPresent(n, m.gates[n], m.targets);
    }
    if !InventoryOk(dir, seen) || !ReviewedOk(m) {
      return None;
    }
    ok := ValidateSignoffs(dir, m, j);
    if !ok || !StatusAgrees(m.status, AllPass(m.gates)) || (AllPass(m.gates) && w.started.None?) {
      return None;
    }
    return Some(Summary(m.status, |seen|, total));
  }

  lemma SignoffPresent(name: string, g: Gate, targets: Targets)
    requires targets.Keys == TARGET_FIELDS && GateOk(name, g, targets)
    ensures SIGNOFF in g.controls
  {
    Required();
    assert SIGNOFF in SetOf(RequiredControls(name));
  }

  predicate TargetsChecked(m: Manifest, j: Judges)
    ensures TargetsChecked(m, j) ==> m.targets.Keys == TARGET_FIELDS
  {
    TargetsOk(m.targets, j) && WindowOk(m, j)
  }

  /** The reports of gates C and D and the sign-offs of the gates that pass. */
  method ValidateSignoffs(dir: Directory, m: Manifest, j: Judges) returns (ok: bool)
    requires m.gates.Keys == SetOf(GATES)
    requires forall n :: n in m.gates ==> SIGNOFF in m.gates[n].controls
    requires "C" in m.gates && "D" in m.gates
    ensures ok <==>
      && (m.gates["C"].status == PASS ==>
            ReportsOk(dir, m.gates["C"], "resource_report_v1", "internal_report_v3", m.targets, j.resourceReports))
      && (m.gates["D"].status == PASS ==>
            ReportsOk(dir, m.gates["D"], "restored_state_assertions", "live_pid_abort", m.targets, j.restoreReports))
      && (forall n :: n in m.gates ==> GatePassOk(dir, m, n, j))
  {
    hide ReportsOk, SignoffOk, WindowOf;
    if m.gates["C"].status == PASS
       && !ReportsOk(dir, m.gates["C"], "resource_report_v1", "internal_report_v3", m.targets, j.resourceReports) {
      return false;
    }
    if m.gates["D"].status == PASS
       && !ReportsOk(dir, m.gates["D"], "restored_state_assertions", "live_pid_abort", m.targets, j.restoreReports) {
      return false;
    }
    for k := 0 to |GATES|
      invariant forall i :: 0 <= i < k ==> GATES[i] in m.gates && GatePassOk(dir, m, GATES[i], j)
    {
      assert GATES[k] in SetOf(GATES);
      if !GatePassOk(dir, m, GATES[k], j) {
        return false;
      }
    }
    forall n | n in m.gates ensures GatePassOk(dir, m, n, j) {
      var i :| 0 <= i < |GATES| && GATES[i] == n;
    }
    return true;
  }
}
