/**
 Relative paths as text (scripts/admin_target_acceptance.py, `_safe_artifact_path`), and the sizes of
 the files of a directory. A descriptor's text may spell a path in more than one way; only the spelling
 that the directory itself would print is the name of a file.
 */
module BundlePaths {

  type Path = seq<string>
  type Bytes = seq<bv8>

  const MAX_PATH: nat := 240

  // ---------------------------------------------------------------- spelling

  predicate SafeChar(c: char) {
    'A' <= c <= 'Z' || 'a' <= c <= 'z' || '0' <= c <= '9' || c in "._/-"
  }

  predicate SafeText(raw: string) {
    1 <= |raw| <= MAX_PATH && forall i :: 0 <= i < |raw| ==> SafeChar(raw[i])
  }

  /** The text between slashes. */
  function Split(raw: string): (parts: seq<string>)
    ensures parts != []
  {
    if raw == [] then [""]
    else if raw[0] == '/' then [""] + Split(raw[1..])
    else
      var rest := Split(raw[1..]);
      [[raw[0]] + rest[0]] + rest[1..]
  }

  function Join(parts: Path): string {
    if parts == [] then ""
    else if |parts| == 1 then parts[0]
    else parts[0] + "/" + Join(parts[1..])
  }

  function Significant(parts: seq<string>): Path {
    if parts == [] then []
    else (if parts[0] == "" || parts[0] == "." then [] else [parts[0]]) + Significant(parts[1..])
  }

  /** What a pure POSIX path makes of the text: doubled slashes and single dots vanish. */
  function Parts(raw: string): Path {
    Significant(Split(raw))
  }

  predicate Acceptable(raw: string) {
    SafeText(raw) && raw[0] != '/' && ".." !in Parts(raw)
  }

  /** A component that a directory can hold. */
  predicate Component(part: string) {
    part != "" && part != "." && part != ".." && '/' !in part
  }

  predicate Proper(path: Path) {
    path != [] && forall i :: 0 <= i < |path| ==> Component(path[i])
  }

  lemma {:induction false} SplitComponent(part: string)
    requires '/' !in part
    ensures Split(part) == [part]
  {
    if part != [] {
      SplitComponent(part[1..]);
      assert [part[0]] + part[1..] == part;
    }
  }

  lemma {:induction false} SplitFirst(part: string, rest: string)
    requires '/' !in part
    ensures Split(part + "/" + rest) == [part] + Split(rest)
  {
    var raw := part + "/" + rest;
    if part == [] {
      assert raw[0] == '/' && raw[1..] == rest;
    } else {
      SplitFirst(part[1..], rest);
      assert raw[0] == part[0] && raw[1..] == part[1..] + "/" + rest;
      assert [part[0]] + part[1..] == part;
    }
  }

  lemma {:induction false} SplitJoin(path: Path)
    requires Proper(path)
    ensures Split(Join(path)) == path
  {
    assert Component(path[0]);
    if |path| == 1 {
      SplitComponent(path[0]);
      assert path == [path[0]];
    } else {
      assert forall i :: 0 <= i < |path| - 1 ==> path[1..][i] == path[i + 1];
      SplitJoin(path[1..]);
      SplitFirst(path[0], Join(path[1..]));
      assert path == [path[0]] + path[1..];
    }
  }

  lemma {:induction false} AllSignificant(path: Path)
    requires forall i :: 0 <= i < |path| ==> Component(path[i])
    ensures Significant(path) == path
  {
    if path != [] {
      assert Component(path[0]);
      assert forall i :: 0 <= i < |path| - 1 ==> path[1..][i] == path[i + 1];
      AllSignificant(path[1..]);
      assert path == [path[0]] + path[1..];
    }
  }

  /** The name of a file reads back as its path, so no two files have one name. */
  lemma NameReadsBack(path: Path)
    requires Proper(path)
    ensures Parts(Join(path)) == path
  {
    SplitJoin(path);
    AllSignificant(path);
  }

  lemma {:induction false} JoinSplit(raw: string)
    ensures Join(Split(raw)) == raw
  {
    if raw != [] {
      var rest := Split(raw[1..]);
      JoinSplit(raw[1..]);
      if raw[0] == '/' {
        assert ([""] + rest)[1..] == rest;
        assert raw == "/" + raw[1..];
      } else {
        assert ([[raw[0]] + rest[0]] + rest[1..])[1..] == rest[1..];
        assert raw == [raw[0]] + raw[1..];
      }
    }
  }

  lemma {:induction false} NoSlashWithin(raw: string)
    ensures forall part :: part in Split(raw) ==> '/' !in part
  {
    if raw != [] {
      NoSlashWithin(raw[1..]);
      assert Split(raw[1..])[0] in Split(raw[1..]);
    }
  }

  lemma {:induction false} OnlySignificant(parts: seq<string>)
    ensures forall part :: part in Significant(parts) <==> part in parts && part != "" && part != "."
    ensures "" !in parts && "." !in parts ==> Significant(parts) == parts
  {
    if parts != [] {
      OnlySignificant(parts[1..]);
      assert parts == [parts[0]] + parts[1..];
    }
  }

  lemma PartsAreProper(raw: string)
    requires Acceptable(raw) && Parts(raw) != []
    ensures Proper(Parts(raw))
  {
    hide Split, Significant;
    NoSlashWithin(raw);
    OnlySignificant(Split(raw));
    forall i | 0 <= i < |Parts(raw)| ensures Component(Parts(raw)[i]) {
      assert Parts(raw)[i] in Significant(Split(raw));
    }
  }

  /** Every other spelling of a path is accepted as a path too, but it is the name of no file. An acceptable
      text is a name exactly when it has no empty component and no single dot, and the name is then that of
      the path it stands for. */
  lemma SpellingMatters(raw: string)
    requires Acceptable(raw)
    ensures (exists path :: Proper(path) && Join(path) == raw) <==> "" !in Split(raw) && "." !in Split(raw)
    ensures Join(Parts(raw)) == raw <==> "" !in Split(raw) && "." !in Split(raw)
  {
    hide Split, Significant;
    JoinSplit(raw);
    OnlySignificant(Split(raw));
    if "" !in Split(raw) && "." !in Split(raw) {
      PartsAreProper(raw);
    }
    if path: Path :| Proper(path) && Join(path) == raw {
      SplitJoin(path);
      assert forall part :: part in path ==> Component(part);
    }
    if Join(Parts(raw)) == raw {
      assert Join([]) == "";
      PartsAreProper(raw);
    }
  }

  // ---------------------------------------------------------------- sizes

  ghost function TotalSize(files: map<Path, Bytes>): nat {
    if files == map[] then 0
    else
      var p :| p in files;
      |files[p]| + TotalSize(files - {p})
  }

  /** The total does not depend on the order in which the files are counted. */
  lemma {:induction false} TotalWithout(files: map<Path, Bytes>, p: Path)
    requires p in files
    ensures TotalSize(files) == |files[p]| + TotalSize(files - {p})
  {
    var q :| q in files && TotalSize(files) == |files[q]| + TotalSize(files - {q});
    if p != q {
      TotalWithout(files - {q}, p);
      TotalWithout(files - {p}, q);
      assert files - {q} - {p} == files - {p} - {q};
    }
  }
}
