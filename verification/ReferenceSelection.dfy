/**
 The selection of frozen reference statements by name, and the drops that undo them
 (server/migrations/migration_support.py).
 */
module ReferenceSelection {
  import opened FiniteSets
  import opened Outcomes

  datatype Kind = Extension | Schema | Table | Index | Function | Trigger | AlterConstraint
                | PostReferenceAlter | Revoke | Transaction

  datatype Statement = Statement(sql: string, kind: Kind, name: string, schema: Option<string>,
                                 relation: Option<string>)

  datatype SelectError = DUPLICATE_NAME | SELECTION_MISMATCH | NO_SCHEMA

  predicate Requested(s: Statement, kind: Kind, names: set<string>) {
    s.kind == kind && s.name in names
  }

  /** The requested statements in the order of the reference. */
  function Pick(statements: seq<Statement>, kind: Kind, names: set<string>): seq<Statement> {
    if statements == [] then []
    else
      var n := |statements| - 1;
      Pick(statements[..n], kind, names) + (if Requested(statements[n], kind, names) then [statements[n]] else [])
  }

  function NamesOf(statements: seq<Statement>): (names: seq<string>)
    ensures |names| == |statements| && forall i :: 0 <= i < |names| ==> names[i] == statements[i].name
  {
    seq(|statements|, i requires 0 <= i < |statements| => statements[i].name)
  }

  /** One statement of the kind has this name, and only one. */
  predicate Unique(statements: seq<Statement>, kind: Kind, name: string) {
    exists k :: 0 <= k < |statements| && Requested(statements[k], kind, {name})
      && forall i :: 0 <= i < |statements| && Requested(statements[i], kind, {name}) ==> i == k
  }

  predicate Selectable(statements: seq<Statement>, kind: Kind, names: seq<string>) {
    Unrepeated(names) && forall name :: name in names ==> Unique(statements, kind, name)
  }

  predicate NoTwo(statements: seq<Statement>, kind: Kind, names: set<string>) {
    forall i, k | 0 <= i < k < |statements| ::
      Requested(statements[i], kind, names) && Requested(statements[k], kind, names) ==>
        statements[i].name != statements[k].name
  }

  lemma {:induction false} PickMembers(statements: seq<Statement>, kind: Kind, names: set<string>, s: Statement)
    ensures s in Pick(statements, kind, names) <==> s in statements && Requested(s, kind, names)
  {
    if statements != [] {
      var n := |statements| - 1;
      PickMembers(statements[..n], kind, names, s);
      assert statements == statements[..n] + [statements[n]];
    }
  }

  lemma {:induction false} PickUnrepeated(statements: seq<Statement>, kind: Kind, names: set<string>)
    ensures Unrepeated(NamesOf(Pick(statements, kind, names))) <==> NoTwo(statements, kind, names)
  {
    if statements != [] {
      var n := |statements| - 1;
      var rest, last := statements[..n], statements[n];
      PickUnrepeated(rest, kind, names);
      OneMore(rest, last, kind, names);
      assert statements == rest + [last];
      if Requested(last, kind, names) {
        var picked := Pick(rest, kind, names);
        assert NamesOf(picked + [last]) == NamesOf(picked) + [last.name];
        AppendUnrepeated(NamesOf(picked), last.name);
      } else {
        assert Pick(statements, kind, names) == Pick(rest, kind, names);
      }
    }
  }

  lemma OneMore(rest: seq<Statement>, last: Statement, kind: Kind, names: set<string>)
    ensures NoTwo(rest + [last], kind, names) <==>
      (NoTwo(rest, kind, names)
       && (Requested(last, kind, names) ==> last.name !in NamesOf(Pick(rest, kind, names))))
  {
    hide Pick, Requested;
    var all := rest + [last];
    NameInPick(rest, kind, names, last.name);
    assert all[|rest|] == last && forall i :: 0 <= i < |rest| ==> all[i] == rest[i];
    if NoTwo(all, kind, names) {
      forall i, k | 0 <= i < k < |rest| && Requested(rest[i], kind, names) && Requested(rest[k], kind, names)
        ensures rest[i].name != rest[k].name
      {
        assert all[i] == rest[i] && all[k] == rest[k];
      }
      forall i | 0 <= i < |rest| && Requested(rest[i], kind, names) && Requested(last, kind, names)
        ensures rest[i].name != last.name
      {
        assert all[i] == rest[i] && all[|rest|] == last;
      }
    }
  }

  lemma AppendUnrepeated(names: seq<string>, name: string)
    ensures Unrepeated(names + [name]) <==> Unrepeated(names) && name !in names
  {
    var more := names + [name];
    assert more[|names|] == name;
    if Unrepeated(more) {
      assert forall i :: 0 <= i < |names| ==> more[i] == names[i] && more[i] != more[|names|];
    }
  }

  lemma NameInPick(statements: seq<Statement>, kind: Kind, names: set<string>, name: string)
    ensures name in NamesOf(Pick(statements, kind, names)) <==>
      exists i :: 0 <= i < |statements| && Requested(statements[i], kind, names) && statements[i].name == name
  {
    var picked := Pick(statements, kind, names);
    if name in NamesOf(picked) {
      var k :| 0 <= k < |picked| && NamesOf(picked)[k] == name;
      PickMembers(statements, kind, names, picked[k]);
      var i :| 0 <= i < |statements| && statements[i] == picked[k];
    }
    if i :| 0 <= i < |statements| && Requested(statements[i], kind, names) && statements[i].name == name {
      PickMembers(statements, kind, names, statements[i]);
      var k :| 0 <= k < |picked| && picked[k] == statements[i];
      assert NamesOf(picked)[k] == name;
    }
  }

  /** The three tests of the selection together say that every requested name occurs exactly once. */
  lemma TestsMeanUnique(statements: seq<Statement>, kind: Kind, names: seq<string>)
    requires Unrepeated(names)
    ensures var picked := Pick(statements, kind, SetOf(names));
      (SetOf(NamesOf(picked)) == SetOf(names) && |picked| == |names|) <==> Selectable(statements, kind, names)
  {
    hide Pick, Unique, NoTwo;
    var picked := Pick(statements, kind, SetOf(names));
    DistinctSize(names);
    DistinctSize(NamesOf(picked));
    PickUnrepeated(statements, kind, SetOf(names));
    forall name
      ensures name in NamesOf(picked) ==> name in names
      ensures name in names && NoTwo(statements, kind, SetOf(names)) ==>
        (Unique(statements, kind, name) <==> name in NamesOf(picked))
    {
      NameInPick(statements, kind, SetOf(names), name);
      if name in names && NoTwo(statements, kind, SetOf(names)) {
        UniqueName(statements, kind, names, name);
      }
    }
    if Selectable(statements, kind, names) {
      AllUnique(statements, kind, names);
      assert SetOf(NamesOf(picked)) == SetOf(names);
    } else if SetOf(NamesOf(picked)) == SetOf(names) && |picked| == |names| {
      forall name | name in names ensures Unique(statements, kind, name) {
        assert name in SetOf(NamesOf(picked));
      }
    }
  }

  lemma AllUnique(statements: seq<Statement>, kind: Kind, names: seq<string>)
    requires forall name :: name in names ==> Unique(statements, kind, name)
    ensures NoTwo(statements, kind, SetOf(names))
  {
    forall i, k | 0 <= i < k < |statements|
        && Requested(statements[i], kind, SetOf(names)) && Requested(statements[k], kind, SetOf(names))
      ensures statements[i].name != statements[k].name
    {
      assert Unique(statements, kind, statements[i].name);
      assert Requested(statements[i], kind, {statements[i].name});
      assert Requested(statements[k], kind, {statements[k].name});
    }
  }

  lemma UniqueName(statements: seq<Statement>, kind: Kind, names: seq<string>, name: string)
    requires NoTwo(statements, kind, SetOf(names)) && name in names
    ensures Unique(statements, kind, name) <==> name in NamesOf(Pick(statements, kind, SetOf(names)))
  {
    hide Pick;
    NameInPick(statements, kind, SetOf(names), name);
    if name in NamesOf(Pick(statements, kind, SetOf(names))) {
      var k :| 0 <= k < |statements| && Requested(statements[k], kind, SetOf(names)) && statements[k].name == name;
      forall i | 0 <= i < |statements| && Requested(statements[i], kind, {name}) ensures i == k {
        assert Requested(statements[i], kind, SetOf(names));
      }
      assert Requested(statements[k], kind, {name});
    }
  }

  /** Accepts exactly the selections that name each of their statements once, and keeps the order of the
      reference, whatever the order of the names. */
  method Select(statements: seq<Statement>, kind: Kind, names: seq<string>)
    returns (result: Result<seq<Statement>, SelectError>)
    ensures result.Ok? <==> Selectable(statements, kind, names)
    ensures result.Ok? ==> result.value == Pick(statements, kind, SetOf(names))
    ensures result == Err(DUPLICATE_NAME) <==> !Unrepeated(names)
    ensures result.Err? ==> result.error in {DUPLICATE_NAME, SELECTION_MISMATCH}
  {
    var requested := SetOf(names);
    DistinctSize(names);
    if |requested| != |names| {
      return Err(DUPLICATE_NAME);
    }
    var selected: seq<Statement> := [];
    for i := 0 to |statements|
      invariant selected == Pick(statements[..i], kind, requested)
    {
      assert statements[..i + 1][..i] == statements[..i];
      if statements[i].kind == kind && statements[i].name in requested {
        selected := selected + [statements[i]];
      }
    }
    assert statements[..|statements|] == statements;
    TestsMeanUnique(statements, kind, names);
    if SetOf(NamesOf(selected)) != requested || |selected| != |names| {
      return Err(SELECTION_MISMATCH);
    }
    return Ok(selected);
  }

  datatype Drop = Drop(schema: string, name: string)

  /** The drop that undoes a statement. */
  function DropOf(s: Statement): Drop
    requires s.schema.Some?
  {
    Drop(s.schema.value, s.name)
  }

  predicate Undoes(selected: seq<Statement>, name: string, drop: Drop) {
    exists s :: s in selected && s.schema.Some? && s.name == name && drop == DropOf(s)
  }

  predicate AllHaveSchemas(selected: seq<Statement>) {
    forall s :: s in selected ==> s.schema.Some?
  }

  /** Drops the named indexes in the order of the names, each from the schema where its statement had put it.
      It succeeds exactly when the names can be selected and every selected statement has a schema. */
  method DropIndexes(statements: seq<Statement>, names: seq<string>) returns (result: Result<seq<Drop>, SelectError>)
    ensures result.Ok? <==>
      Selectable(statements, Index, names) && AllHaveSchemas(Pick(statements, Index, SetOf(names)))
    ensures result == Err(NO_SCHEMA) <==>
      Selectable(statements, Index, names) && !AllHaveSchemas(Pick(statements, Index, SetOf(names)))
    ensures result.Ok? ==>
      && |result.value| == |names|
      && forall i :: 0 <= i < |names| ==>
           Undoes(Pick(statements, Index, SetOf(names)), names[i], result.value[i])
  {
    hide Pick, Unique;
    var selected := Select(statements, Index, names);
    if selected.Err? {
      return Err(selected.error);
    }
    TestsMeanUnique(statements, Index, names);
    DistinctSize(NamesOf(selected.value));
    DistinctSize(names);
    var drops: seq<Drop> := [];
    for i := 0 to |names|
      invariant |drops| == i
      invariant forall k :: 0 <= k < i ==>
        Undoes(selected.value, names[k], drops[k])
      invariant forall j :: 0 <= j < |selected.value| && selected.value[j].name in names[..i] ==>
        selected.value[j].schema.Some?
    {
      assert names[i] in SetOf(names);
      assert names[i] in NamesOf(selected.value);
      var k :| 0 <= k < |selected.value| && NamesOf(selected.value)[k] == names[i];
      var s := selected.value[k];
      assert s in selected.value;
      if s.schema.None? {
        return Err(NO_SCHEMA);
      }
      drops := drops + [DropOf(s)];
      forall j | 0 <= j < |selected.value| && selected.value[j].name in names[..i + 1]
        ensures selected.value[j].schema.Some?
      {
        if selected.value[j].name == names[i] {
          assert NamesOf(selected.value)[j] == NamesOf(selected.value)[k];
          assert j == k;
        }
      }
    }
    forall t | t in selected.value ensures t.schema.Some? {
      var j :| 0 <= j < |selected.value| && selected.value[j] == t;
      assert NamesOf(selected.value)[j] in SetOf(NamesOf(selected.value));
    }
    return Ok(drops);
  }

  /** As many drops as statements, and each statement has its drop. */
  lemma EachHasDrop(statements: seq<Statement>, names: seq<string>, drops: seq<Drop>, s: Statement)
    requires Selectable(statements, Index, names) && |drops| == |names|
    requires forall i :: 0 <= i < |names| ==> Undoes(Pick(statements, Index, SetOf(names)), names[i], drops[i])
    requires s in Pick(statements, Index, SetOf(names))
    ensures s.schema.Some? && DropOf(s) in drops
    ensures |Pick(statements, Index, SetOf(names))| == |drops|
  {
    TestsMeanUnique(statements, Index, names);
    hide Pick;
    PickMembers(statements, Index, SetOf(names), s);
    var i :| 0 <= i < |names| && names[i] == s.name;
    assert Undoes(Pick(statements, Index, SetOf(names)), names[i], drops[i]);
    var t :| t in Pick(statements, Index, SetOf(names)) && t.schema.Some? && t.name == names[i]
      && drops[i] == DropOf(t);
    PickMembers(statements, Index, SetOf(names), t);
    assert Unique(statements, Index, s.name);
    assert Requested(s, Index, {s.name}) && Requested(t, Index, {s.name});
    assert s == t;
    assert drops[i] in drops;
  }

  /** The indexes of the database after the statements: a name that is taken in its schema is an error. */
  function Created(indexes: set<Drop>, selected: seq<Statement>): Option<set<Drop>>
    requires AllHaveSchemas(selected)
    decreases |selected|
  {
    if selected == [] then Some(indexes)
    else if DropOf(selected[0]) in indexes then None
    else Created(indexes + {DropOf(selected[0])}, selected[1..])
  }

  /** And after the drops: dropping what is not there is an error. */
  function Dropped(indexes: set<Drop>, drops: seq<Drop>): Option<set<Drop>> {
    if drops == [] then Some(indexes)
    else if drops[0] !in indexes then None
    else Dropped(indexes - {drops[0]}, drops[1..])
  }

  function IndexesOf(selected: seq<Statement>): set<Drop>
    requires AllHaveSchemas(selected)
  {
    set s | s in selected :: DropOf(s)
  }

  lemma {:induction false} CreatedIs(indexes: set<Drop>, selected: seq<Statement>)
    requires AllHaveSchemas(selected) && Created(indexes, selected).Some?
    ensures Created(indexes, selected).value == indexes + IndexesOf(selected)
    ensures indexes !! IndexesOf(selected)
    decreases |selected|
  {
    if selected != [] {
      var first, rest := DropOf(selected[0]), selected[1..];
      CreatedIs(indexes + {first}, rest);
      assert selected == [selected[0]] + rest;
      assert IndexesOf(selected) == {first} + IndexesOf(rest);
    }
  }

  lemma FirstOff(drops: seq<Drop>)
    requires Unrepeated(drops) && drops != []
    ensures Unrepeated(drops[1..]) && SetOf(drops) == {drops[0]} + SetOf(drops[1..])
    ensures drops[0] !in drops[1..]
  {
    assert drops == [drops[0]] + drops[1..];
  }

  lemma {:induction false} DroppedIs(indexes: set<Drop>, drops: seq<Drop>)
    requires Unrepeated(drops) && SetOf(drops) <= indexes
    ensures Dropped(indexes, drops) == Some(indexes - SetOf(drops))
  {
    if drops == [] {
      assert indexes - SetOf(drops) == indexes;
    } else {
      hide Unrepeated;
      FirstOff(drops);
      DroppedIs(indexes - {drops[0]}, drops[1..]);
      assert indexes - {drops[0]} - SetOf(drops[1..]) == indexes - SetOf(drops);
    }
  }

  /** A downgrade undoes its upgrade: from any database on which the selected statements succeed, the drops
      succeed after them, in the order of the names, and leave the indexes that were there before. */
  lemma DropsUndo(statements: seq<Statement>, names: seq<string>, drops: seq<Drop>, indexes: set<Drop>)
    requires Selectable(statements, Index, names) && |drops| == |names|
    requires AllHaveSchemas(Pick(statements, Index, SetOf(names)))
    requires forall i :: 0 <= i < |names| ==> Undoes(Pick(statements, Index, SetOf(names)), names[i], drops[i])
    requires Created(indexes, Pick(statements, Index, SetOf(names))).Some?
    ensures var created := Created(indexes, Pick(statements, Index, SetOf(names))).value;
      Dropped(created, drops) == Some(indexes)
  {
    hide Pick, Selectable;
    var picked := Pick(statements, Index, SetOf(names));
    CreatedIs(indexes, picked);
    forall i, j | 0 <= i < j < |drops| ensures drops[i] != drops[j] {
      assert Undoes(picked, names[i], drops[i]) && Undoes(picked, names[j], drops[j]);
      assert Unrepeated(names) by {
        NamesUnrepeated(statements, names);
      }
    }
    forall d ensures d in SetOf(drops) <==> d in IndexesOf(picked) {
      if d in drops {
        var i :| 0 <= i < |drops| && drops[i] == d;
        assert Undoes(picked, names[i], d);
      }
      if d in IndexesOf(picked) {
        var s :| s in picked && DropOf(s) == d;
        EachHasDrop(statements, names, drops, s);
      }
    }
    assert SetOf(drops) == IndexesOf(picked);
    DroppedIs(indexes + IndexesOf(picked), drops);
    assert indexes + IndexesOf(picked) - IndexesOf(picked) == indexes;
  }

  lemma NamesUnrepeated(statements: seq<Statement>, names: seq<string>)
    requires Selectable(statements, Index, names)
    ensures Unrepeated(names)
  {
  }
}
