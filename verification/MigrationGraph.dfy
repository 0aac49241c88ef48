/**
 The graph part of `_alembic_identity` (scripts/finalize_production_release.py): it accepts the
 migration files exactly when their revisions form one linear chain.
 */
module MigrationGraph {
  import opened FiniteSets
  import opened Outcomes

  type Revision = string

  /** A literal assignment in a migration file. */
  datatype Literal = Text(text: string) | Nothing | Otherwise

  datatype File = File(revision: Literal, down: Literal)

  type Graph = map<Revision, Option<Revision>>

  datatype Identity = Identity(head: Revision, count: nat)

  datatype Error =
    | EMPTY | BAD_REVISION | BAD_PREDECESSOR | DUPLICATE | UNKNOWN_PREDECESSOR | HEADS | CYCLE | NOT_ONE_CHAIN

  // ---------------------------------------------------------------- specification

  predicate LiteralsOk(f: File) {
    f.revision.Text? && f.revision.text != "" && !f.down.Otherwise?
  }

  predicate WellFormed(files: seq<File>) {
    && (forall i :: 0 <= i < |files| ==> LiteralsOk(files[i]))
    && (forall i, j :: 0 <= i < j < |files| ==> files[i].revision != files[j].revision)
  }

  function Predecessor(f: File): Option<Revision> {
    if f.down.Text? then Some(f.down.text) else None
  }

  function Name(f: File): Revision {
    if f.revision.Text? then f.revision.text else ""
  }

  /** The revision map of the files, later files over earlier ones. */
  function GraphOf(files: seq<File>): Graph {
    if files == [] then map[]
    else GraphOf(files[..|files| - 1])[Name(files[|files| - 1]) := Predecessor(files[|files| - 1])]
  }

  /** The predecessor of a revision on a walk is the next one, and that of the last is `current`. */
  predicate Link(walk: seq<Revision>, i: nat, current: Option<Revision>, graph: Graph)
    requires i < |walk|
  {
    walk[i] in graph && graph[walk[i]] == if i + 1 < |walk| then Some(walk[i + 1]) else current
  }

  predicate Walked(walk: seq<Revision>, current: Option<Revision>, graph: Graph) {
    forall i :: 0 <= i < |walk| ==> Link(walk, i, current, graph)
  }

  /** A permutation of the revisions in which each one's predecessor is the next. */
  predicate LinearChain(chain: seq<Revision>, graph: Graph) {
    && chain != []
    && Unrepeated(chain)
    && Walked(chain, None, graph)
    && (forall r :: r in graph ==> r in chain)
  }

  predicate Referenced(r: Revision, graph: Graph) {
    exists s :: s in graph && graph[s] == Some(r)
  }

  // ---------------------------------------------------------------- what a linear chain is

  /** The head of a chain is its one unreferenced revision. */
  lemma HeadUnreferenced(chain: seq<Revision>, graph: Graph, r: Revision)
    requires LinearChain(chain, graph) && r in graph
    ensures Referenced(r, graph) <==> r != chain[0]
  {
    var i :| 0 <= i < |chain| && chain[i] == r;
    if i > 0 {
      LinkAt(chain, graph, i - 1);
    } else {
      forall s | s in graph ensures graph[s] != Some(r) {
        var j :| 0 <= j < |chain| && chain[j] == s;
        LinkAt(chain, graph, j);
      }
    }
  }

  /** In a chain every predecessor is a revision. */
  lemma ChainIsClosed(chain: seq<Revision>, graph: Graph, r: Revision)
    requires LinearChain(chain, graph) && r in graph && graph[r].Some?
    ensures graph[r].value in graph
  {
    var i :| 0 <= i < |chain| && chain[i] == r;
    LinkAt(chain, graph, i);
    LinkAt(chain, graph, i + 1);
  }

  lemma LinkAt(chain: seq<Revision>, graph: Graph, i: nat)
    requires LinearChain(chain, graph) && i < |chain|
    ensures chain[i] in graph && graph[chain[i]] == if i + 1 < |chain| then Some(chain[i + 1]) else None
  {
    assert Link(chain, i, None, graph);
  }

  /** No branch: two revisions of a chain never share a predecessor. */
  lemma NoBranch(chain: seq<Revision>, graph: Graph, r: Revision, s: Revision)
    requires LinearChain(chain, graph) && r in graph && s in graph && graph[r] == graph[s]
    ensures r == s
  {
    var i :| 0 <= i < |chain| && chain[i] == r;
    var j :| 0 <= j < |chain| && chain[j] == s;
    LinkAt(chain, graph, i);
    LinkAt(chain, graph, j);
  }

  /** No cycle, attached or detached: a set of revisions that is closed under predecessors, none of
      which is missing, is empty. */
  lemma NoCycle(chain: seq<Revision>, graph: Graph, cycle: set<Revision>)
    requires LinearChain(chain, graph)
    requires forall r :: r in cycle ==> r in graph && graph[r].Some? && graph[r].value in cycle
    ensures cycle == {}
  {
    if cycle != {} {
      var r :| r in cycle;
      var i :| 0 <= i < |chain| && chain[i] == r;
      RunsOut(chain, graph, cycle, i);
    }
  }

  lemma RunsOut(chain: seq<Revision>, graph: Graph, cycle: set<Revision>, i: nat)
    requires LinearChain(chain, graph)
    requires forall r :: r in cycle ==> r in graph && graph[r].Some? && graph[r].value in cycle
    requires i < |chain| && chain[i] in cycle
    ensures false
    decreases |chain| - i
  {
    LinkAt(chain, graph, i);
    if i + 1 < |chain| {
      RunsOut(chain, graph, cycle, i + 1);
    }
  }

  lemma {:induction false} GraphKeys(files: seq<File>, r: Revision)
    ensures r in GraphOf(files) <==> exists i :: 0 <= i < |files| && Name(files[i]) == r
  {
    if files != [] {
      var last, rest := |files| - 1, files[..|files| - 1];
      GraphKeys(rest, r);
      assert forall i :: 0 <= i < last ==> rest[i] == files[i];
      assert r in GraphOf(files) <==> r in GraphOf(rest) || Name(files[last]) == r;
    }
  }

  lemma {:induction false} GraphSize(files: seq<File>)
    requires WellFormed(files)
    ensures |GraphOf(files)| == |files|
  {
    if files != [] {
      var last, rest := |files| - 1, files[..|files| - 1];
      GraphSize(rest);
      GraphKeys(rest, Name(files[last]));
      assert forall i :: 0 <= i < last ==> rest[i] == files[i] && LiteralsOk(files[i]);
      assert Name(files[last]) !in GraphOf(rest);
      assert GraphOf(files).Keys == GraphOf(rest).Keys + {Name(files[last])};
    }
  }

  // ---------------------------------------------------------------- the walk

  /** A walk from the head of a chain follows the chain. */
  lemma {:induction false} WalkFollows(chain: seq<Revision>, walk: seq<Revision>, current: Option<Revision>,
                                       graph: Graph)
    requires LinearChain(chain, graph) && Walked(walk, current, graph) && walk != [] && walk[0] == chain[0]
    ensures walk <= chain
    ensures current == if |walk| < |chain| then Some(chain[|walk|]) else None
  {
    var n := |walk| - 1;
    if n > 0 {
      forall i | 0 <= i < n ensures Link(walk[..n], i, Some(walk[n]), graph) {
        assert Link(walk, i, current, graph);
      }
      WalkFollows(chain, walk[..n], Some(walk[n]), graph);
    }
    assert Link(walk, n, current, graph);
    LinkAt(chain, graph, n);
  }

  /** A chain leaves exactly one head and no unknown predecessor. */
  lemma ChainPasses(chain: seq<Revision>, graph: Graph, referenced: set<Revision>)
    requires LinearChain(chain, graph)
    requires referenced == set r | r in graph && graph[r].Some? :: graph[r].value
    ensures referenced <= graph.Keys && graph.Keys - referenced == {chain[0]}
  {
    LinkAt(chain, graph, 0);
    forall r | r in graph
      ensures r in referenced <==> r != chain[0]
      ensures graph[r].Some? ==> graph[r].value in graph
    {
      HeadUnreferenced(chain, graph, r);
      if graph[r].Some? {
        ChainIsClosed(chain, graph, r);
      }
    }
  }

  /** On a chain the walk never returns to itself, and it ends only when it has seen everything. */
  lemma WalkIsWhole(chain: seq<Revision>, walk: seq<Revision>, current: Option<Revision>, graph: Graph)
    requires LinearChain(chain, graph) && Walked(walk, current, graph) && walk != [] && walk[0] == chain[0]
    ensures current.Some? ==> current.value !in walk
    ensures current.None? ==> forall r :: r in graph ==> r in walk
  {
    WalkFollows(chain, walk, current, graph);
    if current.None? {
      assert walk == chain;
    } else {
      assert forall i :: 0 <= i < |walk| ==> walk[i] == chain[i] && chain[i] != chain[|walk|];
    }
  }

  // ---------------------------------------------------------------- the check

  /** Accepts exactly the linear chains, and returns the one revision that no other refers to. */
  method AlembicIdentity(files: seq<File>) returns (result: Result<Identity, Error>)
    ensures result.Ok? <==> WellFormed(files) && exists chain :: LinearChain(chain, GraphOf(files))
    ensures forall chain :: WellFormed(files) && LinearChain(chain, GraphOf(files)) ==>
      result == Ok(Identity(chain[0], |files|))
    ensures !WellFormed(files) ==> result.Err? && result.error in {BAD_REVISION, BAD_PREDECESSOR, DUPLICATE}
  {
    if files == [] {
      NothingLinear();
      return Err(EMPTY);
    }
    var revisions := ReadRevisions(files);
    if revisions.Err? {
      return Err(revisions.error);
    }
    hide Walked, Unrepeated;
    GraphSize(files);
    result := CheckGraph(revisions.value);
  }

  /** The revision map, if every file names its revision and predecessor and no revision occurs twice. */
  method ReadRevisions(files: seq<File>) returns (result: Result<Graph, Error>)
    ensures result.Ok? <==> WellFormed(files)
    ensures result.Ok? ==> result.value == GraphOf(files)
    ensures result.Err? ==> result.error in {BAD_REVISION, BAD_PREDECESSOR, DUPLICATE}
  {
    var revisions: Graph := map[];
    for i := 0 to |files|
      invariant WellFormed(files[..i]) && revisions == GraphOf(files[..i])
    {
      assert files[..i + 1][..i] == files[..i] && files[..i + 1] == files[..i] + [files[i]];
      if !files[i].revision.Text? || files[i].revision.text == "" {
        assert !LiteralsOk(files[i]);
        return Err(BAD_REVISION);
      }
      if files[i].down.Otherwise? {
        assert !LiteralsOk(files[i]);
        return Err(BAD_PREDECESSOR);
      }
      GraphKeys(files[..i], files[i].revision.text);
      if files[i].revision.text in revisions {
        var j :| 0 <= j < |files[..i]| && Name(files[..i][j]) == files[i].revision.text;
        assert LiteralsOk(files[..i][j]) && files[j] == files[..i][j];
        return Err(DUPLICATE);
      }
      Another(files[..i], files[i]);
      revisions := revisions[files[i].revision.text := Predecessor(files[i])];
    }
    assert files[..|files|] == files;
    return Ok(revisions);
  }

  lemma Another(files: seq<File>, f: File)
    requires WellFormed(files) && LiteralsOk(f)
    requires forall i :: 0 <= i < |files| ==> Name(files[i]) != Name(f)
    ensures WellFormed(files + [f])
  {
    assert forall i :: 0 <= i < |files| ==> LiteralsOk(files[i]);
  }

  lemma NothingLinear()
    ensures forall chain :: !LinearChain(chain, GraphOf([]))
  {
    forall chain ensures !LinearChain(chain, GraphOf([])) {
      if chain != [] {
        assert !Link(chain, 0, None, GraphOf([]));
      }
    }
  }

  /** Referenced revisions, heads, and the walk from the head. */
  method CheckGraph(revisions: Graph) returns (result: Result<Identity, Error>)
    ensures result.Ok? <==> exists chain :: LinearChain(chain, revisions)
    ensures forall chain :: LinearChain(chain, revisions) ==> result == Ok(Identity(chain[0], |revisions|))
  {
    hide Walked, Unrepeated;
    var referenced := set r | r in revisions && revisions[r].Some? :: revisions[r].value;
    var heads := revisions.Keys - referenced;
    forall chain | LinearChain(chain, revisions)
      ensures referenced <= revisions.Keys && heads == {chain[0]}
    {
      ChainPasses(chain, revisions, referenced);
    }
    if !(referenced <= revisions.Keys) {
      return Err(UNKNOWN_PREDECESSOR);
    }
    if |heads| != 1 {
      return Err(HEADS);
    }
    var head :| head in heads;
    result := Walk(revisions, head, referenced);
  }

  method Walk(revisions: Graph, head: Revision, referenced: set<Revision>) returns (result: Result<Identity, Error>)
    requires head in revisions && referenced <= revisions.Keys
    requires referenced == set r | r in revisions && revisions[r].Some? :: revisions[r].value
    ensures result.Ok? ==> result.value == Identity(head, |revisions|)
    ensures result.Ok? ==> exists chain :: LinearChain(chain, revisions) && chain[0] == head
    ensures result.Err? ==> forall chain :: !(LinearChain(chain, revisions) && chain[0] == head)
  {
    hide Walked;
    var visited: set<Revision> := {};
    var current := Some(head);
    ghost var walk: seq<Revision> := [];
    NothingWalked(current, revisions);
    while current.Some?
      invariant forall r :: r in visited <==> r in walk
      invariant visited <= revisions.Keys && (current.Some? ==> current.value in revisions)
      invariant Unrepeated(walk) && Walked(walk, current, revisions)
      invariant if walk == [] then current == Some(head) else walk[0] == head
      decreases revisions.Keys - visited
    {
      if current.value in visited {
        forall chain | LinearChain(chain, revisions) ensures chain[0] != head {
          if chain[0] == head {
            WalkIsWhole(chain, walk, current, revisions);
          }
        }
        return Err(CYCLE);
      }
      var next := revisions[current.value];
      assert next.Some? ==> next.value in referenced;
      assert current.value in revisions.Keys - visited;
      WalkExtends(walk, current.value, revisions);
      visited := visited + {current.value};
      walk := walk + [current.value];
      current := next;
    }
    if visited != revisions.Keys {
      forall chain | LinearChain(chain, revisions) ensures chain[0] != head {
        if chain[0] == head {
          WalkIsWhole(chain, walk, current, revisions);
        }
      }
      return Err(NOT_ONE_CHAIN);
    }
    FullWalk(walk, revisions);
    return Ok(Identity(head, |revisions|));
  }

  lemma NothingWalked(current: Option<Revision>, graph: Graph)
    ensures Walked([], current, graph)
  {
  }

  lemma WalkExtends(walk: seq<Revision>, r: Revision, graph: Graph)
    requires r in graph && Walked(walk, Some(r), graph)
    ensures Walked(walk + [r], graph[r], graph)
  {
    var longer := walk + [r];
    forall i | 0 <= i < |longer| ensures Link(longer, i, graph[r], graph) {
      if i < |walk| {
        assert Link(walk, i, Some(r), graph);
      }
    }
  }

  lemma FullWalk(walk: seq<Revision>, graph: Graph)
    requires walk != [] && Unrepeated(walk) && Walked(walk, None, graph)
    requires forall r :: r in graph ==> r in walk
    ensures LinearChain(walk, graph)
  {
  }
}
