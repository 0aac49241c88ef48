/** Python's `sorted`, as stable insertion, for the two modules that order rows by a key. */
module StableSort {

  type Order<!T> = (T, T) -> bool

  /** `x` goes before the first element that it does not have to follow. */
  function Insert<T>(x: T, sorted: seq<T>, le: Order<T>): seq<T> {
    if sorted == [] || le(x, sorted[0]) then [x] + sorted
    else [sorted[0]] + Insert(x, sorted[1..], le)
  }

  function Sort<T>(s: seq<T>, le: Order<T>): seq<T> {
    if s == [] then [] else Insert(s[0], Sort(s[1..], le), le)
  }

  predicate Ordered<T>(s: seq<T>, le: Order<T>) {
    forall i, j :: 0 <= i < j < |s| ==> le(s[i], s[j])
  }

  ghost predicate TotalPreorder<T(!new)>(le: Order<T>) {
    && (forall a, b :: le(a, b) || le(b, a))
    && (forall a, b, c :: le(a, b) && le(b, c) ==> le(a, c))
  }

  lemma {:induction false} InsertContents<T>(x: T, sorted: seq<T>, le: Order<T>)
    ensures multiset(Insert(x, sorted, le)) == multiset([x] + sorted)
  {
    if sorted == [] || le(x, sorted[0]) {
    } else {
      InsertContents(x, sorted[1..], le);
      assert sorted == [sorted[0]] + sorted[1..];
    }
  }

  lemma {:induction false} InsertOrdered<T(!new)>(x: T, sorted: seq<T>, le: Order<T>)
    requires TotalPreorder(le) && Ordered(sorted, le)
    ensures Ordered(Insert(x, sorted, le), le)
  {
    if sorted == [] || le(x, sorted[0]) {
    } else {
      var rest := Insert(x, sorted[1..], le);
      InsertOrdered(x, sorted[1..], le);
      InsertContents(x, sorted[1..], le);
      forall i | 0 <= i < |rest| ensures le(sorted[0], rest[i]) {
        assert rest[i] in multiset(rest);
        assert rest[i] == x || rest[i] in sorted[1..];
      }
    }
  }

  /** The result is ordered and a permutation of the input. */
  lemma {:induction false} SortOrdered<T(!new)>(s: seq<T>, le: Order<T>)
    requires TotalPreorder(le)
    ensures Ordered(Sort(s, le), le)
    ensures multiset(Sort(s, le)) == multiset(s)
  {
    if s != [] {
      var rest := Sort(s[1..], le);
      SortOrdered(s[1..], le);
      InsertOrdered(s[0], rest, le);
      InsertContents(s[0], rest, le);
      assert s == [s[0]] + s[1..];
    }
  }

  lemma SameElements<T(!new)>(s: seq<T>, le: Order<T>, x: T)
    requires TotalPreorder(le)
    ensures x in Sort(s, le) <==> x in s
    ensures |Sort(s, le)| == |s|
  {
    SortOrdered(s, le);
    assert x in multiset(Sort(s, le)) <==> x in multiset(s);
    assert |multiset(Sort(s, le))| == |multiset(s)|;
  }

  predicate Pairwise<T>(s: seq<T>, apart: Order<T>) {
    forall i, j :: 0 <= i < j < |s| ==> apart(s[i], s[j])
  }

  lemma {:induction false} InsertPairwise<T>(x: T, sorted: seq<T>, le: Order<T>, apart: Order<T>)
    requires Pairwise(sorted, apart)
    requires forall y :: y in sorted ==> apart(x, y) && apart(y, x)
    ensures Pairwise(Insert(x, sorted, le), apart)
  {
    if sorted == [] || le(x, sorted[0]) {
    } else {
      var rest := Insert(x, sorted[1..], le);
      InsertPairwise(x, sorted[1..], le, apart);
      InsertContents(x, sorted[1..], le);
      forall i | 0 <= i < |rest| ensures apart(sorted[0], rest[i]) {
        assert rest[i] in multiset(rest);
        assert rest[i] == x || rest[i] in sorted[1..];
        if rest[i] in sorted[1..] {
          var k :| 0 <= k < |sorted[1..]| && sorted[1..][k] == rest[i];
          assert sorted[k + 1] == rest[i];
        }
      }
    }
  }

  /** Elements that all differ still all differ. */
  lemma {:induction false} SortPairwise<T>(s: seq<T>, le: Order<T>, apart: Order<T>)
    requires Pairwise(s, apart)
    requires forall x, y :: x in s && y in s && apart(x, y) ==> apart(y, x)
    ensures Pairwise(Sort(s, le), apart)
    ensures multiset(Sort(s, le)) == multiset(s)
  {
    if s != [] {
      var rest := Sort(s[1..], le);
      SortPairwise(s[1..], le, apart);
      InsertContents(s[0], rest, le);
      assert s == [s[0]] + s[1..];
      forall y | y in rest ensures apart(s[0], y) && apart(y, s[0]) {
        assert y in multiset(rest);
        assert y in s[1..];
        var k :| 0 <= k < |s[1..]| && s[1..][k] == y;
        assert s[k + 1] == y;
      }
      InsertPairwise(s[0], rest, le, apart);
    }
  }

  /** The elements that rank the same as `a`, in their order. */
  function Rank<T>(s: seq<T>, le: Order<T>, a: T): seq<T> {
    if s == [] then [] else (if le(a, s[0]) && le(s[0], a) then [s[0]] else []) + Rank(s[1..], le, a)
  }

  lemma {:induction false} InsertStable<T(!new)>(x: T, sorted: seq<T>, le: Order<T>, a: T)
    requires TotalPreorder(le)
    ensures Rank(Insert(x, sorted, le), le, a) == Rank([x] + sorted, le, a)
  {
    if sorted == [] || le(x, sorted[0]) {
    } else {
      InsertStable(x, sorted[1..], le, a);
      var inserted, rest := Insert(x, sorted, le), Insert(x, sorted[1..], le);
      assert inserted[1..] == rest;
      assert ([x] + sorted)[1..] == sorted && ([x] + sorted[1..])[1..] == sorted[1..];
      assert le(sorted[0], x) && !le(x, sorted[0]);
    }
  }

  /** The sort is stable: elements of one rank keep their order. */
  lemma {:induction false} SortStable<T(!new)>(s: seq<T>, le: Order<T>, a: T)
    requires TotalPreorder(le)
    ensures Rank(Sort(s, le), le, a) == Rank(s, le, a)
  {
    if s != [] {
      SortStable(s[1..], le, a);
      InsertStable(s[0], Sort(s[1..], le), le, a);
      assert ([s[0]] + Sort(s[1..], le))[1..] == Sort(s[1..], le);
    }
  }

  predicate InOrder<T(==)>(s: seq<T>, x: T, y: T) {
    exists i, j :: 0 <= i < j < |s| && s[i] == x && s[j] == y
  }

  lemma {:induction false} RankMembers<T(!new)>(s: seq<T>, le: Order<T>, a: T, x: T)
    ensures x in Rank(s, le, a) <==> x in s && le(a, x) && le(x, a)
  {
    if s != [] {
      RankMembers(s[1..], le, a, x);
    }
  }

  /** Elements of one rank stand in the same order among their rank as among all. */
  lemma {:induction false} RankBefore<T(!new)>(s: seq<T>, le: Order<T>, a: T, x: T, y: T)
    requires le(a, x) && le(x, a) && le(a, y) && le(y, a)
    ensures InOrder(Rank(s, le, a), x, y) <==> InOrder(s, x, y)
  {
    if s != [] {
      var rest, ranked := s[1..], Rank(s[1..], le, a);
      RankBefore(rest, le, a, x, y);
      RankMembers(rest, le, a, y);
      assert s == [s[0]] + rest;
      InOrderCons(s[0], rest, x, y);
      InOrderCons(s[0], ranked, x, y);
      hide InOrder;
      if le(a, s[0]) && le(s[0], a) {
        assert Rank(s, le, a) == [s[0]] + ranked;
      } else {
        assert Rank(s, le, a) == ranked && s[0] != x;
      }
    }
  }

  lemma InOrderCons<T>(first: T, rest: seq<T>, x: T, y: T)
    ensures InOrder([first] + rest, x, y) <==> (first == x && y in rest) || InOrder(rest, x, y)
  {
    var s := [first] + rest;
    if InOrder(s, x, y) {
      var i, j :| 0 <= i < j < |s| && s[i] == x && s[j] == y;
      assert rest[j - 1] == y;
      if i > 0 {
        assert rest[i - 1] == x;
      }
    }
    if first == x && y in rest {
      var j :| 0 <= j < |rest| && rest[j] == y;
      assert s[0] == x && s[j + 1] == y;
    }
    if InOrder(rest, x, y) {
      var i, j :| 0 <= i < j < |rest| && rest[i] == x && rest[j] == y;
      assert s[i + 1] == x && s[j + 1] == y;
    }
  }

  /** Sorting does not swap elements of one rank. */
  lemma SortKeepsBefore<T(!new)>(s: seq<T>, le: Order<T>, x: T, y: T)
    requires TotalPreorder(le) && le(x, y) && le(y, x)
    ensures InOrder(Sort(s, le), x, y) <==> InOrder(s, x, y)
  {
    hide InOrder, Sort, Rank;
    SortStable(s, le, x);
    RankBefore(s, le, x, x, y);
    RankBefore(Sort(s, le), le, x, x, y);
  }
}
