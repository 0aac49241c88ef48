/** Sizes of finite sets. */
module FiniteSets {

  lemma {:induction false} SubsetSize<T>(a: set<T>, b: set<T>)
    requires a <= b
    ensures |a| <= |b| && (|a| == |b| ==> a == b)
  {
    if a != {} {
      var x :| x in a;
      SubsetSize(a - {x}, b - {x});
      assert a == a - {x} + {x} && b == b - {x} + {x};
    }
  }

  function SetOf<T(==)>(s: seq<T>): set<T> {
    set x | x in s
  }

  predicate Unrepeated<T(==)>(s: seq<T>) {
    forall i, j :: 0 <= i < j < |s| ==> s[i] != s[j]
  }

  /** A sequence repeats nothing exactly when its elements are as many as its length. */
  lemma {:induction false} DistinctSize<T>(s: seq<T>)
    ensures |SetOf(s)| <= |s| && (|SetOf(s)| == |s| <==> Unrepeated(s))
  {
    if s != [] {
      var n := |s| - 1;
      DistinctSize(s[..n]);
      assert s == s[..n] + [s[n]];
      assert SetOf(s) == SetOf(s[..n]) + {s[n]};
      if s[n] in s[..n] {
        var i :| 0 <= i < n && s[i] == s[n];
        assert !Unrepeated(s);
      } else {
        assert Unrepeated(s) <==> Unrepeated(s[..n]);
      }
    }
  }
}
