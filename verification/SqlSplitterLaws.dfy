/**
 What the splitter guarantees: the tokens of its grammar are the constructs they are named after,
 a script is exactly its statements with whitespace between them, and splitting is stable under
 concatenation, surrounding whitespace and rejoining.
 */
module SqlSplitterLaws {
  import opened Outcomes
  import opened SqlSplitter

  // ---------------------------------------------------------------- what the tokens are

  /** Text that stays inside a quoted construct: every quote in it is doubled. */
  predicate QuoteBody(q: char, b: string) {
    || b == ""
    || (b[0] != q && QuoteBody(q, b[1..]))
    || (|b| > 1 && b[0] == q && b[1] == q && QuoteBody(q, b[2..]))
  }

  /** A quoted token ends at the first quote that is not doubled; it is open exactly when none is. */
  lemma {:induction false} QuoteEndIff(q: char, s: string, n: nat)
    ensures QuoteEnd(q, s) == Some(n) <==>
      1 <= n <= |s| && QuoteBody(q, s[..n - 1]) && s[n - 1] == q && (n < |s| ==> s[n] != q)
    ensures QuoteEnd(q, s) == None <==> QuoteBody(q, s)
  {
    if s == "" {
    } else if s[0] != q {
      QuoteEndIff(q, s[1..], if n > 0 then n - 1 else 0);
      if 1 < n <= |s| {
        assert s[..n - 1][1..] == s[1..][..n - 2];
      }
    } else if |s| > 1 && s[1] == q {
      QuoteEndIff(q, s[2..], if n > 1 then n - 2 else 0);
      if 2 < n <= |s| {
        assert s[..n - 1][2..] == s[2..][..n - 3];
      }
    } else if 1 < n <= |s| {
      assert s[..n - 1][0] == q && (n > 2 ==> s[..n - 1][1] == s[1]);
    }
  }

  predicate Nowhere(tag: string, s: string, n: int) {
    forall i :: 0 <= i < n && i <= |s| ==> !(tag <= s[i..])
  }

  lemma NowhereStep(tag: string, s: string, n: int)
    requires s != "" && !(tag <= s)
    ensures Nowhere(tag, s, n) <==> Nowhere(tag, s[1..], n - 1)
  {
    assert s[0..] == s;
    if Nowhere(tag, s, n) {
      forall i | 0 <= i < n - 1 && i <= |s[1..]| ensures !(tag <= s[1..][i..]) {
        assert s[1..][i..] == s[i + 1..];
      }
    }
    if Nowhere(tag, s[1..], n - 1) {
      forall i | 0 <= i < n && i <= |s| ensures !(tag <= s[i..]) {
        if i > 0 {
          assert s[1..][i - 1..] == s[i..];
        }
      }
    }
  }

  lemma NowhereEnds(tag: string, s: string, n: int)
    requires tag != ""
    ensures tag <= s && n > 0 ==> !Nowhere(tag, s, n)
    ensures n <= 0 || s == "" ==> Nowhere(tag, s, n)
  {
    assert s[0..] == s;
  }

  lemma DollarStep(tag: string, s: string)
    ensures DollarEnd(tag, s) ==
      if tag <= s then Some(|tag|) else if s == "" then None else Shift(1, DollarEnd(tag, s[1..]))
  {
  }

  /** A dollar body ends with the first occurrence of its tag; it is open exactly when there is none. */
  lemma {:induction false} DollarEndIff(tag: string, s: string, n: nat)
    requires tag != ""
    ensures DollarEnd(tag, s) == Some(n) <==>
      |tag| <= n <= |s| && tag <= s[n - |tag|..] && Nowhere(tag, s, n - |tag|)
    ensures DollarEnd(tag, s) == None <==> Nowhere(tag, s, |s| + 1)
  {
    hide Nowhere, DollarEnd;
    DollarStep(tag, s);
    NowhereEnds(tag, s, |s| + 1);
    assert s[0..] == s;
    if tag <= s {
      NowhereEnds(tag, s, n - |tag|);
    } else if s != "" {
      NowhereStep(tag, s, |s| + 1);
      DollarEndIff(tag, s[1..], if n > 0 then n - 1 else 0);
      if |tag| < n <= |s| {
        NowhereStep(tag, s, n - |tag|);
        assert s[1..][n - 1 - |tag|..] == s[n - |tag|..];
      }
    }
  }

  /** A line comment runs to the first newline, or to the end of the script. */
  lemma {:induction false} LineEndIff(s: string, n: nat)
    ensures LineEnd(s) == n <==>
      n <= |s| && (forall i :: 0 <= i < n - 1 ==> s[i] != '\n')
      && ((n > 0 && s[n - 1] == '\n') || (n == |s| && (n > 0 ==> s[n - 1] != '\n')))
  {
    if s != "" && s[0] != '\n' {
      LineEndIff(s[1..], if n > 0 then n - 1 else 0);
    }
  }

  /** One step of `BlockEnd`, so that the proofs below need not unfold it. */
  lemma BlockStep(depth: nat, s: string)
    requires depth > 0
    ensures BlockEnd(depth, s) ==
      if |s| < 2 then None
      else if s[0] == '/' && s[1] == '*' then Shift(2, BlockEnd(depth + 1, s[2..]))
      else if s[0] == '*' && s[1] == '/' then
        if depth == 1 then Some(2) else Shift(2, BlockEnd(depth - 1, s[2..]))
      else Shift(1, BlockEnd(depth, s[1..]))
  {
  }

  /** Block comments nest: a comment `depth` levels deep is one comment and then `depth - 1` more. */
  lemma {:induction false} BlockNests(depth: nat, outer: nat, s: string)
    requires depth > 0 && outer > 0
    ensures BlockEnd(depth + outer, s) ==
      match BlockEnd(depth, s)
      case None => None
      case Some(n) => Shift(n, BlockEnd(outer, s[n..]))
    decreases |s|
  {
    hide BlockEnd;
    BlockStep(depth, s);
    BlockStep(depth + outer, s);
    if |s| >= 2 {
      if s[0] == '/' && s[1] == '*' {
        BlockNests(depth + 1, outer, s[2..]);
        DropTwice(s, 2, BlockEnd(depth + 1, s[2..]));
      } else if s[0] == '*' && s[1] == '/' {
        if depth > 1 {
          BlockNests(depth - 1, outer, s[2..]);
          DropTwice(s, 2, BlockEnd(depth - 1, s[2..]));
        }
      } else {
        BlockNests(depth, outer, s[1..]);
        DropTwice(s, 1, BlockEnd(depth, s[1..]));
      }
    }
  }

  lemma DropTwice(s: string, n: nat, end: Option<nat>)
    requires n <= |s| && (end.Some? ==> end.value <= |s| - n)
    ensures end.Some? ==> s[n..][end.value..] == s[n + end.value..]
  {
  }

  /** The texts matched by the tag pattern: two dollar signs around an optional identifier. */
  predicate IsTag(t: string) {
    && |t| >= 2 && t[0] == '$' && t[|t| - 1] == '$'
    && (|t| > 2 ==> IsTagStart(t[1]))
    && forall i :: 1 <= i < |t| - 1 ==> IsTagChar(t[i])
  }

  lemma WordLengthIff(s: string)
    ensures var n := WordLength(s);
      (forall i :: 0 <= i < n ==> IsTagChar(s[i])) && (n < |s| ==> !IsTagChar(s[n]))
  {
  }

  lemma TagLengthIff(s: string, n: nat)
    requires s != "" && s[0] == '$' && n > 0
    ensures TagLength(s) == n <==> n <= |s| && IsTag(s[..n])
  {
    if |s| > 1 {
      WordLengthIff(s[1..]);
    }
    if n <= |s| && IsTag(s[..n]) {
      var t := s[..n];
      assert forall i :: 0 <= i < n ==> t[i] == s[i];
      assert forall i :: 0 <= i < n - 2 ==> IsTagChar(s[1..][i]) by {
        forall i | 0 <= i < n - 2 ensures IsTagChar(s[1..][i]) {
          assert IsTagChar(t[i + 1]);
        }
      }
    }
  }

  // ---------------------------------------------------------------- no lookahead crosses a boundary

  lemma {:induction false} QuoteEndPrefix(q: char, x: string, y: string)
    ensures QuoteEnd(q, x + y).Some? && QuoteEnd(q, x + y).value <= |x| ==> QuoteEnd(q, x) == QuoteEnd(q, x + y)
    ensures QuoteEnd(q, x).Some? && QuoteEnd(q, x).value < |x| ==> QuoteEnd(q, x + y) == QuoteEnd(q, x)
    decreases |x|
  {
    if x == "" {
      assert x + y == y;
    } else {
      assert (x + y)[1..] == x[1..] + y;
      QuoteEndPrefix(q, x[1..], y);
      if |x| > 1 {
        assert (x + y)[2..] == x[2..] + y;
        QuoteEndPrefix(q, x[2..], y);
      }
    }
  }

  lemma {:induction false} BlockEndPrefix(depth: nat, x: string, y: string)
    requires depth > 0
    ensures BlockEnd(depth, x + y).Some? && BlockEnd(depth, x + y).value <= |x| ==>
      BlockEnd(depth, x) == BlockEnd(depth, x + y)
    ensures BlockEnd(depth, x).Some? ==> BlockEnd(depth, x + y) == BlockEnd(depth, x)
    decreases |x|
  {
    hide BlockEnd;
    BlockStep(depth, x);
    BlockStep(depth, x + y);
    if |x| >= 2 {
      if x[0] == '/' && x[1] == '*' {
        assert (x + y)[2..] == x[2..] + y;
        BlockEndPrefix(depth + 1, x[2..], y);
      } else if x[0] == '*' && x[1] == '/' {
        if depth > 1 {
          assert (x + y)[2..] == x[2..] + y;
          BlockEndPrefix(depth - 1, x[2..], y);
        }
      } else {
        assert (x + y)[1..] == x[1..] + y;
        BlockEndPrefix(depth, x[1..], y);
      }
    }
  }

  lemma {:induction false} DollarEndPrefix(tag: string, x: string, y: string)
    ensures DollarEnd(tag, x + y).Some? && DollarEnd(tag, x + y).value <= |x| ==>
      DollarEnd(tag, x) == DollarEnd(tag, x + y)
    ensures DollarEnd(tag, x).Some? ==> DollarEnd(tag, x + y) == DollarEnd(tag, x)
    decreases |x|
  {
    if tag <= x {
      assert tag <= x + y;
    } else if |tag| <= |x| {
      assert (x + y)[..|tag|] == x[..|tag|];
    }
    if x != "" {
      assert (x + y)[1..] == x[1..] + y;
      DollarEndPrefix(tag, x[1..], y);
    } else {
      assert x + y == y;
    }
  }

  lemma {:induction false} LineEndPrefix(x: string, y: string)
    ensures LineEnd(x + y) <= |x| ==> LineEnd(x) == LineEnd(x + y)
    ensures LineEnd(x) < |x| ==> LineEnd(x + y) == LineEnd(x)
  {
    if x == "" {
      assert x + y == y;
    } else {
      assert (x + y)[1..] == x[1..] + y;
      LineEndPrefix(x[1..], y);
    }
  }

  lemma {:induction false} TagLengthPrefix(x: string, y: string)
    requires x != "" && x[0] == '$'
    ensures TagLength(x + y) <= |x| ==> TagLength(x) == TagLength(x + y)
    ensures !IsTagChar(x[|x| - 1]) && |x| > 1 ==> TagLength(x + y) == TagLength(x)
  {
    var n, m := TagLength(x), TagLength(x + y);
    if n > 0 {
      TagLengthIff(x, n);
      TagLengthIff(x + y, n);
      assert (x + y)[..n] == x[..n];
    }
    if m > 0 {
      TagLengthIff(x + y, m);
      if m <= |x| {
        TagLengthIff(x, m);
        assert (x + y)[..m] == x[..m];
      } else {
        var t := (x + y)[..m];
        assert t[|x| - 1] == x[|x| - 1];
      }
    }
  }

  /** A token that ends inside `x` is the token of `x`, whatever follows. */
  lemma {:induction false} ScanPrefix(x: string, y: string)
    requires x != "" && Scan(x + y).Some? && Scan(x + y).value <= |x|
    ensures Scan(x) == Scan(x + y)
  {
    var s := x + y;
    if s[0] == '\'' || s[0] == '"' {
      assert s[1..] == x[1..] + y;
      QuoteEndPrefix(s[0], x[1..], y);
    } else if |s| > 1 && s[0] == '-' && s[1] == '-' {
      assert s[2..] == x[2..] + y;
      LineEndPrefix(x[2..], y);
    } else if |s| > 1 && s[0] == '/' && s[1] == '*' {
      assert s[2..] == x[2..] + y;
      BlockEndPrefix(1, x[2..], y);
    } else if s[0] == '$' {
      TagLengthPrefix(x, y);
      var n := TagLength(s);
      if n > 0 {
        assert s[..n] == x[..n] && s[n..] == x[n..] + y;
        DollarEndPrefix(s[..n], x[n..], y);
      }
    }
  }

  /** A token of `a` that leaves something of `a` is still that token when `b` is appended. */
  lemma ScanExtends(a: string, b: string)
    requires a != "" && Scan(a).Some? && Scan(a).value < |a| && a[|a| - 1] == ';'
    ensures Scan(a + b) == Scan(a)
  {
    var s := a + b;
    assert |a| > 1 && s[0] == a[0] && s[1] == a[1];
    if s[0] == '\'' || s[0] == '"' {
      assert s[1..] == a[1..] + b;
      QuoteEndPrefix(s[0], a[1..], b);
    } else if s[0] == '-' && s[1] == '-' {
      assert s[2..] == a[2..] + b;
      LineEndPrefix(a[2..], b);
    } else if s[0] == '/' && s[1] == '*' {
      assert s[2..] == a[2..] + b;
      BlockEndPrefix(1, a[2..], b);
    } else if s[0] == '$' {
      TagLengthPrefix(a, b);
      var n := TagLength(a);
      if n > 0 {
        assert s[..n] == a[..n] && s[n..] == a[n..] + b;
        DollarEndPrefix(a[..n], a[n..], b);
      }
    }
  }

  /** A character that neither belongs to a delimiter or a tag nor begins one. */
  predicate Inert(c: char) {
    IsSpace(c) || c == ';'
  }

  /** Such a character after a text ends no construct: at most it lengthens an open line comment. */
  lemma ScanInert(s: string, c: char)
    requires s != "" && Inert(c)
    ensures Scan(s) == None <==> Scan(s + [c]) == None
    ensures Scan(s).Some? ==>
      || Scan(s + [c]) == Scan(s)
      || (Scan(s).value == |s| && Scan(s + [c]).value == |s| + 1)
  {
    hide QuoteEnd, BlockEnd, DollarEnd, TagLength, LineEnd, IsTag;
    var t := s + [c];
    if s[0] == '\'' || s[0] == '"' {
      assert t[1..] == s[1..] + [c];
      QuoteEndInert(s[0], s[1..], c);
    } else if |s| > 1 && s[0] == '-' && s[1] == '-' {
      assert t[2..] == s[2..] + [c];
      LineEndInert(s[2..], c);
    } else if |s| > 1 && s[0] == '/' && s[1] == '*' {
      assert t[2..] == s[2..] + [c];
      BlockEndInert(1, s[2..], c);
    } else if s[0] == '$' {
      TagLengthInert(s, c);
      var n := TagLength(s);
      if n > 0 {
        assert t[..n] == s[..n] && t[n..] == s[n..] + [c];
        TagLengthIff(s, n);
        DollarEndInert(s[..n], s[n..], c);
      }
    }
  }

  lemma {:induction false} QuoteEndInert(q: char, s: string, c: char)
    requires q != c
    ensures QuoteEnd(q, s + [c]) == QuoteEnd(q, s)
    decreases |s|
  {
    if s != "" {
      assert (s + [c])[1..] == s[1..] + [c];
      QuoteEndInert(q, s[1..], c);
      if |s| > 1 {
        assert (s + [c])[2..] == s[2..] + [c];
        QuoteEndInert(q, s[2..], c);
      }
    }
  }

  lemma {:induction false} LineEndInert(s: string, c: char)
    ensures LineEnd(s + [c]) == LineEnd(s) || (LineEnd(s) == |s| && LineEnd(s + [c]) == |s| + 1)
  {
    if s != "" {
      assert (s + [c])[1..] == s[1..] + [c];
      LineEndInert(s[1..], c);
    }
  }

  lemma {:induction false} BlockEndInert(depth: nat, s: string, c: char)
    requires depth > 0 && Inert(c)
    ensures BlockEnd(depth, s + [c]) == BlockEnd(depth, s)
    decreases |s|
  {
    hide BlockEnd;
    BlockStep(depth, s);
    BlockStep(depth, s + [c]);
    if s != "" {
      assert (s + [c])[1..] == s[1..] + [c];
      if |s| == 1 {
        BlockStep(depth, s[1..] + [c]);
      } else if s[0] == '/' && s[1] == '*' {
        assert (s + [c])[2..] == s[2..] + [c];
        BlockEndInert(depth + 1, s[2..], c);
      } else if s[0] == '*' && s[1] == '/' {
        if depth > 1 {
          assert (s + [c])[2..] == s[2..] + [c];
          BlockEndInert(depth - 1, s[2..], c);
        }
      } else {
        BlockEndInert(depth, s[1..], c);
      }
    }
  }

  lemma TagLengthInert(s: string, c: char)
    requires s != "" && s[0] == '$' && Inert(c)
    ensures TagLength(s + [c]) == TagLength(s)
  {
    var n, m := TagLength(s), TagLength(s + [c]);
    TagLengthPrefix(s, [c]);
    if n > 0 {
      TagLengthIff(s, n);
      TagLengthIff(s + [c], n);
      assert (s + [c])[..n] == s[..n];
    }
    if m > 0 {
      TagLengthIff(s + [c], m);
    }
  }

  lemma {:induction false} DollarEndInert(tag: string, s: string, c: char)
    requires IsTag(tag) && Inert(c)
    ensures DollarEnd(tag, s + [c]) == DollarEnd(tag, s)
    decreases |s|
  {
    var t := s + [c];
    if |tag| == |t| {
      assert t[|tag| - 1] == c != tag[|tag| - 1];
    } else if |tag| <= |s| {
      assert t[..|tag|] == s[..|tag|];
    }
    if !(tag <= s) && s != "" {
      assert t[1..] == s[1..] + [c];
      DollarEndInert(tag, s[1..], c);
    } else if s == "" {
      assert t[1..] == "";
    }
  }

  // ---------------------------------------------------------------- pieces

  function OpenWith(x: string, pieces: Option<seq<string>>): Option<seq<string>>
    requires pieces.Some? ==> pieces.value != []
  {
    match pieces
    case None => None
    case Some(ps) => Some([x + ps[0]] + ps[1..])
  }

  function CloseWith(pieces: Option<seq<string>>, x: string): Option<seq<string>>
    requires pieces.Some? ==> pieces.value != []
  {
    match pieces
    case None => None
    case Some(ps) => Some(ps[..|ps| - 1] + [ps[|ps| - 1] + x])
  }

  function After(ps: seq<string>, pieces: Option<seq<string>>): Option<seq<string>> {
    match pieces
    case None => None
    case Some(qs) => Some(ps + qs)
  }

  lemma ScanSemicolon(s: string)
    requires s != "" && s[0] == ';'
    ensures Scan(s) == Some(1)
  {
  }

  lemma ScanOneSpace(c: char)
    requires IsSpace(c)
    ensures Scan([c]) == Some(1)
  {
  }

  lemma {:induction false} PiecesOpen(open: string, s: string)
    ensures Pieces(open, s) == OpenWith(open, Pieces("", s))
    decreases |s|
  {
    hide Scan;
    if s == "" {
      assert open + "" == open && [""][1..] == [];
      assert Pieces("", s) == Some([""]);
      assert [open + ""] + [""][1..] == [open];
    } else if Scan(s).Some? {
      var n := Scan(s).value;
      if s[0] != ';' {
        PiecesOpen(open + s[..n], s[n..]);
        PiecesOpen("" + s[..n], s[n..]);
        var rest := Pieces("", s[n..]);
        if rest.Some? {
          assert open + (("" + s[..n]) + rest.value[0]) == (open + s[..n]) + rest.value[0];
          assert ([("" + s[..n]) + rest.value[0]] + rest.value[1..])[1..] == rest.value[1..];
        }
      } else if Pieces("", s[1..]).Some? {
        var rest := Pieces("", s[1..]).value;
        assert ([open + ";"] + rest)[1..] == rest == (["" + ";"] + rest)[1..];
        assert open + ("" + ";") == open + ";";
      }
    }
  }

  lemma {:induction false} PiecesSpace(open: string, s: string, c: char)
    requires IsSpace(c)
    ensures Pieces(open, s + [c]) == CloseWith(Pieces(open, s), [c])
    decreases |s|
  {
    hide Scan;
    var t := s + [c];
    if s == "" {
      assert t == [c] && t[..1] == [c] && t[1..] == "";
      ScanOneSpace(c);
      assert Pieces(open, t) == Pieces(open + [c], "") == Some([open + [c]]);
      assert [open][..0] + [open + [c]] == [open + [c]];
    } else {
      ScanInert(s, c);
      if s[0] == ';' {
        ScanSemicolon(s);
        ScanSemicolon(t);
      }
      if Scan(s).Some? {
        var n := Scan(s).value;
        if Scan(t) == Scan(s) {
          assert t[..n] == s[..n] && t[n..] == s[n..] + [c] && t[1..] == s[1..] + [c];
          if s[0] == ';' {
            PiecesSpace("", s[1..], c);
            var rest := Pieces("", s[1..]);
            if rest.Some? {
              var ps := [open + ";"] + rest.value;
              var closed := CloseWith(rest, [c]).value;
              assert [open + ";"] + closed == ps[..|ps| - 1] + [ps[|ps| - 1] + [c]];
            }
          } else {
            PiecesSpace(open + s[..n], s[n..], c);
          }
        } else {
          assert s[..n] == s && s[n..] == "" && t[..n + 1] == t && t[n + 1..] == "";
          assert open + t == (open + s) + [c];
          assert Pieces(open, s) == Some([open + s]) && Pieces(open, t) == Some([open + t]);
          assert [open + s][..0] + [(open + s) + [c]] == [open + t];
        }
      }
    }
  }

  /** The first piece of a text, read alone, is that piece; the rest of the text gives the others. */
  lemma {:induction false} FirstPiece(open: string, s: string) returns (x: string, y: string)
    requires Pieces(open, s).Some?
    ensures s == x + y && Pieces(open, s).value[0] == open + x
    ensures |Pieces(open, s).value| == 1 ==> y == ""
    ensures |Pieces(open, s).value| > 1 ==>
      && x != "" && x[|x| - 1] == ';'
      && Pieces("", y) == Some(Pieces(open, s).value[1..])
      && forall o :: Pieces(o, x) == Some([o + x, ""])
    decreases |s|
  {
    hide Scan;
    if s == "" {
      x, y := "", "";
    } else {
      var n := Scan(s).value;
      if s[0] == ';' {
        x, y := s[..1], s[1..];
        assert x == ";" && x[1..] == "";
        ScanSemicolon(x);
        assert ([open + ";"] + Pieces("", y).value)[1..] == Pieces("", y).value;
        forall o ensures Pieces(o, x) == Some([o + x, ""]) {
          assert Pieces("", x[1..]) == Some([""]);
          assert [o + ";"] + [""] == [o + x, ""];
        }
      } else {
        var more;
        more, y := FirstPiece(open + s[..n], s[n..]);
        x := s[..n] + more;
        assert s == x + y && open + x == (open + s[..n]) + more;
        ScanPrefix(x, y);
        assert x[..n] == s[..n] && x[n..] == more;
        if |Pieces(open, s).value| > 1 {
          forall o ensures Pieces(o, x) == Some([o + x, ""]) {
            assert Pieces(o, x) == Pieces(o + s[..n], more);
            assert (o + s[..n]) + more == o + x;
          }
        }
      }
    }
  }

  /** A text whose last character is a top-level `;` (or that is empty) is cut off from what follows. */
  predicate EndsStatement(a: string) {
    Pieces("", a).Some? && Pieces("", a).value[|Pieces("", a).value| - 1] == ""
  }

  lemma {:induction false} PiecesCompose(open: string, a: string, b: string)
    requires Pieces(open, a).Some? && a != ""
    requires var ps := Pieces(open, a).value; ps[|ps| - 1] == ""
    ensures var ps := Pieces(open, a).value;
      Pieces(open, a + b) == After(ps[..|ps| - 1], Pieces("", b))
    decreases |a|
  {
    hide Scan, Pieces;
    var ps := Pieces(open, a).value;
    var x, y := FirstPiece(open, a);
    if |ps| == 1 {
      assert false;
    }
    assert a + b == x + (y + b);
    FirstSemicolon(open, x, y + b);
    var init := ps[1..][..|ps| - 2];
    assert ps[..|ps| - 1] == [open + x] + init;
    if y == "" {
      EmptyPieces();
      assert y + b == b && init == [];
    } else {
      PiecesCompose("", y, b);
    }
    if Pieces("", b).Some? {
      var qs := Pieces("", b).value;
      assert ([open + x] + init) + qs == [open + x] + (init + qs);
      assert init == [] ==> init + qs == qs;
    }
  }

  /** A text that is one terminated piece stays that piece in front of any continuation. */
  lemma {:induction false} FirstSemicolon(open: string, x: string, rest: string)
    requires x != "" && Pieces(open, x) == Some([open + x, ""]) && x[|x| - 1] == ';'
    ensures Pieces(open, x + rest) == ConsPiece(open + x, Pieces("", rest))
    decreases |x|
  {
    var n := Scan(x).value;
    if x[0] == ';' {
      var ps := Pieces("", x[1..]).value;
      assert ([open + ";"] + ps)[0] == open + x;
      assert x == ";";
      assert (x + rest)[1..] == rest;
    } else {
      ScanExtends(x, rest);
      assert (x + rest)[..n] == x[..n] && (x + rest)[n..] == x[n..] + rest;
      assert open + x == (open + x[..n]) + x[n..];
      FirstSemicolon(open + x[..n], x[n..], rest);
    }
  }

  // ---------------------------------------------------------------- stripping

  lemma {:induction false} StripSpaceLeft(w: string, s: string)
    requires AllSpace(w)
    ensures StripLeft(w + s) == StripLeft(s)
  {
    if w == "" {
      assert w + s == s;
    } else {
      assert (w + s)[1..] == w[1..] + s;
      StripSpaceLeft(w[1..], s);
    }
  }

  lemma {:induction false} StripSpaceRight(s: string, w: string)
    requires AllSpace(w)
    ensures StripRight(s + w) == StripRight(s)
    decreases |w|
  {
    if w == "" {
      assert s + w == s;
    } else {
      assert (s + w)[..|s + w| - 1] == s + w[..|w| - 1];
      StripSpaceRight(s, w[..|w| - 1]);
    }
  }

  /** What stripping leaves, and what it takes away on either side. */
  lemma StripParts(s: string) returns (left: string, right: string)
    ensures s == left + Strip(s) + right && AllSpace(left) && AllSpace(right)
    ensures Strip(s) != "" ==> !IsSpace(Strip(s)[0]) && !IsSpace(Strip(s)[|Strip(s)| - 1])
  {
    left := StripLeftPart(s);
    right := StripRightPart(StripLeft(s));
    var core := StripLeft(s);
    if Strip(s) != "" {
      assert Strip(s)[0] == core[0];
    }
    assert left + (Strip(s) + right) == left + Strip(s) + right;
  }

  lemma {:induction false} StripLeftPart(s: string) returns (left: string)
    ensures s == left + StripLeft(s) && AllSpace(left)
    ensures StripLeft(s) != "" ==> !IsSpace(StripLeft(s)[0])
  {
    if s != "" && IsSpace(s[0]) {
      left := StripLeftPart(s[1..]);
      left := [s[0]] + left;
    } else {
      left := "";
    }
  }

  lemma {:induction false} StripRightPart(s: string) returns (right: string)
    ensures s == StripRight(s) + right && AllSpace(right)
    ensures StripRight(s) != "" ==> !IsSpace(StripRight(s)[|StripRight(s)| - 1])
    ensures StripRight(s) <= s
  {
    if s != "" && IsSpace(s[|s| - 1]) {
      right := StripRightPart(s[..|s| - 1]);
      right := right + [s[|s| - 1]];
      assert s == s[..|s| - 1] + [s[|s| - 1]];
    } else {
      right := "";
    }
  }

  lemma {:induction false} PiecesBeforeSpace(s: string, right: string)
    requires AllSpace(right)
    ensures Pieces("", s + right) == CloseWith(Pieces("", s), right)
    decreases |right|
  {
    hide Scan, Pieces;
    var all := Pieces("", s);
    if right == "" {
      assert s + right == s;
      if all.Some? {
        var ps := all.value;
        assert ps[|ps| - 1] + "" == ps[|ps| - 1];
        assert ps[..|ps| - 1] + [ps[|ps| - 1] + ""] == ps;
      }
    } else {
      var r, c := right[..|right| - 1], right[|right| - 1];
      PiecesBeforeSpace(s, r);
      assert s + right == (s + r) + [c];
      PiecesSpace("", s + r, c);
      if all.Some? {
        var ps := all.value;
        var qs := ps[..|ps| - 1] + [ps[|ps| - 1] + r];
        assert (ps[|ps| - 1] + r) + [c] == ps[|ps| - 1] + right;
        assert qs[..|qs| - 1] + [qs[|qs| - 1] + [c]] == ps[..|ps| - 1] + [ps[|ps| - 1] + right];
      }
    }
  }

  lemma {:induction false} PiecesAfterSpace(left: string, s: string)
    requires AllSpace(left)
    ensures Pieces("", left + s) == OpenWith(left, Pieces("", s))
  {
    hide Scan, Pieces;
    var all := Pieces("", s);
    if left == "" {
      assert left + s == s;
      if all.Some? {
        assert "" + all.value[0] == all.value[0] && [all.value[0]] + all.value[1..] == all.value;
      }
    } else {
      var c, l := left[0], left[1..];
      PiecesAfterSpace(l, s);
      assert left + s == [c] + (l + s);
      ScanLeadingSpace(c, l + s);
      PiecesOpen([c], l + s);
      if all.Some? {
        var ps := all.value;
        assert [c] + (l + ps[0]) == left + ps[0];
        assert ([l + ps[0]] + ps[1..])[1..] == ps[1..];
      }
    }
  }

  /** Whitespace around a text changes only the whitespace of its first and last piece. */
  lemma {:induction false} PiecesInSpace(left: string, s: string, right: string)
    requires AllSpace(left) && AllSpace(right)
    ensures Pieces("", left + s + right) == OpenWith(left, CloseWith(Pieces("", s), right))
  {
    hide Scan, Pieces;
    assert left + s + right == left + (s + right);
    PiecesBeforeSpace(s, right);
    PiecesAfterSpace(left, s + right);
  }

  lemma ScanLeadingSpace(c: char, s: string)
    requires IsSpace(c)
    ensures Pieces("", [c] + s) == Pieces([c], s)
  {
    var t := [c] + s;
    assert Scan(t) == Some(1);
    assert t[..1] == [c] && t[1..] == s && "" + [c] == [c];
  }

  lemma {:induction false} StatementsAppend(ps: seq<string>, qs: seq<string>)
    ensures Statements(ps + qs) == Statements(ps) + Statements(qs)
  {
    if ps == [] {
      assert ps + qs == qs;
    } else {
      assert (ps + qs)[1..] == ps[1..] + qs;
      StatementsAppend(ps[1..], qs);
    }
  }

  // ---------------------------------------------------------------- main results

  /** A statement with exactly one top-level `;`, at its end. */
  predicate Terminated(st: string) {
    Pieces("", st) == Some([st, ""])
  }

  /** A statement without a top-level `;`, complete but for an open line comment at most. */
  predicate Unterminated(st: string) {
    Pieces("", st) == Some([st])
  }

  predicate Bare(st: string) {
    st != "" && !IsSpace(st[0]) && !IsSpace(st[|st| - 1])
  }

  /** Statement lists that the splitter can emit: only the last may lack its `;`. */
  predicate Canonical(sts: seq<string>) {
    forall i :: 0 <= i < |sts| ==>
      Bare(sts[i]) && (Terminated(sts[i]) || (i == |sts| - 1 && Unterminated(sts[i])))
  }

  predicate Gaps(gaps: seq<string>, n: nat) {
    |gaps| == n + 1 && forall i :: 0 <= i <= n ==> AllSpace(gaps[i])
  }

  /** The statements with the gaps before, between and after them. */
  function Weave(gaps: seq<string>, sts: seq<string>): string
    requires |gaps| == |sts| + 1
  {
    if sts == [] then gaps[0] else gaps[0] + sts[0] + Weave(gaps[1..], sts[1..])
  }

  lemma OneOrTwo(left: string, ps: seq<string>, right: string)
    requires ps != []
    ensures var qs := OpenWith(left, CloseWith(Some(ps), right)).value;
      && |qs| == |ps|
      && (|ps| == 1 ==> qs == [left + ps[0] + right])
      && (|ps| == 2 ==> qs == [left + ps[0], ps[1] + right])
  {
    if |ps| == 1 {
      assert left + (ps[0] + right) == left + ps[0] + right;
    }
  }

  lemma StripInSpace(left: string, st: string, right: string)
    requires AllSpace(left) && AllSpace(right) && (st == "" || Bare(st))
    ensures Strip(left + st + right) == st
  {
    assert left + st + right == left + (st + right);
    StripSpaceLeft(left, st + right);
    if st == "" {
      assert st + right == right + "";
      StripSpaceLeft(right, "");
    } else {
      StripSpaceRight(st, right);
    }
  }

  lemma StripTerminated(x: string) returns (left: string)
    requires x != "" && x[|x| - 1] == ';' && Terminated(x)
    ensures AllSpace(left) && x == left + Strip(x) && Bare(Strip(x)) && Terminated(Strip(x))
  {
    hide Pieces, Scan;
    var right;
    left, right := StripParts(x);
    var st := Strip(x);
    assert right == "" && st != "";
    assert x == left + st && left + st + "" == x;
    PiecesInSpace(left, st, "");
    var ps := Pieces("", st).value;
    OneOrTwo(left, ps, "");
    assert ps[1] + "" == ps[1];
    assert left + ps[0] == left + st;
    assert (left + ps[0])[|left|..] == ps[0] && (left + st)[|left|..] == st;
    assert ps == [st, ""];
  }

  lemma StripUnterminated(x: string) returns (left: string, right: string)
    requires Unterminated(x) && Strip(x) != ""
    ensures AllSpace(left) && AllSpace(right) && x == left + Strip(x) + right
    ensures Bare(Strip(x)) && Unterminated(Strip(x))
  {
    hide Pieces, Scan;
    left, right := StripParts(x);
    var st := Strip(x);
    PiecesInSpace(left, st, right);
    var ps := Pieces("", st).value;
    OneOrTwo(left, ps, right);
    assert left + (ps[0] + right) == left + ps[0] + right == x == left + (st + right);
    assert (left + (ps[0] + right))[|left|..] == ps[0] + right;
    assert (left + (st + right))[|left|..] == st + right;
    assert |ps[0]| == |st|;
    assert (ps[0] + right)[..|st|] == ps[0] && (st + right)[..|st|] == st;
    assert ps == [st];
  }

  /** The case of one piece: no top-level `;` at all. */
  lemma LosslessTail(script: string) returns (gaps: seq<string>)
    requires Unterminated(script)
    ensures var sts := Statement(script);
      Canonical(sts) && Gaps(gaps, |sts|) && Weave(gaps, sts) == script
  {
    hide Pieces, Scan, Strip, Terminated, Unterminated;
    if Strip(script) == "" {
      var left, right := StripParts(script);
      assert left + "" + right == script;
      gaps := [script];
    } else {
      var left, right := StripUnterminated(script);
      gaps := [left, right];
      assert gaps[1..] == [right] && [Strip(script)][1..] == [];
    }
  }

  /** An accepted script is its statements with only whitespace between them. */
  lemma {:induction false} Lossless(script: string) returns (gaps: seq<string>)
    requires Split(script).Some?
    ensures var sts := Split(script).value;
      Canonical(sts) && Gaps(gaps, |sts|) && Weave(gaps, sts) == script
    decreases |script|
  {
    hide Pieces, Scan, Strip;
    var ps := Pieces("", script).value;
    var x, y := FirstPiece("", script);
    assert "" + x == x;
    if |ps| == 1 {
      assert ps == [x] && x + "" == x;
      StatementsOne(x);
      gaps := LosslessTail(x);
    } else {
      hide AllSpace;
      var left := StripTerminated(x);
      var more := Lossless(y);
      var st, rest := Strip(x), Statements(ps[1..]);
      assert Statements(ps) == [st] + rest;
      gaps := [left] + more;
      assert gaps[1..] == more && ([st] + rest)[1..] == rest;
    }
  }

  /** Any respacing of a canonical statement list splits into that list. */
  lemma {:induction false} Rejoin(gaps: seq<string>, sts: seq<string>)
    requires Canonical(sts) && Gaps(gaps, |sts|)
    ensures Split(Weave(gaps, sts)) == Some(sts)
    decreases |sts|
  {
    hide Pieces, Scan, Strip;
    var script := Weave(gaps, sts);
    if sts == [] {
      assert script == script + "" + "";
      PiecesInSpace(script, "", "");
      EmptyPieces();
      OneOrTwo(script, [""], "");
      StripInSpace(script, "", "");
      StatementsOne(script);
    } else if |sts| == 1 && Unterminated(sts[0]) {
      assert sts[1..] == [] && Weave(gaps[1..], sts[1..]) == gaps[1];
      assert script == gaps[0] + sts[0] + gaps[1];
      PiecesInSpace(gaps[0], sts[0], gaps[1]);
      OneOrTwo(gaps[0], [sts[0]], gaps[1]);
      StripInSpace(gaps[0], sts[0], gaps[1]);
      assert Pieces("", script) == Some([script]);
      StatementsOne(script);
      assert Statement(script) == [sts[0]] == sts;
    } else {
      var first, rest := gaps[0] + sts[0], Weave(gaps[1..], sts[1..]);
      Rejoin(gaps[1..], sts[1..]);
      PiecesInSpace(gaps[0], sts[0], "");
      OneOrTwo(gaps[0], [sts[0], ""], "");
      assert gaps[0] + sts[0] + "" == first && "" + "" == "";
      assert Pieces("", first) == Some([first, ""]);
      StripInSpace(gaps[0], sts[0], "");
      PiecesCompose("", first, rest);
      var qs := Pieces("", rest).value;
      assert [first, ""][..1] == [first];
      assert ([first] + qs)[1..] == qs;
      assert Statements([first] + qs) == [sts[0]] + Statements(qs) == sts;
    }
  }

  lemma EmptyPieces()
    ensures Pieces("", "") == Some([""])
  {
  }

  lemma StatementsOne(piece: string)
    ensures Statements([piece]) == Statement(piece)
  {
    assert [piece][1..] == [];
    assert Statement(piece) + [] == Statement(piece);
  }

  /** The exact meaning of the splitter: `sts` is its answer when, and only when, `sts` is canonical
      and the script is `sts` respaced. */
  lemma SplitIff(script: string, sts: seq<string>)
    ensures Split(script) == Some(sts) <==>
      Canonical(sts) && exists gaps :: Gaps(gaps, |sts|) && Weave(gaps, sts) == script
  {
    hide Split, Canonical;
    if Split(script) == Some(sts) {
      var gaps := Lossless(script);
    }
    if Canonical(sts) && exists gaps :: Gaps(gaps, |sts|) && Weave(gaps, sts) == script {
      var gaps :| Gaps(gaps, |sts|) && Weave(gaps, sts) == script;
      Rejoin(gaps, sts);
    }
  }

  /** Splitting distributes over a script whose first part ends at a top-level `;`. */
  lemma SplitCompose(a: string, b: string)
    requires EndsStatement(a)
    ensures Split(a + b) == After(Split(a).value, Split(b))
  {
    hide Pieces, Scan, Strip;
    var ps := Pieces("", a).value;
    EmptyPieces();
    if a == "" {
      assert a + b == b;
      StatementsOne("");
      StripInSpace("", "", "");
      assert "" + "" + "" == "";
      if Split(b).Some? {
        assert [] + Split(b).value == Split(b).value;
      }
    } else {
      PiecesCompose("", a, b);
      var init := ps[..|ps| - 1];
      assert ps == init + [""];
      StatementsAppend(init, [""]);
      StatementsOne("");
      StripInSpace("", "", "");
      assert "" + "" + "" == "";
      assert Statements(ps) == Statements(init);
      if Pieces("", b).Some? {
        StatementsAppend(init, Pieces("", b).value);
      }
    }
  }

  /** Nothing but whitespace follows the last top-level `;`. */
  predicate EndsBlank(a: string)
    requires Pieces("", a).Some?
  {
    var ps := Pieces("", a).value;
    AllSpace(ps[|ps| - 1])
  }

  /** A text is what ends at its last top-level `;` and its last piece. */
  lemma {:induction false} CutLast(a: string) returns (y: string, w: string)
    requires Pieces("", a).Some?
    ensures a == y + w && EndsStatement(y) && Pieces("", w) == Some([w])
    ensures var ps := Pieces("", a).value; w == ps[|ps| - 1]
    decreases |a|
  {
    hide Pieces, Scan;
    EmptyPieces();
    var ps := Pieces("", a).value;
    var x, rest := FirstPiece("", a);
    assert "" + x == x;
    if |ps| == 1 {
      y, w := "", a;
      assert x + "" == x && ps == [a];
    } else {
      y, w := CutLast(rest);
      assert a == (x + y) + w;
      FirstSemicolon("", x, y);
      y := x + y;
    }
  }

  lemma BlankIff(s: string)
    ensures Strip(s) == "" <==> AllSpace(s)
  {
    var left, right := StripParts(s);
    var core := Strip(s);
    if core != "" {
      assert s == left + core + right && s[|left|] == core[0];
    }
  }

  lemma BlankFirst(w: string, b: string)
    requires AllSpace(w)
    ensures Split(w + b) == Split(b)
  {
    hide Pieces, Scan, Strip, AllSpace;
    PiecesAfterSpace(w, b);
    if Pieces("", b).Some? {
      var ps := Pieces("", b).value;
      assert ([w + ps[0]] + ps[1..])[1..] == ps[1..];
      BlankStripped(w, ps[0]);
    }
  }

  lemma BlankStripped(w: string, s: string)
    requires AllSpace(w)
    ensures Strip(w + s) == Strip(s)
  {
    StripSpaceLeft(w, s);
  }

  /** A semicolon after a text without one ends it, or disappears in its open line comment. */
  lemma {:induction false} PiecesSemicolon(open: string, s: string)
    requires Pieces(open, s) == Some([open + s])
    ensures Pieces(open, s + ";") in {Some([open + s + ";"]), Some([open + s + ";", ""])}
    decreases |s|
  {
    hide Scan;
    var t := s + ";";
    if s == "" {
      ScanSemicolon(t);
      assert t[1..] == "" && open + s + ";" == open + ";";
      assert Pieces("", t[1..]) == Some([""]);
      assert [open + ";"] + [""] == [open + ";", ""];
    } else {
      ScanInert(s, ';');
      var n := Scan(s).value;
      if s[0] == ';' {
        assert false;
      } else if Scan(t) == Scan(s) {
        assert t[..n] == s[..n] && t[n..] == s[n..] + ";";
        assert (open + s[..n]) + s[n..] == open + s;
        PiecesSemicolon(open + s[..n], s[n..]);
      } else {
        assert t[..n + 1] == t && t[n + 1..] == "";
        assert open + t == open + s + ";";
      }
    }
  }

  /** One statement, whether it has its semicolon or not. */
  lemma OneStatement(w: string)
    requires Pieces("", w) == Some([w]) && !AllSpace(w)
    ensures Split(w).Some? && |Split(w).value| == 1
    ensures Split(w + ";").Some? && |Split(w + ";").value| == 1
  {
    hide Pieces, Scan, Strip;
    assert "" + w == w;
    PiecesSemicolon("", w);
    BlankIff(w);
    BlankIff(w + ";");
    assert (w + ";")[|w|] == ';';
    StatementsOne(w);
    StatementsOne(w + ";");
    StatementsOne("");
    BlankIff("");
    assert [w + ";", ""] == [w + ";"] + [""];
    StatementsAppend([w + ";"], [""]);
  }

  lemma SplitSemicolon()
    ensures Split(";") == Some([";"])
  {
    hide Strip;
    EmptyPieces();
    var text := ";";
    ScanSemicolon(text);
    assert text[1..] == "" && "" + ";" == text;
    assert [text] + [""] == [text, ""];
    assert Pieces("", text) == Some([text, ""]);
    hide Pieces;
    BlankIff("");
    StripInSpace("", ";", "");
    assert "" + ";" + "" == ";";
    StatementsOne(";");
    StatementsOne("");
    StatementsAppend([";"], [""]);
    assert [";", ""] == [";"] + [""];
  }

  /** Where a script can be cut: what follows is split on its own, whatever it is, exactly when nothing but
      whitespace stands after the last top-level `;` before the cut. */
  lemma CutIff(a: string)
    requires Split(a).Some?
    ensures (forall b :: Split(a + b) == After(Split(a).value, Split(b))) <==> EndsBlank(a)
  {
    hide Pieces, Scan, Strip, Split, AllSpace;
    SplitPieces(a);
    var y, w := CutLast(a);
    SplitPieces(y);
    SplitCompose(y, w);
    if EndsBlank(a) {
      assert w + "" == w;
      BlankFirst(w, "");
      NothingToSplit();
      forall b ensures Split(a + b) == After(Split(a).value, Split(b)) {
        assert a + b == y + (w + b);
        SplitCompose(y, w + b);
        BlankFirst(w, b);
        assert Split(y).value + [] == Split(y).value;
      }
    } else {
      assert a + ";" == y + (w + ";");
      SplitCompose(y, w + ";");
      OneStatement(w);
      SplitSemicolon();
      assert Split(a + ";") != After(Split(a).value, Split(";"));
    }
  }

  lemma SplitPieces(s: string)
    ensures Split(s).Some? <==> Pieces("", s).Some?
  {
  }

  lemma NothingToSplit()
    ensures Split("") == Some([])
  {
    EmptyPieces();
    StatementsOne("");
    BlankIff("");
  }

  /** Every emitted statement splits into itself, and so does the concatenation of all of them. */
  lemma RoundTrip(script: string)
    requires Split(script).Some?
    ensures var sts := Split(script).value;
      && (forall i :: 0 <= i < |sts| ==> Split(sts[i]) == Some([sts[i]]))
      && Split(Concat(sts)) == Some(sts)
  {
    hide Split, Terminated, Unterminated, Bare;
    var sts := Split(script).value;
    var _ := Lossless(script);
    forall i | 0 <= i < |sts| ensures Split(sts[i]) == Some([sts[i]]) {
      Rejoin(["", ""], [sts[i]]);
      assert ["", ""][1..] == [""] && "" + sts[i] + "" == sts[i];
      assert Weave(["", ""], [sts[i]]) == sts[i];
    }
    var none := seq(|sts| + 1, _ => "");
    Rejoin(none, sts);
    WeaveNone(sts);
  }

  lemma {:induction false} WeaveNone(sts: seq<string>)
    ensures Weave(seq(|sts| + 1, _ => ""), sts) == Concat(sts)
  {
    if sts != [] {
      WeaveNone(sts[1..]);
      assert seq(|sts| + 1, _ => "")[1..] == seq(|sts[1..]| + 1, _ => "");
      assert "" + sts[0] == sts[0];
    }
  }

  /** A construct that starts at `s[0]` and is still open at the end of `s`. */
  predicate LeftOpen(s: string) {
    && s != ""
    && if "/*" <= s then BlockEnd(1, s[2..]) == None
       else if s[0] == '\'' || s[0] == '"' then QuoteBody(s[0], s[1..])
       else s[0] == '$' && exists n :: 0 < n <= |s| && IsTag(s[..n]) && Nowhere(s[..n], s[n..], |s|)
  }

  lemma ScanNoneIff(s: string)
    requires s != ""
    ensures Scan(s) == None <==> LeftOpen(s)
  {
    hide QuoteEnd, BlockEnd, DollarEnd, TagLength, LineEnd, QuoteBody, IsTag;
    if s[0] == '\'' || s[0] == '"' {
      QuoteEndIff(s[0], s[1..], 0);
    } else if s[0] == '$' {
      var n := TagLength(s);
      if n > 0 {
        TagLengthIff(s, n);
        DollarEndIff(s[..n], s[n..], 0);
      }
      if LeftOpen(s) {
        var m :| 0 < m <= |s| && IsTag(s[..m]) && Nowhere(s[..m], s[m..], |s|);
        TagLengthIff(s, m);
      }
    }
  }

  /** `k` lies between two tokens of `s`. */
  predicate Boundary(s: string, k: nat)
    decreases |s|
  {
    k == 0 || (s != "" && Scan(s).Some? && Scan(s).value <= k && Boundary(s[Scan(s).value..], k - Scan(s).value))
  }

  lemma {:induction false} PiecesNoneIff(open: string, s: string)
    ensures Pieces(open, s) == None <==> exists k :: 0 <= k < |s| && Boundary(s, k) && LeftOpen(s[k..])
    decreases |s|
  {
    hide LeftOpen;
    if s != "" {
      ScanNoneIff(s);
      assert s[0..] == s && Boundary(s, 0);
      if Scan(s).Some? {
        var n := Scan(s).value;
        if s[0] == ';' {
          ScanSemicolon(s);
        }
        PiecesNoneIff(if s[0] == ';' then "" else open + s[..n], s[n..]);
        forall k | 0 <= k < |s| && Boundary(s, k) && LeftOpen(s[k..])
          ensures Pieces(open, s) == None
        {
          assert k != 0 && s[n..][k - n..] == s[k..];
        }
        if Pieces(open, s) == None {
          var j :| 0 <= j < |s[n..]| && Boundary(s[n..], j) && LeftOpen(s[n..][j..]);
          assert s[n..][j..] == s[n + j..] && Boundary(s, n + j);
        }
      }
    }
  }

  /** A script is rejected exactly when some quote, block comment or dollar body that starts
      between two tokens is never closed. An open line comment is accepted. */
  lemma RejectIff(script: string)
    ensures Split(script) == None <==>
      exists k :: 0 <= k < |script| && Boundary(script, k) && LeftOpen(script[k..])
  {
    PiecesNoneIff("", script);
  }
}
