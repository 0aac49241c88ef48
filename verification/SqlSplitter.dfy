/**
 The statement splitter for the frozen reference DDL (server/migrations/migration_support.py).

 The specification is a token grammar over the remaining text: `Scan` gives the length of the
 token that starts a text, `Pieces` cuts a text after every top-level `;`, and `Split` strips the
 pieces and drops the blank ones. `SplitSql` is the character machine with its seven variables;
 it is proved to compute `Split`.
 */
module SqlSplitter {
  import opened Outcomes

  // ---------------------------------------------------------------- characters

  /** The characters that Python's str.strip removes. */
  predicate IsSpace(c: char) {
    var n := c as int;
    || 9 <= n <= 13 || 28 <= n <= 32 || n == 133 || n == 160 || n == 5760
    || 8192 <= n <= 8202 || n == 8232 || n == 8233 || n == 8239 || n == 8287 || n == 12288
  }

  predicate IsTagStart(c: char) {
    'A' <= c <= 'Z' || 'a' <= c <= 'z' || c == '_'
  }

  predicate IsTagChar(c: char) {
    IsTagStart(c) || '0' <= c <= '9'
  }

  predicate AllSpace(s: string) {
    forall i :: 0 <= i < |s| ==> IsSpace(s[i])
  }

  function StripLeft(s: string): string {
    if s != "" && IsSpace(s[0]) then StripLeft(s[1..]) else s
  }

  function StripRight(s: string): string {
    if s != "" && IsSpace(s[|s| - 1]) then StripRight(s[..|s| - 1]) else s
  }

  function Strip(s: string): string {
    StripRight(StripLeft(s))
  }

  // ---------------------------------------------------------------- the token grammar

  function Shift(n: nat, end: Option<nat>): Option<nat> {
    match end
    case None => None
    case Some(k) => Some(n + k)
  }

  /** Characters up to and including the newline that ends a line comment, or all of them. */
  function LineEnd(s: string): (n: nat)
    ensures n <= |s|
  {
    if s == "" then 0 else if s[0] == '\n' then 1 else 1 + LineEnd(s[1..])
  }

  /** Characters up to the closing quote; a doubled quote stays inside. */
  function QuoteEnd(q: char, s: string): (end: Option<nat>)
    ensures end.Some? ==> 1 <= end.value <= |s|
  {
    if s == "" then None
    else if s[0] != q then Shift(1, QuoteEnd(q, s[1..]))
    else if |s| > 1 && s[1] == q then Shift(2, QuoteEnd(q, s[2..]))
    else Some(1)
  }

  /** Characters up to the comment closer that brings the nesting depth back to zero. */
  function BlockEnd(depth: nat, s: string): (end: Option<nat>)
    requires depth > 0
    ensures end.Some? ==> 2 <= end.value <= |s|
    decreases |s|
  {
    if |s| < 2 then None
    else if s[0] == '/' && s[1] == '*' then Shift(2, BlockEnd(depth + 1, s[2..]))
    else if s[0] == '*' && s[1] == '/' then
      if depth == 1 then Some(2) else Shift(2, BlockEnd(depth - 1, s[2..]))
    else Shift(1, BlockEnd(depth, s[1..]))
  }

  /** Characters up to the end of the first occurrence of the closing tag. */
  function DollarEnd(tag: string, s: string): (end: Option<nat>)
    ensures end.Some? ==> |tag| <= end.value <= |s|
  {
    if tag <= s then Some(|tag|)
    else if s == "" then None
    else Shift(1, DollarEnd(tag, s[1..]))
  }

  function WordLength(s: string): (n: nat)
    ensures n <= |s|
  {
    if s != "" && IsTagChar(s[0]) then 1 + WordLength(s[1..]) else 0
  }

  /** Length of the dollar-quote tag that starts `s`, or 0 when there is none. */
  function TagLength(s: string): (n: nat)
    requires s != "" && s[0] == '$'
    ensures n == 0 || 2 <= n <= |s|
  {
    if |s| > 1 && s[1] == '$' then 2
    else if |s| > 1 && IsTagStart(s[1]) then
      var word := 1 + WordLength(s[1..]);
      if word < |s| && s[word] == '$' then word + 1 else 0
    else 0
  }

  /** Length of the token at the start of `s`; `None` when it is opened and never closed. */
  function Scan(s: string): (end: Option<nat>)
    requires s != ""
    ensures end.Some? ==> 1 <= end.value <= |s|
  {
    if |s| > 1 && s[0] == '-' && s[1] == '-' then Some(2 + LineEnd(s[2..]))
    else if |s| > 1 && s[0] == '/' && s[1] == '*' then Shift(2, BlockEnd(1, s[2..]))
    else if s[0] == '\'' || s[0] == '"' then Shift(1, QuoteEnd(s[0], s[1..]))
    else if s[0] == '$' && TagLength(s) > 0 then
      Shift(TagLength(s), DollarEnd(s[..TagLength(s)], s[TagLength(s)..]))
    else Some(1)
  }

  function ConsPiece(piece: string, pieces: Option<seq<string>>): Option<seq<string>> {
    match pieces
    case None => None
    case Some(ps) => Some([piece] + ps)
  }

  /** `s` cut after every top-level `;`; `open` is the text of the piece already begun. */
  function Pieces(open: string, s: string): (pieces: Option<seq<string>>)
    ensures pieces.Some? ==> pieces.value != []
    decreases |s|
  {
    if s == "" then Some([open])
    else
      match Scan(s)
      case None => None
      case Some(n) =>
        if s[0] == ';' then ConsPiece(open + ";", Pieces("", s[1..]))
        else Pieces(open + s[..n], s[n..])
  }

  function Statement(piece: string): seq<string> {
    if Strip(piece) == "" then [] else [Strip(piece)]
  }

  function Statements(pieces: seq<string>): seq<string> {
    if pieces == [] then [] else Statement(pieces[0]) + Statements(pieces[1..])
  }

  /** The statements of a script, or `None` when some construct is left open. */
  function Split(script: string): Option<seq<string>> {
    match Pieces("", script)
    case None => None
    case Some(ps) => Some(Statements(ps))
  }

  function Concat(pieces: seq<string>): string {
    if pieces == [] then "" else pieces[0] + Concat(pieces[1..])
  }

  // ---------------------------------------------------------------- the character machine

  datatype Mode = Top | Single | Double | Line | Block(depth: nat) | Dollar(tag: string)

  /** The one mode that the five flags of the machine stand for. */
  function ModeOf(single: bool, double: bool, line: bool, depth: nat, tag: Option<string>): Mode {
    if tag.Some? then Dollar(tag.value)
    else if line then Line
    else if depth > 0 then Block(depth)
    else if single then Single
    else if double then Double
    else Top
  }

  /** What is still to be read of the token the machine is in the middle of. */
  function Rest(mode: Mode, s: string): (rest: Option<nat>)
    requires mode.Block? ==> mode.depth > 0
    ensures rest.Some? ==> rest.value <= |s|
  {
    match mode
    case Top => Some(0)
    case Single => QuoteEnd('\'', s)
    case Double => QuoteEnd('"', s)
    case Line => Some(LineEnd(s))
    case Block(depth) => BlockEnd(depth, s)
    case Dollar(tag) => DollarEnd(tag, s)
  }

  function OwedFrom(done: seq<string>, current: string, rest: Option<nat>, s: string)
    : Option<seq<string>>
    requires rest.Some? ==> rest.value <= |s|
  {
    match rest
    case None => None
    case Some(n) =>
      match Pieces(current + s[..n], s[n..])
      case None => None
      case Some(ps) => Some(done + Statements(ps))
  }

  /** The result the machine owes when it has emitted `done`, holds `current` and has `s` to read. */
  function Owed(done: seq<string>, current: string, mode: Mode, s: string): Option<seq<string>>
    requires mode.Block? ==> mode.depth > 0
  {
    OwedFrom(done, current, Rest(mode, s), s)
  }

  lemma OwedAfter(done: seq<string>, current: string, n: nat, rest: Option<nat>, s: string)
    requires n <= |s| && (rest.Some? ==> rest.value <= |s| - n)
    ensures OwedFrom(done, current, Shift(n, rest), s) == OwedFrom(done, current + s[..n], rest, s[n..])
    ensures n == 1 ==> s[..n] == [s[0]]
    ensures n == 2 ==> s[..n] == [s[0], s[1]]
  {
    if rest.Some? {
      assert current + s[..n + rest.value] == (current + s[..n]) + s[n..][..rest.value];
      assert s[n + rest.value..] == s[n..][rest.value..];
    }
  }

  lemma OwedAtEnds(script: string, done: seq<string>, current: string)
    ensures Owed([], "", Top, script) == Split(script)
    ensures Owed(done, current, Top, "") == Some(done + Statement(current))
  {
    assert "" + script[..0] == "" && script[0..] == script;
    assert current + ""[..0] == current && ""[0..] == "";
    assert Pieces(current, "") == Some([current]);
    assert [current][0] == current && [current][1..] == [];
    assert Statements([current]) == Statement(current) + Statements([]) == Statement(current);
    if Pieces("", script).Some? {
      assert [] + Statements(Pieces("", script).value) == Statements(Pieces("", script).value);
    }
  }

  // One lemma a mode: what the owed result becomes when the machine reads on.

  lemma InDollar(done: seq<string>, current: string, tag: string, s: string)
    requires s != ""
    ensures Owed(done, current, Dollar(tag), s) ==
      if tag <= s then Owed(done, current + tag, Top, s[|tag|..])
      else Owed(done, current + [s[0]], Dollar(tag), s[1..])
  {
    if tag <= s {
      OwedAfter(done, current, |tag|, Some(0), s);
      assert s[..|tag|] == tag;
    } else {
      OwedAfter(done, current, 1, DollarEnd(tag, s[1..]), s);
    }
  }

  lemma InLine(done: seq<string>, current: string, s: string)
    requires s != ""
    ensures Owed(done, current, Line, s) ==
      Owed(done, current + [s[0]], if s[0] == '\n' then Top else Line, s[1..])
  {
    OwedAfter(done, current, 1, Rest(if s[0] == '\n' then Top else Line, s[1..]), s);
  }

  lemma InBlock(done: seq<string>, current: string, depth: nat, s: string)
    requires s != "" && depth > 0
    ensures Owed(done, current, Block(depth), s) ==
      if "/*" <= s then Owed(done, current + "/*", Block(depth + 1), s[2..])
      else if "*/" <= s then
        Owed(done, current + "*/", if depth == 1 then Top else Block(depth - 1), s[2..])
      else Owed(done, current + [s[0]], Block(depth), s[1..])
  {
    if "/*" <= s {
      OwedAfter(done, current, 2, BlockEnd(depth + 1, s[2..]), s);
    } else if "*/" <= s {
      OwedAfter(done, current, 2, Rest(if depth == 1 then Top else Block(depth - 1), s[2..]), s);
    } else {
      OwedAfter(done, current, 1, BlockEnd(depth, s[1..]), s);
    }
  }

  lemma InQuote(done: seq<string>, current: string, mode: Mode, q: char, s: string)
    requires s != "" && ((mode == Single && q == '\'') || (mode == Double && q == '"'))
    ensures Owed(done, current, mode, s) ==
      if s[0] != q then Owed(done, current + [s[0]], mode, s[1..])
      else if |s| > 1 && s[1] == q then Owed(done, current + [s[0]] + [s[1]], mode, s[2..])
      else Owed(done, current + [s[0]], Top, s[1..])
  {
    if s[0] != q {
      OwedAfter(done, current, 1, QuoteEnd(q, s[1..]), s);
    } else if |s| > 1 && s[1] == q {
      OwedAfter(done, current, 2, QuoteEnd(q, s[2..]), s);
      assert current + s[..2] == current + [s[0]] + [s[1]];
    } else {
      OwedAfter(done, current, 1, Some(0), s);
    }
  }

  lemma AtTop(done: seq<string>, current: string, s: string)
    requires s != ""
    ensures Owed(done, current, Top, s) == OwedFrom(done, current, if s[0] == ';' then Some(0) else Scan(s), s)
    ensures s[0] == ';' ==>
      Owed(done, current, Top, s) == Owed(done + Statement(current + ";"), "", Top, s[1..])
  {
    assert current + s[..0] == current && s[0..] == s;
    if s[0] == ';' {
      var rest := Pieces("", s[1..]);
      assert "" + s[1..][..0] == "" && s[1..][0..] == s[1..];
      if rest.Some? {
        assert ([current + ";"] + rest.value)[1..] == rest.value;
        assert done + (Statement(current + ";") + Statements(rest.value))
            == (done + Statement(current + ";")) + Statements(rest.value);
      }
    }
  }

  lemma OpenToken(done: seq<string>, current: string, s: string)
    requires s != "" && s[0] != ';'
    ensures Owed(done, current, Top, s) ==
      if "--" <= s then Owed(done, current + "--", Line, s[2..])
      else if "/*" <= s then Owed(done, current + "/*", Block(1), s[2..])
      else if s[0] == '\'' then Owed(done, current + [s[0]], Single, s[1..])
      else if s[0] == '"' then Owed(done, current + [s[0]], Double, s[1..])
      else if s[0] == '$' && TagLength(s) > 0 then
        Owed(done, current + s[..TagLength(s)], Dollar(s[..TagLength(s)]), s[TagLength(s)..])
      else Owed(done, current + [s[0]], Top, s[1..])
  {
    AtTop(done, current, s);
    if "--" <= s {
      OwedAfter(done, current, 2, Some(LineEnd(s[2..])), s);
    } else if "/*" <= s {
      OwedAfter(done, current, 2, BlockEnd(1, s[2..]), s);
    } else if s[0] == '\'' || s[0] == '"' {
      OwedAfter(done, current, 1, QuoteEnd(s[0], s[1..]), s);
    } else if s[0] == '$' && TagLength(s) > 0 {
      var n := TagLength(s);
      OwedAfter(done, current, n, DollarEnd(s[..n], s[n..]), s);
    } else {
      OwedAfter(done, current, 1, Some(0), s);
    }
  }

  lemma OwedOpen(done: seq<string>, current: string, mode: Mode)
    requires mode.Block? ==> mode.depth > 0
    requires mode.Dollar? ==> mode.tag != ""
    ensures mode.Single? || mode.Double? || mode.Block? || mode.Dollar? ==>
      Owed(done, current, mode, "") == None
    ensures mode.Line? || mode.Top? ==> Owed(done, current, mode, "") == Some(done + Statement(current))
  {
    OwedAtEnds("", done, current);
  }

  method SplitSql(script: string) returns (result: Option<seq<string>>)
    ensures result == Split(script)
  {
    hide Owed, Split, Strip, TagLength;
    var statements: seq<string>, current := [], "";
    var index := 0;
    var singleQuoted, doubleQuoted, lineComment := false, false, false;
    var blockCommentDepth: nat := 0;
    var dollarTag: Option<string> := None;
    OwedAtEnds(script, [], "");
    assert script[0..] == script;
    while index < |script|
      invariant 0 <= index <= |script|
      invariant dollarTag.Some? ==> dollarTag.value != ""
      invariant dollarTag.Some? ==> !lineComment && blockCommentDepth == 0 && !singleQuoted && !doubleQuoted
      invariant lineComment ==> blockCommentDepth == 0 && !singleQuoted && !doubleQuoted
      invariant blockCommentDepth > 0 ==> !singleQuoted && !doubleQuoted
      invariant singleQuoted ==> !doubleQuoted
      invariant Split(script) == Owed(statements, current,
        ModeOf(singleQuoted, doubleQuoted, lineComment, blockCommentDepth, dollarTag), script[index..])
    {
      ghost var before := script[index..];
      Suffix(script, index);
      if dollarTag.Some? {
        InDollar(statements, current, dollarTag.value, before);
        if dollarTag.value <= script[index..] {
          SuffixAfter(script, index, |dollarTag.value|);
          current := current + dollarTag.value;
          index := index + |dollarTag.value|;
          dollarTag := None;
        } else {
          current := current + [script[index]];
          index := index + 1;
        }
        continue;
      }
      var character := script[index];
      var next := if index + 1 < |script| then [script[index + 1]] else "";
      if lineComment {
        InLine(statements, current, before);
        current := current + [character];
        index := index + 1;
        if character == '\n' {
          lineComment := false;
        }
        continue;
      }
      if blockCommentDepth > 0 {
        InBlock(statements, current, blockCommentDepth, before);
        if character == '/' && next == "*" {
          assert [character] + next == "/*";
          current := current + ([character] + next);
          blockCommentDepth := blockCommentDepth + 1;
          index := index + 2;
        } else if character == '*' && next == "/" {
          assert [character] + next == "*/";
          current := current + ([character] + next);
          blockCommentDepth := blockCommentDepth - 1;
          index := index + 2;
        } else {
          current := current + [character];
          index := index + 1;
        }
        continue;
      }
      if singleQuoted {
        InQuote(statements, current, Single, '\'', before);
        current := current + [character];
        index := index + 1;
        if character == '\'' {
          if index < |script| && script[index] == '\'' {
            current := current + [script[index]];
            index := index + 1;
          } else {
            singleQuoted := false;
          }
        }
        continue;
      }
      if doubleQuoted {
        InQuote(statements, current, Double, '"', before);
        current := current + [character];
        index := index + 1;
        if character == '"' {
          if index < |script| && script[index] == '"' {
            current := current + [script[index]];
            index := index + 1;
          } else {
            doubleQuoted := false;
          }
        }
        continue;
      }
      if character == ';' {
        AtTop(statements, current, before);
      } else {
        OpenToken(statements, current, before);
      }
      if character == '-' && next == "-" {
        assert [character] + next == "--";
        current := current + ([character] + next);
        lineComment := true;
        index := index + 2;
        continue;
      }
      if character == '/' && next == "*" {
        assert [character] + next == "/*";
        current := current + ([character] + next);
        blockCommentDepth := 1;
        index := index + 2;
        continue;
      }
      if character == '\'' {
        current := current + [character];
        singleQuoted := true;
        index := index + 1;
        continue;
      }
      if character == '"' {
        current := current + [character];
        doubleQuoted := true;
        index := index + 1;
        continue;
      }
      if character == '$' {
        var length := TagLength(script[index..]);
        if length > 0 {
          SuffixAfter(script, index, length);
          dollarTag := Some(script[index..][..length]);
          current := current + dollarTag.value;
          index := index + length;
          continue;
        }
      }
      current := current + [character];
      index := index + 1;
      if character == ';' {
        var statement := Strip(current);
        assert statements + [] == statements;
        if statement != "" {
          statements := statements + [statement];
        }
        current := "";
      }
    }
    OwedOpen(statements, current, ModeOf(singleQuoted, doubleQuoted, lineComment, blockCommentDepth, dollarTag));
    assert script[index..] == "";
    var tail := Strip(current);
    assert statements + [] == statements;
    if tail != "" {
      statements := statements + [tail];
    }
    if singleQuoted || doubleQuoted || blockCommentDepth > 0 || dollarTag.Some? {
      return None;
    }
    return Some(statements);
  }

  lemma SuffixAfter(script: string, index: nat, n: nat)
    requires index + n <= |script|
    ensures script[index + n..] == script[index..][n..]
  {
  }

  lemma Suffix(script: string, index: nat)
    requires index < |script|
    ensures var s := script[index..];
      && s[0] == script[index] && script[index + 1..] == s[1..]
      && (|s| > 1 ==> s[1] == script[index + 1] && script[index + 2..] == s[2..])
      && ("--" <= s <==> |s| > 1 && s[0] == '-' && s[1] == '-')
      && ("/*" <= s <==> |s| > 1 && s[0] == '/' && s[1] == '*')
      && ("*/" <= s <==> |s| > 1 && s[0] == '*' && s[1] == '/')
  {
  }
}
