/** The JavaScript string primitives the templates rely on: `trim`, the `\s`
    class of regular expressions, and `split`/`join` on a one-character
    separator. */
module Text {

  /** ECMAScript WhiteSpace and LineTerminator code points: the set that both
      `String.prototype.trim` and the regular-expression class `\s` use. */
  predicate IsSpace(c: char)
  {
    c == '\t' || c == '\n' || c == '\U{000B}' || c == '\U{000C}' || c == '\r' || c == ' '
    || c == '\U{00A0}' || c == '\U{1680}' || ('\U{2000}' <= c <= '\U{200A}')
    || c == '\U{2028}' || c == '\U{2029}' || c == '\U{202F}' || c == '\U{205F}'
    || c == '\U{3000}' || c == '\U{FEFF}'
  }

  /** A string made of white space only (the empty string included). */
  ghost predicate IsBlank(s: string)
  {
    forall i :: 0 <= i < |s| ==> IsSpace(s[i])
  }

  /** Drops the leading white space: what `\s*` consumes at the front. */
  function TrimStart(s: string): (r: string)
    ensures |r| <= |s| && r == s[|s| - |r|..]
    ensures forall i :: 0 <= i < |s| - |r| ==> IsSpace(s[i])
    ensures r == [] || !IsSpace(r[0])
    decreases |s|
  {
    if s != [] && IsSpace(s[0]) then TrimStart(s[1..]) else s
  }

  /** Drops the trailing white space. */
  function TrimEnd(s: string): (r: string)
    ensures |r| <= |s| && r == s[..|r|]
    ensures forall i :: |r| <= i < |s| ==> IsSpace(s[i])
    ensures r == [] || !IsSpace(r[|r| - 1])
    decreases |s|
  {
    if s != [] && IsSpace(s[|s| - 1]) then TrimEnd(s[..|s| - 1]) else s
  }

  /** `s.trim()`. */
  function Trim(s: string): string
  {
    TrimEnd(TrimStart(s))
  }

  /** `s.trim()` keeps only characters of `s` and has no white space at
      either end. */
  lemma TrimShape(s: string)
    ensures forall c :: c in Trim(s) ==> c in s
    ensures Trim(s) == [] || (!IsSpace(Trim(s)[0]) && !IsSpace(Trim(s)[|Trim(s)| - 1]))
  {
    var t := TrimStart(s);
    var r := TrimEnd(t);
    forall c | c in r ensures c in s {
      var j :| 0 <= j < |r| && r[j] == c;
      assert r[j] == t[j] == s[|s| - |t| + j];
    }
    if r != [] {
      assert r[0] == t[0];
    }
  }

  /** `line.trim()` is falsy exactly when the line is blank. */
  lemma TrimEmptyIffBlank(s: string)
    ensures Trim(s) == [] <==> IsBlank(s)
  {
  }

  /** Number of occurrences of `c` in `s`. */
  function CountChar(s: string, c: char): (n: nat)
    ensures n <= |s|
    ensures n == 0 <==> c !in s
    decreases |s|
  {
    if s == [] then 0 else (if s[0] == c then 1 else 0) + CountChar(s[1..], c)
  }

  /** `s.split(sep)` for a one-character separator: never empty, and the empty
      string splits into one empty piece. */
  function Split(s: string, sep: char): (r: seq<string>)
    ensures |r| == CountChar(s, sep) + 1
    ensures forall i :: 0 <= i < |r| ==> sep !in r[i]
    decreases |s|
  {
    if s == [] then [[]]
    else
      var rest := Split(s[1..], sep);
      if s[0] == sep then [[]] + rest
      else [[s[0]] + rest[0]] + rest[1..]
  }

  /** `parts.join(sep)`. */
  function Join(parts: seq<string>, sep: char): string
    decreases |parts|
  {
    if |parts| == 0 then []
    else if |parts| == 1 then parts[0]
    else parts[0] + [sep] + Join(parts[1..], sep)
  }

  /** One step of `Split`: a separator opens a new piece, any other
      character joins the first piece. */
  lemma SplitStep(s: string, sep: char)
    requires s != []
    ensures s[0] == sep ==> Split(s, sep) == [[]] + Split(s[1..], sep)
    ensures s[0] != sep ==> Split(s, sep) == [[s[0]] + Split(s[1..], sep)[0]] + Split(s[1..], sep)[1..]
  {
  }

  /** An empty first piece puts a separator in front of the join. */
  lemma JoinOpenPiece(parts: seq<string>, sep: char)
    requires |parts| >= 1
    ensures Join([[]] + parts, sep) == [sep] + Join(parts, sep)
  {
    assert ([[]] + parts)[1..] == parts;
  }

  /** Putting a character in front of the first piece puts it in front of
      the join. */
  lemma JoinExtendFirst(c: char, parts: seq<string>, sep: char)
    requires |parts| >= 1
    ensures Join([[c] + parts[0]] + parts[1..], sep) == [c] + Join(parts, sep)
  {
    var r := [[c] + parts[0]] + parts[1..];
    if |parts| > 1 {
      assert r[1..] == parts[1..];
    }
  }

  /** Joining the pieces of a split restores the string. */
  lemma {:induction false} JoinSplit(s: string, sep: char)
    ensures Join(Split(s, sep), sep) == s
    decreases |s|
  {
    if s != [] {
      var rest := Split(s[1..], sep);
      JoinSplit(s[1..], sep);
      SplitStep(s, sep);
      if s[0] == sep {
        JoinOpenPiece(rest, sep);
      } else {
        JoinExtendFirst(s[0], rest, sep);
      }
      assert [s[0]] + s[1..] == s;
    }
  }

  /** A separator-free string splits into itself. */
  lemma SplitSingle(x: string, sep: char)
    requires sep !in x
    ensures Split(x, sep) == [x]
  {
    assert CountChar(x, sep) == 0;
    JoinSplit(x, sep);
  }

  /** A separator-free first piece is split off whole. */
  lemma SplitFirstPiece(x: string, rest: string, sep: char)
    requires sep !in x
    ensures Split(x + [sep] + rest, sep) == [x] + Split(rest, sep)
  {
    var u := [sep] + rest;
    assert x + [sep] + rest == x + u;
    assert u[1..] == rest;
    SplitBeforeSeparator(x, u, sep);
  }

  lemma {:induction false} SplitBeforeSeparator(x: string, u: string, sep: char)
    requires sep !in x
    requires u != [] && u[0] == sep
    ensures Split(x + u, sep) == [x] + Split(u[1..], sep)
    decreases |x|
  {
    if x == [] {
      assert x + u == u;
      SplitStep(u, sep);
    } else {
      var s := x + u;
      assert s[1..] == x[1..] + u;
      SplitBeforeSeparator(x[1..], u, sep);
      SplitStep(s, sep);
      assert [x[0]] + x[1..] == x;
    }
  }

  /** Splitting a join of separator-free pieces gives the pieces back. */
  lemma {:induction false} SplitJoin(parts: seq<string>, sep: char)
    requires |parts| >= 1
    requires forall i :: 0 <= i < |parts| ==> sep !in parts[i]
    ensures Split(Join(parts, sep), sep) == parts
    decreases |parts|
  {
    if |parts| == 1 {
      SplitSingle(parts[0], sep);
    } else {
      SplitJoin(parts[1..], sep);
      SplitFirstPiece(parts[0], Join(parts[1..], sep), sep);
    }
  }

  lemma {:induction false} JoinAppend(p: seq<string>, q: seq<string>, sep: char)
    requires |p| >= 1 && |q| >= 1
    ensures Join(p + q, sep) == Join(p, sep) + [sep] + Join(q, sep)
    decreases |p|
  {
    if |p| == 1 {
      assert (p + q)[1..] == q;
    } else {
      assert (p + q)[1..] == p[1..] + q;
      JoinAppend(p[1..], q, sep);
    }
  }

  /** Splitting at a separator splits the two sides independently. */
  lemma SplitConcat(a: string, b: string, sep: char)
    ensures Split(a + [sep] + b, sep) == Split(a, sep) + Split(b, sep)
  {
    var p, q := Split(a, sep), Split(b, sep);
    JoinSplit(a, sep);
    JoinSplit(b, sep);
    JoinAppend(p, q, sep);
    SplitJoin(p + q, sep);
  }
}
