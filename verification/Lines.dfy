/** Strings and lines as the text formats use them: trimming, the next non-blank line,
    splitting and joining. */
module Lines {
  import opened Types

  /** unicode.IsSpace. */
  predicate IsSpace(c: char) {
    var n := c as int;
    9 <= n <= 13 || n == 0x20 || n == 0x85 || n == 0xA0 || n == 0x1680 || 0x2000 <= n <= 0x200a
    || n == 0x2028 || n == 0x2029 || n == 0x202f || n == 0x205f || n == 0x3000
  }

  predicate AllSpace(s: string) {
    forall i | 0 <= i < |s| :: IsSpace(s[i])
  }

  function TrimLeft(s: string): string {
    if s == "" || !IsSpace(s[0]) then s else TrimLeft(s[1..])
  }

  function TrimRight(s: string): string {
    if s == "" || !IsSpace(s[|s| - 1]) then s else TrimRight(s[..|s| - 1])
  }

  lemma {:induction false} LeftSpec(s: string)
    ensures var r := TrimLeft(s);
            |r| <= |s| && r == s[|s| - |r|..] && (r == "" || !IsSpace(r[0])) && AllSpace(s[..|s| - |r|])
  {
    if s != "" && IsSpace(s[0]) {
      var t := s[1..];
      LeftSpec(t);
      var r := TrimLeft(t);
      SpaceCons(s, |t| - |r|);
      assert TrimLeft(s) == r;
      assert t[|t| - |r|..] == s[|s| - |r|..];
    }
  }

  lemma SpaceCons(s: string, n: nat)
    requires n < |s| && IsSpace(s[0]) && AllSpace(s[1..][..n])
    ensures AllSpace(s[..n + 1])
  {
    var front, back := s[..n + 1], s[1..][..n];
    forall i | 0 <= i < |front| ensures IsSpace(front[i]) {
      assert i > 0 ==> front[i] == back[i - 1];
    }
  }

  lemma {:induction false} RightSpec(s: string)
    ensures var r := TrimRight(s);
            |r| <= |s| && r == s[..|r|] && (r == "" || !IsSpace(r[|r| - 1])) && AllSpace(s[|r|..])
  {
    if s != "" && IsSpace(s[|s| - 1]) {
      var t := s[..|s| - 1];
      RightSpec(t);
      var r := TrimRight(t);
      assert s[|r|..] == t[|r|..] + [s[|s| - 1]];
    }
  }

  /** strings.TrimSpace. */
  function Trim(s: string): string {
    TrimRight(TrimLeft(s))
  }

  predicate Trimmed(s: string) {
    s == "" || (!IsSpace(s[0]) && !IsSpace(s[|s| - 1]))
  }

  lemma TrimOfTrimmed(s: string)
    ensures Trimmed(Trim(s)) && (Trim(s) == s <==> Trimmed(s)) && (Trim(s) == "" <==> AllSpace(s))
  {
    TrimIsTrimmed(s);
    TrimOfBlank(s);
  }

  lemma TrimIsTrimmed(s: string)
    ensures Trimmed(Trim(s)) && (Trimmed(s) ==> Trim(s) == s)
  {
    var l := TrimLeft(s);
    LeftSpec(s);
    RightSpec(l);
    assert Trim(s) != "" ==> Trim(s)[0] == l[0];
  }

  lemma TrimOfBlank(s: string)
    ensures Trim(s) == "" <==> AllSpace(s)
  {
    LeftOfBlank(s);
    var l := TrimLeft(s);
    LeftSpec(s);
    RightSpec(l);
    assert l[0..] == l && (l != "" ==> !AllSpace(l));
  }

  lemma LeftOfBlank(s: string)
    ensures TrimLeft(s) == "" <==> AllSpace(s)
  {
    var r := TrimLeft(s);
    LeftSpec(s);
    assert r == "" ==> s[..|s| - |r|] == s;
    assert r != "" ==> s[|s| - |r|] == r[0];
  }

  lemma {:induction false} TrimLeftPad(pad: string, s: string)
    requires AllSpace(pad)
    ensures TrimLeft(pad + s) == TrimLeft(s)
  {
    if pad == "" {
      assert pad + s == s;
    } else {
      assert (pad + s)[0] == pad[0] && (pad + s)[1..] == pad[1..] + s;
      TrimLeftPad(pad[1..], s);
    }
  }

  lemma {:induction false} TrimRightPad(s: string, pad: string)
    requires AllSpace(pad)
    ensures TrimRight(s + pad) == TrimRight(s)
  {
    if pad == "" {
      assert s + pad == s;
    } else {
      var t := s + pad;
      assert t[|t| - 1] == pad[|pad| - 1] && t[..|t| - 1] == s + pad[..|pad| - 1];
      TrimRightPad(s, pad[..|pad| - 1]);
    }
  }

  /** Indentation before and blanks after a line do not reach the parser. */
  lemma TrimPadded(pad: string, s: string, end: string)
    requires AllSpace(pad) && AllSpace(end)
    ensures Trim(pad + s + end) == Trim(s)
  {
    assert pad + s + end == pad + (s + end);
    TrimLeftPad(pad, s + end);
    TrimLeftEnd(s, end);
  }

  lemma TrimLeftEnd(s: string, end: string)
    requires AllSpace(end)
    ensures Trim(s + end) == Trim(s)
  {
    var l := TrimLeft(s);
    LeftSpec(s);
    if l == "" {
      assert AllSpace(s + end) by {
        assert s == s[..|s| - |l|];
      }
      TrimOfTrimmed(s + end);
      TrimOfTrimmed(s);
    } else {
      var head := s[..|s| - |l|];
      assert s + end == head + (l + end);
      TrimLeftPad(head, l + end);
      assert (l + end)[0] == l[0];
      TrimRightPad(l, end);
    }
  }

  lemma TrimField(pad: string, text: string)
    requires AllSpace(pad) && Trimmed(text)
    ensures Trim(pad + text) == text
  {
    TrimPadded(pad, text, "");
    assert pad + text + "" == pad + text;
    TrimIsTrimmed(text);
  }

  /** The next line, for a line known to trim to a given text. */
  lemma NextText(line: string, text: string, rest: seq<string>)
    requires text != "" && Trim(line) == text
    ensures NextLine([line] + rest) == Some((text, rest))
  {
    NextIs(line, rest);
  }

  lemma Uncons<T>(a: seq<T>, b: seq<T>)
    requires a != []
    ensures (a + b)[0] == a[0] && (a + b)[1..] == a[1..] + b
  {
  }

  lemma Assoc<T>(a: seq<T>, b: seq<T>, c: seq<T>)
    ensures a + (b + c) == (a + b) + c
  {
  }

  // ---------------------------------------------------------------- lines

  /** NextNBLine: skips blank lines; None when lines run out. */
  function NextLine(lines: seq<string>): (r: Option<(string, seq<string>)>)
    ensures r.Some? ==> |r.value.1| < |lines| && r.value.0 != ""
  {
    if lines == [] then None
    else if Trim(lines[0]) != "" then Some((Trim(lines[0]), lines[1..]))
    else NextLine(lines[1..])
  }

  /** No line holds a newline. */
  predicate Single(lines: seq<string>) {
    forall i | 0 <= i < |lines| :: '\n' !in lines[i]
  }

  lemma {:induction false} NextIsSingle(lines: seq<string>)
    requires Single(lines) && NextLine(lines).Some?
    ensures '\n' !in NextLine(lines).value.0 && Single(NextLine(lines).value.1)
  {
    if Trim(lines[0]) != "" {
      TrimIsPart(lines[0], '\n');
    } else {
      NextIsSingle(lines[1..]);
    }
  }

  lemma TrimIsPart(s: string, c: char)
    requires c !in s
    ensures c !in Trim(s)
  {
    var l := TrimLeft(s);
    LeftSpec(s);
    RightSpec(l);
    assert forall i | 0 <= i < |l| :: l[i] == s[|s| - |l| + i];
  }

  lemma SingleConcat(a: seq<string>, b: seq<string>)
    ensures Single(a + b) <==> Single(a) && Single(b)
  {
    var c := a + b;
    assert forall i | 0 <= i < |a| :: c[i] == a[i];
    assert forall i | 0 <= i < |b| :: c[|a| + i] == b[i];
  }

  lemma SingleIndent(pad: string, lines: seq<string>)
    requires '\n' !in pad
    ensures Single(Indent(pad, lines)) <==> Single(lines)
  {
    var r := Indent(pad, lines);
    forall i | 0 <= i < |lines| ensures '\n' in r[i] <==> '\n' in lines[i] {
      PadKeepsOut(pad, lines[i], '\n');
    }
  }

  lemma PadKeepsOut(pad: string, s: string, c: char)
    requires c !in pad
    ensures c in pad + s <==> c in s
  {
  }

  lemma {:induction false} NextIsTrimmed(lines: seq<string>)
    requires NextLine(lines).Some?
    ensures Trimmed(NextLine(lines).value.0)
  {
    if Trim(lines[0]) != "" {
      TrimIsTrimmed(lines[0]);
    } else {
      NextIsTrimmed(lines[1..]);
    }
  }

  lemma NextIs(line: string, rest: seq<string>)
    requires Trim(line) != ""
    ensures NextLine([line] + rest) == Some((Trim(line), rest))
  {
    assert ([line] + rest)[1..] == rest;
  }

  lemma NextBrace(rest: seq<string>)
    requires rest != [] && Trim(rest[0]) == "}"
    ensures NextLine(rest) == Some(("}", rest[1..]))
  {
    assert Trim(rest[0])[0] == '}';
  }

  /** The same lines up to indentation. */
  ghost predicate SameLines(a: seq<string>, b: seq<string>) {
    |a| == |b| && forall i | 0 <= i < |a| :: Trim(a[i]) == Trim(b[i])
  }

  function Indent(pad: string, lines: seq<string>): (r: seq<string>)
    ensures |r| == |lines| && forall i | 0 <= i < |lines| :: r[i] == pad + lines[i]
  {
    seq(|lines|, i requires 0 <= i < |lines| => pad + lines[i])
  }

  lemma IndentSame(pad: string, lines: seq<string>)
    requires AllSpace(pad)
    ensures SameLines(Indent(pad, lines), lines)
  {
    forall i | 0 <= i < |lines| ensures Trim(pad + lines[i]) == Trim(lines[i]) {
      TrimPadded(pad, lines[i], "");
      assert pad + lines[i] + "" == pad + lines[i];
    }
  }

  /** Lines the same as a concatenation fall into parts the same as its parts. */
  lemma SameSplit(lines: seq<string>, a: seq<string>, b: seq<string>)
    requires SameLines(lines, a + b)
    ensures lines == lines[..|a|] + lines[|a|..]
    ensures SameLines(lines[..|a|], a) && SameLines(lines[|a|..], b)
  {
    forall i | 0 <= i < |b| ensures Trim(lines[|a| + i]) == Trim(b[i]) {
      assert (a + b)[|a| + i] == b[i];
    }
    forall i | 0 <= i < |a| ensures Trim(lines[i]) == Trim(a[i]) {
      assert (a + b)[i] == a[i];
    }
  }

  lemma SameConcat(a: seq<string>, b: seq<string>, c: seq<string>, d: seq<string>)
    requires SameLines(a, b) && SameLines(c, d)
    ensures SameLines(a + c, b + d)
  {
  }

  lemma SameOne(lines: seq<string>, line: string)
    requires SameLines(lines, [line])
    ensures lines == [lines[0]] && Trim(lines[0]) == Trim(line)
  {
    assert [line][0] == line;
  }

  lemma SameCons(lines: seq<string>, first: string, rest: seq<string>)
    requires SameLines(lines, [first] + rest)
    ensures lines == [lines[0]] + lines[1..] && Trim(lines[0]) == Trim(first) && SameLines(lines[1..], rest)
  {
    SameSplit(lines, [first], rest);
    SameOne(lines[..1], first);
  }

  /** Lines the same as an opening line, a list and two closing lines. */
  lemma SameBlock(lines: seq<string>, open: string, inner: seq<string>, close: string, last: string)
    requires SameLines(lines, [open] + (inner + ([close] + [last])))
    ensures var n := |inner|;
            && |lines| == n + 3 && lines == [lines[0]] + (lines[1..n + 1] + ([lines[n + 1]] + [lines[n + 2]]))
            && Trim(lines[0]) == Trim(open) && SameLines(lines[1..n + 1], inner)
            && Trim(lines[n + 1]) == Trim(close) && Trim(lines[n + 2]) == Trim(last)
  {
    SameCons(lines, open, inner + ([close] + [last]));
    SameSplit(lines[1..], inner, [close] + [last]);
    var end := lines[1..][|inner|..];
    SameCons(end, close, [last]);
    SameOne(end[1..], last);
  }

  lemma SameTrans(a: seq<string>, b: seq<string>, c: seq<string>)
    requires SameLines(a, b) && SameLines(b, c)
    ensures SameLines(a, c)
  {
  }

  // ---------------------------------------------------------------- splitting and joining

  function Join(lines: seq<string>, sep: string): string {
    if lines == [] then "" else if |lines| == 1 then lines[0] else lines[0] + sep + Join(lines[1..], sep)
  }

  /** strings.Split on newlines. */
  function SplitLines(s: string): (r: seq<string>)
    ensures |r| >= 1 && Single(r)
  {
    if s == "" then [""]
    else
      var r := SplitLines(s[1..]);
      if s[0] == '\n' then [""] + r else [[s[0]] + r[0]] + r[1..]
  }

  lemma {:induction false} SplitLine(line: string, s: string)
    requires '\n' !in line
    ensures SplitLines(line + "\n" + s) == [line] + SplitLines(s)
    ensures SplitLines(line) == [line]
  {
    if line == "" {
      assert line + "\n" + s == ['\n'] + s;
      assert (['\n'] + s)[1..] == s;
    } else {
      SplitLine(line[1..], s);
      var t := line + "\n" + s;
      assert t[1..] == line[1..] + "\n" + s && t[0] == line[0];
      assert [line[0]] + line[1..] == line;
      assert SplitLines(t[1..]) == [line[1..]] + SplitLines(s);
    }
  }

  /** Splitting undoes joining, for a non-empty list of lines without newlines. */
  lemma {:induction false} SplitJoin(lines: seq<string>)
    requires lines != [] && Single(lines)
    ensures SplitLines(Join(lines, "\n")) == lines
  {
    if |lines| == 1 {
      SplitLine(lines[0], "");
    } else {
      SplitJoin(lines[1..]);
      SplitLine(lines[0], Join(lines[1..], "\n"));
      assert lines == [lines[0]] + lines[1..];
    }
  }

  predicate HasPrefix(s: string, p: string) {
    p <= s
  }

  /** The outcome of a parser that consumes lines: a value and the lines left, an error, or
      the run-time panic of an unguarded index. */
  datatype Parsed<+T> = Ok(value: T, rest: seq<string>) | Err | Panic

  function TextField(line: string, text: string): Option<()> {
    if line == text then Some(()) else None
  }

  /** One field: the next non-blank line, read by `f`. */
  function Field<T>(lines: seq<string>, f: string -> Option<T>): (r: Parsed<T>)
    ensures r.Ok? ==> |r.rest| < |lines|
    ensures !r.Panic?
  {
    match NextLine(lines)
    case None => Err
    case Some((line, rest)) =>
      match f(line)
      case None => Err
      case Some(v) => Ok(v, rest)
  }

  lemma FieldIs<T>(line: string, rest: seq<string>, f: string -> Option<T>)
    requires Trim(line) != ""
    ensures Field([line] + rest, f) ==
            match f(Trim(line)) { case None => Err case Some(v) => Ok(v, rest) }
  {
    NextIs(line, rest);
  }
}
