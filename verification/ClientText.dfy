/** The text form of a ClientInfo: printer, line-consuming parser, and exactly when one
    undoes the other. */
module ClientText {
  import opened Types
  import opened Lines
  import opened Numbers

  /** The printer and parser of the embedded BaseNode, which belong to another package. */
  datatype Codec = Codec(show: BaseNode -> seq<string>, parse: (seq<string>, string) -> Parsed<BaseNode>)

  /** The contract on that package, for one node: whatever the indentation, its header and
      lines followed by any tail parse to it and leave exactly the tail. */
  ghost predicate Lawful(codec: Codec, bn: BaseNode) {
    forall lines, tail :: Returns(codec, bn, lines, tail)
  }

  ghost predicate Returns(codec: Codec, bn: BaseNode, lines: seq<string>, tail: seq<string>) {
    SameLines(lines, ["clientInfo {"] + codec.show(bn)) ==> codec.parse(lines + tail, "clientInfo") == Ok(bn, tail)
  }

  // ---------------------------------------------------------------- printing

  function AttrsLine(attrs: uint64): string {
    "    attrs: 0x" + Hex(attrs, 16)
  }

  function EndsLines(ends: seq<string>): seq<string> {
    Indent("        ", ends)
  }

  function BodyLines(attrs: uint64, ends: seq<string>): seq<string> {
    [AttrsLine(attrs)] + (["    endPoints {"] + (EndsLines(ends) + (["    }"] + ["}"])))
  }

  function ClientLines(codec: Codec, ci: ClientInfo): seq<string> {
    (["clientInfo {"] + Indent("    ", codec.show(ci.base))) + BodyLines(ci.attrs, EndsOf(ci.myEnds))
  }

  /** ClientInfo.Strings. */
  method ClientStrings(codec: Codec, ci: ClientInfo) returns (ss: seq<string>)
    ensures ss == ClientLines(codec, ci)
  {
    ss := ["clientInfo {"];
    var bns := codec.show(ci.base);
    for i := 0 to |bns|
      invariant ss == ["clientInfo {"] + Indent("    ", bns)[..i]
    {
      ss := ss + ["    " + bns[i]];
    }
    ss := ss + [AttrsLine(ci.attrs)];
    ss := ss + ["    endPoints {"];
    var myEnds := EndsOf(ci.myEnds);
    ghost var head := ss;
    for i := 0 to |myEnds|
      invariant ss == head + EndsLines(myEnds)[..i]
    {
      ss := ss + ["        " + myEnds[i]];
    }
    ss := ss + ["    }"];
    ss := ss + ["}"];
  }

  // ---------------------------------------------------------------- parsing

  /** The value of an attrs line, eight bytes of hex. */
  function AttrsOf(line: string): Option<uint64> {
    if !HasPrefix(line, "attrs: 0x") then None
    else
      match DecodeHex(line[9..])
      case None => None
      case Some(val) => if |val| != 8 then None else Some(Assemble64(val))
  }

  function Assemble64(val: Bytes): uint64
    requires |val| == 8
  {
    AssembleFits(val);
    Assemble(val, 8)
  }

  lemma AssembleFits(val: Bytes)
    requires |val| == 8
    ensures Assemble(val, 8) < 0x1_0000_0000_0000_0000
  {
    AssembleTop(val, 8);
    assert val[..8] == val;
    Pow2Word();
    ValueFits(val);
  }

  lemma {:induction false} ValueFits(b: Bytes)
    ensures Value(b) < Pow2(8 * |b|)
  {
    if b != [] {
      ValueFits(b[..|b| - 1]);
      Pow2Byte(8 * (|b| - 1));
    }
  }

  /** collectClientAttrs: the bytes are or-ed in at descending shifts. */
  method CollectAttrs(lines: seq<string>) returns (r: Parsed<uint64>)
    ensures r == ParseAttrs(lines)
  {
    var next := NextLine(lines);
    if next.None? {
      return Err;
    }
    var line := next.value.0;
    if !HasPrefix(line, "attrs: 0x") {
      return Err;
    }
    var val := DecodeHex(line[9..]);
    if val.None? || |val.value| != 8 {
      return Err;
    }
    var attrs: nat := 0;
    for i := 0 to 8
      invariant attrs == Assemble(val.value, i)
    {
      attrs := Or(attrs, Shl(val.value[i] as nat, 8 * (7 - i)));
    }
    AssembleFits(val.value);
    r := Ok(attrs, next.value.1);
  }

  function ParseAttrs(lines: seq<string>): Parsed<uint64> {
    match NextLine(lines)
    case None => Err
    case Some((line, rest)) =>
      match AttrsOf(line)
      case None => Err
      case Some(attrs) => Ok(attrs, rest)
  }

  /** The endpoint loop. The peek at the first line left is unguarded; a blank line is
      peeked at as not a brace, and the next line after it is taken whatever it is. */
  function ParseEnds(rest: seq<string>, got: seq<string>): (r: Parsed<seq<string>>)
    ensures r.Ok? ==> got <= r.value && |r.rest| <= |rest| && r.rest != [] && Trim(r.rest[0]) == "}"
    decreases |rest|
  {
    if rest == [] then Panic
    else if Trim(rest[0]) == "}" then Ok(got, rest)
    else
      match NextLine(rest)
      case None => Panic
      case Some((line, rest')) => ParseEnds(rest', got + [line])
  }

  /** collectMyEnds. */
  function ParseEndsSection(lines: seq<string>): Parsed<seq<string>> {
    match NextLine(lines)
    case None => Err
    case Some((line, rest)) =>
      if line != "endPoints {" then Err
      else
        match ParseEnds(rest, [])
        case Ok(ends, rest') => Ok(ends, rest'[1..])
        case Err => Err
        case Panic => Panic
  }

  method CollectMyEnds(lines: seq<string>) returns (r: Parsed<seq<string>>)
    ensures r == ParseEndsSection(lines)
  {
    var next := NextLine(lines);
    if next.None? || next.value.0 != "endPoints {" {
      return Err;
    }
    r := EndsLoop(next.value.1);
    if r.Ok? {
      NextBrace(r.rest);
      var brace := NextLine(r.rest);
      r := Ok(r.value, brace.value.1);
    }
  }

  method EndsLoop(lines: seq<string>) returns (r: Parsed<seq<string>>)
    ensures r == ParseEnds(lines, [])
  {
    var rest, ends := lines, [];
    while rest != [] && Trim(rest[0]) != "}"
      invariant ParseEnds(rest, ends) == ParseEnds(lines, [])
      decreases |rest|
    {
      var next := NextLine(rest);
      if next.None? {
        return Panic;
      }
      ends, rest := ends + [next.value.0], next.value.1;
    }
    r := if rest == [] then Panic else Ok(ends, rest);
  }

  /** ParseClientInfoFromStrings. */
  function ParseClient(codec: Codec, lines: seq<string>): Parsed<ClientInfo> {
    match codec.parse(lines, "clientInfo")
    case Err => Err
    case Panic => Panic
    case Ok(bn, rest) =>
      match ParseBody(rest)
      case Err => Err
      case Panic => Panic
      case Ok((attrs, ends), rest') => Ok(ClientInfo(attrs, Slice(ends), bn), rest')
  }

  /** What follows the base node: attrs, endpoints and the closing brace. */
  function ParseBody(lines: seq<string>): Parsed<(uint64, seq<string>)> {
    match ParseAttrs(lines)
    case Err => Err
    case Panic => Panic
    case Ok(attrs, rest) =>
      match ParseEndsSection(rest)
      case Err => Err
      case Panic => Panic
      case Ok(ends, rest') =>
        match NextLine(rest')
        case None => Err
        case Some((line, rest'')) => if line == "}" then Ok((attrs, ends), rest'') else Err
  }

  method ParseClientInfo(codec: Codec, lines: seq<string>) returns (r: Parsed<ClientInfo>)
    ensures r == ParseClient(codec, lines)
  {
    var base := codec.parse(lines, "clientInfo");
    if !base.Ok? {
      return if base.Err? then Err else Panic;
    }
    var attrs := CollectAttrs(base.rest);
    if !attrs.Ok? {
      return Err;
    }
    var ends := CollectMyEnds(attrs.rest);
    if !ends.Ok? {
      return if ends.Err? then Err else Panic;
    }
    var brace := NextLine(ends.rest);
    if brace.None? || brace.value.0 != "}" {
      return Err;
    }
    r := Ok(ClientInfo(attrs.value, Slice(ends.value), base.value), brace.value.1);
  }

  // ---------------------------------------------------------------- attrs round trip

  lemma AttrsOfText(attrs: uint64)
    ensures AttrsOf("attrs: 0x" + Hex(attrs, 16)) == Some(attrs)
  {
    HexIsBytes(attrs, 8);
    DecodeEncode(BigEndian(attrs, 8));
    AssembleBigEndian(attrs);
    var line := "attrs: 0x" + Hex(attrs, 16);
    assert line[9..] == Hex(attrs, 16);
  }

  lemma AttrsTrim(attrs: uint64)
    ensures Trim(AttrsLine(attrs)) == "attrs: 0x" + Hex(attrs, 16)
  {
    var text := "attrs: 0x" + Hex(attrs, 16);
    HexEnds(attrs);
    assert text[0] == 'a' && text[24] == Hex(attrs, 16)[15];
    TrimField("    ", text);
    assert AttrsLine(attrs) == "    " + text;
  }

  /** All 2^64 attrs values survive, at any indentation. */
  lemma AttrsRoundTrip(line: string, attrs: uint64, rest: seq<string>)
    requires Trim(line) == Trim(AttrsLine(attrs))
    ensures ParseAttrs([line] + rest) == Ok(attrs, rest)
  {
    AttrsTrim(attrs);
    NextText(line, "attrs: 0x" + Hex(attrs, 16), rest);
    AttrsOfText(attrs);
  }

  lemma HexEnds(n: nat)
    ensures !IsSpace(Hex(n, 16)[15])
  {
  }

  // ---------------------------------------------------------------- endpoints round trip

  /** An endpoint the parser gives back: trimmed, not blank and not a closing brace. */
  predicate EndOk(e: string) {
    Trimmed(e) && e != "" && e != "}"
  }

  /** Nil, or non-empty with such entries: an empty non-nil list comes back nil. */
  predicate EndsOk(myEnds: Option<seq<string>>) {
    myEnds.Some? ==> myEnds.value != [] && forall i | 0 <= i < |myEnds.value| :: EndOk(myEnds.value[i])
  }

  lemma {:induction false} EndsForward(lines: seq<string>, ends: seq<string>, rest: seq<string>, got: seq<string>)
    requires SameLines(lines, ends) && forall i | 0 <= i < |ends| :: EndOk(ends[i])
    requires rest != [] && Trim(rest[0]) == "}"
    ensures ParseEnds(lines + rest, got) == Ok(got + ends, rest)
  {
    if ends == [] {
      assert lines + rest == rest && got + ends == got;
    } else {
      TrimIsTrimmed(ends[0]);
      assert lines + rest == [lines[0]] + (lines[1..] + rest);
      NextText(lines[0], ends[0], lines[1..] + rest);
      EndsForward(lines[1..], ends[1..], rest, got + [ends[0]]);
      Assoc(got, [ends[0]], ends[1..]);
      assert [ends[0]] + ends[1..] == ends;
    }
  }

  /** Only such lists come back: a blank entry is skipped, a brace ends the list, and
      anything else is trimmed. */
  lemma {:induction false} EndsBackward(lines: seq<string>, ends: seq<string>, rest: seq<string>, got: seq<string>)
    requires SameLines(lines, ends)
    requires ParseEnds(lines + rest, got).Ok? && ParseEnds(lines + rest, got).value == got + ends
    ensures forall i | 0 <= i < |ends| :: EndOk(ends[i])
  {
    if ends != [] {
      var more := lines[1..] + rest;
      assert lines + rest == [lines[0]] + more;
      assert (got + ends)[|got|] == ends[0];
      EndBackward(lines[0], ends[0], more, got);
      Assoc(got, [ends[0]], ends[1..]);
      assert [ends[0]] + ends[1..] == ends;
      EndsBackward(lines[1..], ends[1..], rest, got + [ends[0]]);
    }
  }

  lemma EndBackward(line: string, end: string, more: seq<string>, got: seq<string>)
    requires Trim(line) == Trim(end)
    requires var r := ParseEnds([line] + more, got); r.Ok? && |r.value| > |got| && r.value[|got|] == end
    ensures EndOk(end) && ParseEnds([line] + more, got) == ParseEnds(more, got + [end])
  {
    var all := [line] + more;
    var (text, rest) := NextLine(all).value;
    TakenIsNext(rest, got, text, ParseEnds(all, got));
    NextIsTrimmed(all);
    TrimOfTrimmed(end);
    NextText(line, end, more);
  }

  lemma TakenIsNext(rest: seq<string>, got: seq<string>, line: string, r: Parsed<seq<string>>)
    requires r == ParseEnds(rest, got + [line]) && r.Ok?
    ensures |r.value| > |got| && r.value[|got|] == line
  {
    assert (got + [line])[|got|] == line;
  }

  // ---------------------------------------------------------------- the whole client

  lemma FixedLines()
    ensures Trim("    endPoints {") == "endPoints {" && Trim("    }") == "}" && Trim("}") == "}"
  {
    TrimField("    ", "endPoints {");
    TrimField("    ", "}");
    TrimField("", "}");
    assert "    " + "endPoints {" == "    endPoints {" && "    " + "}" == "    }" && "" + "}" == "}";
  }

  /** The shape of a body at any indentation. */
  lemma BodyShape(body: seq<string>, attrs: uint64, ends: seq<string>)
    requires SameLines(body, BodyLines(attrs, ends))
    ensures |body| == |ends| + 4 && Trim(body[0]) == Trim(AttrsLine(attrs)) && Trim(body[1]) == "endPoints {"
    ensures SameLines(body[2..2 + |ends|], ends) && Trim(body[2 + |ends|]) == "}" && Trim(body[3 + |ends|]) == "}"
  {
    var el, k := EndsLines(ends), |ends|;
    BodyParts(body, AttrsLine(attrs), "    endPoints {", el, "    }", "}");
    IndentSame("        ", ends);
    SameTrans(body[2..2 + k], el, ends);
    FixedLines();
  }

  lemma BodyParts(body: seq<string>, attrs: string, open: string, el: seq<string>, close: string, last: string)
    requires SameLines(body, [attrs] + ([open] + (el + ([close] + [last]))))
    ensures |body| == |el| + 4 && Trim(body[0]) == Trim(attrs) && Trim(body[1]) == Trim(open)
    ensures SameLines(body[2..2 + |el|], el)
    ensures Trim(body[2 + |el|]) == Trim(close) && Trim(body[3 + |el|]) == Trim(last)
  {
    SameCons(body, attrs, [open] + (el + ([close] + [last])));
    SameBlock(body[1..], open, el, close, last);
    assert body[1..][1..|el| + 1] == body[2..2 + |el|];
  }

  lemma BodyConcat(body: seq<string>, k: nat, tail: seq<string>)
    requires |body| == k + 4
    ensures body + tail ==
            [body[0]] + ([body[1]] + (body[2..2 + k] + ([body[2 + k]] + ([body[3 + k]] + tail))))
  {
  }

  lemma SectionIs(section: string, rest: seq<string>)
    requires Trim(section) == "endPoints {"
    ensures ParseEndsSection([section] + rest) ==
            match ParseEnds(rest, []) { case Ok(es, r) => Ok(es, r[1..]) case Err => Err case Panic => Panic }
  {
    NextText(section, "endPoints {", rest);
  }

  lemma BodyForward(body: seq<string>, attrs: uint64, ends: seq<string>, tail: seq<string>)
    requires SameLines(body, BodyLines(attrs, ends)) && forall i | 0 <= i < |ends| :: EndOk(ends[i])
    ensures ParseBody(body + tail) == Ok((attrs, ends), tail)
  {
    BodyShape(body, attrs, ends);
    var k := |ends|;
    BodyConcat(body, k, tail);
    var last := [body[3 + k]] + tail;
    var close := [body[2 + k]] + last;
    var list := body[2..2 + k] + close;
    AttrsRoundTrip(body[0], attrs, [body[1]] + list);
    SectionIs(body[1], list);
    EndsForward(body[2..2 + k], ends, close, []);
    assert [] + ends == ends && close[1..] == last;
    NextText(body[3 + k], "}", tail);
  }

  lemma BodyBackward(body: seq<string>, attrs: uint64, ends: seq<string>, tail: seq<string>)
    requires SameLines(body, BodyLines(attrs, ends))
    requires ParseBody(body + tail).Ok? && ParseBody(body + tail).value.1 == ends
    ensures forall i | 0 <= i < |ends| :: EndOk(ends[i])
  {
    BodyShape(body, attrs, ends);
    var k := |ends|;
    BodyConcat(body, k, tail);
    var close := [body[2 + k]] + ([body[3 + k]] + tail);
    var list := body[2..2 + k] + close;
    AttrsRoundTrip(body[0], attrs, [body[1]] + list);
    SectionIs(body[1], list);
    assert [] + ends == ends;
    EndsBackward(body[2..2 + k], ends, close, []);
  }

  lemma HeadSame(bn: seq<string>)
    ensures SameLines(["clientInfo {"] + Indent("    ", bn), ["clientInfo {"] + bn)
  {
    IndentSame("    ", bn);
    SameConcat(["clientInfo {"], ["clientInfo {"], Indent("    ", bn), bn);
  }

  lemma HeadParses(codec: Codec, bn: BaseNode, head: seq<string>, rest: seq<string>)
    requires Lawful(codec, bn) && SameLines(head, ["clientInfo {"] + Indent("    ", codec.show(bn)))
    ensures codec.parse(head + rest, "clientInfo") == Ok(bn, rest)
  {
    HeadSame(codec.show(bn));
    SameTrans(head, ["clientInfo {"] + Indent("    ", codec.show(bn)), ["clientInfo {"] + codec.show(bn));
    assert Returns(codec, bn, head, rest);
  }

  /** The base node and the body of a client's lines. */
  lemma ClientSplits(codec: Codec, ci: ClientInfo, lines: seq<string>, tail: seq<string>)
    requires SameLines(lines, ClientLines(codec, ci)) && Lawful(codec, ci.base)
    ensures var n := 1 + |codec.show(ci.base)|;
            && n <= |lines| && SameLines(lines[n..], BodyLines(ci.attrs, EndsOf(ci.myEnds)))
            && codec.parse(lines + tail, "clientInfo") == Ok(ci.base, lines[n..] + tail)
  {
    var n := 1 + |codec.show(ci.base)|;
    SameSplit(lines, ["clientInfo {"] + Indent("    ", codec.show(ci.base)), BodyLines(ci.attrs, EndsOf(ci.myEnds)));
    HeadParses(codec, ci.base, lines[..n], lines[n..] + tail);
    assert lines[..n] + (lines[n..] + tail) == lines + tail;
  }

  /** Printing then parsing a client, at any indentation and before any tail, gives the
      client and that tail exactly when its endpoints are nil or all returnable. */
  lemma ClientRoundTrip(codec: Codec, ci: ClientInfo, lines: seq<string>, tail: seq<string>)
    requires SameLines(lines, ClientLines(codec, ci)) && Lawful(codec, ci.base)
    ensures ParseClient(codec, lines + tail) == Ok(ci, tail) <==> EndsOk(ci.myEnds)
    ensures ParseClient(codec, lines + tail).Ok? && ParseClient(codec, lines + tail).value == ci ==> EndsOk(ci.myEnds)
  {
    var ends := EndsOf(ci.myEnds);
    var body := lines[1 + |codec.show(ci.base)|..];
    ClientSplits(codec, ci, lines, tail);
    if EndsOk(ci.myEnds) {
      BodyForward(body, ci.attrs, ends, tail);
    }
    var r := ParseBody(body + tail);
    if r.Ok? && Slice(r.value.1) == ci.myEnds {
      BodyBackward(body, ci.attrs, ends, tail);
    }
  }

  // ---------------------------------------------------------------- whole texts

  /** What the embedded parser leaves is the end of what it was given. */
  ghost predicate Tails(codec: Codec) {
    forall lines :: LeavesTail(codec, lines)
  }

  ghost predicate LeavesTail(codec: Codec, lines: seq<string>) {
    var r := codec.parse(lines, "clientInfo");
    r.Ok? ==> |r.rest| <= |lines| && r.rest == lines[|lines| - |r.rest|..]
  }

  lemma {:induction false} EndsAreSingle(rest: seq<string>, got: seq<string>)
    requires Single(rest) && Single(got) && ParseEnds(rest, got).Ok?
    ensures Single(ParseEnds(rest, got).value) && Single(ParseEnds(rest, got).rest)
    decreases |rest|
  {
    if Trim(rest[0]) != "}" {
      NextIsSingle(rest);
      var (line, more) := NextLine(rest).value;
      EndsAreSingle(more, got + [line]);
    }
  }

  lemma BodyIsSingle(lines: seq<string>)
    requires Single(lines) && ParseBody(lines).Ok?
    ensures Single(ParseBody(lines).value.1) && Single(ParseBody(lines).rest)
  {
    NextIsSingle(lines);
    var rest := ParseAttrs(lines).rest;
    NextIsSingle(rest);
    var section := NextLine(rest).value.1;
    EndsAreSingle(section, []);
    NextIsSingle(ParseEndsSection(rest).rest);
  }

  /** No parsed endpoint holds a newline. */
  lemma ParsedIsSingle(codec: Codec, lines: seq<string>)
    requires Tails(codec) && Single(lines) && ParseClient(codec, lines).Ok?
    ensures Single(EndsOf(ParseClient(codec, lines).value.myEnds)) && Single(ParseClient(codec, lines).rest)
  {
    assert LeavesTail(codec, lines);
    BodyIsSingle(codec.parse(lines, "clientInfo").rest);
  }

  lemma ClientIsSingle(codec: Codec, ci: ClientInfo)
    requires Single(codec.show(ci.base)) && Single(EndsOf(ci.myEnds))
    ensures Single(ClientLines(codec, ci))
  {
    var ends := EndsLines(EndsOf(ci.myEnds));
    SingleIndent("    ", codec.show(ci.base));
    SingleIndent("        ", EndsOf(ci.myEnds));
    AttrsIsSingle(ci.attrs);
    SingleConcat(["clientInfo {"], Indent("    ", codec.show(ci.base)));
    SingleConcat(ends, ["    }"] + ["}"]);
    SingleConcat(["    endPoints {"], ends + (["    }"] + ["}"]));
    SingleConcat([AttrsLine(ci.attrs)], ["    endPoints {"] + (ends + (["    }"] + ["}"])));
    SingleConcat(["clientInfo {"] + Indent("    ", codec.show(ci.base)), BodyLines(ci.attrs, EndsOf(ci.myEnds)));
  }

  lemma AttrsIsSingle(attrs: uint64)
    ensures '\n' !in AttrsLine(attrs)
  {
    HexIsBytes(attrs, 8);
    HexHasNo(BigEndian(attrs, 8), '\n');
    PadKeepsOut("    attrs: 0x", Hex(attrs, 16), '\n');
  }

  /** The same for whole texts: exactly when, besides, no endpoint holds a newline. */
  lemma ClientTextRoundTrip(codec: Codec, ci: ClientInfo)
    requires Lawful(codec, ci.base) && Tails(codec) && Single(codec.show(ci.base))
    ensures ParseClient(codec, SplitLines(Join(ClientLines(codec, ci), "\n"))) == Ok(ci, []) <==>
            EndsOk(ci.myEnds) && Single(EndsOf(ci.myEnds))
  {
    var lines := ClientLines(codec, ci);
    var text := SplitLines(Join(lines, "\n"));
    if Single(EndsOf(ci.myEnds)) {
      ClientIsSingle(codec, ci);
      SplitJoin(lines);
      ClientRoundTrip(codec, ci, lines, []);
      assert lines + [] == lines;
    }
    if ParseClient(codec, text) == Ok(ci, []) {
      ParsedIsSingle(codec, text);
    }
  }

  /** ClientInfo.Equal. */
  method ClientEqual(a: ClientInfo, b: ClientInfo) returns (eq: bool)
    ensures eq <==> a == b
  {
    if a.attrs != b.attrs || a.myEnds.None? != b.myEnds.None? {
      return false;
    }
    if a.myEnds.Some? {
      if |a.myEnds.value| != |b.myEnds.value| {
        return false;
      }
      for i := 0 to |a.myEnds.value|
        invariant a.myEnds.value[..i] == b.myEnds.value[..i]
      {
        if a.myEnds.value[i] != b.myEnds.value[i] {
          return false;
        }
      }
      assert a.myEnds.value[..|a.myEnds.value|] == a.myEnds.value && b.myEnds.value[..|b.myEnds.value|] == b.myEnds.value;
    }
    eq := a.base == b.base;
  }
}
