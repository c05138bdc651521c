/** The registry's credentials as text: CRLF line ends, key texts that bring their own
    newline, and a parser that splits on newlines and on colon-space. */
module CredText {
  import opened Types
  import opened Lines
  import opened Numbers

  /** `ends` are the endpoints' addresses. */
  datatype Cred = Cred(name: string, id: Bytes, ck: PubKey, sk: PubKey, ends: seq<string>, version: nat)

  /** Key, endpoint and version texts belong to other packages. */
  datatype Forms = Forms(
    keyShow: PubKey -> string, keyRead: string -> Option<PubKey>,
    endRead: string -> Option<string>,
    versionShow: nat -> string, versionRead: string -> Option<nat>)

  // ---------------------------------------------------------------- colon-space

  predicate SepAt(s: string, i: nat) {
    i + 1 < |s| && s[i] == ':' && s[i + 1] == ' '
  }

  predicate NoSep(s: string) {
    forall i: nat | i < |s| :: !SepAt(s, i)
  }

  /** strings.Split(s, ": "). */
  function SplitSep(s: string): (r: seq<string>)
    ensures |r| >= 1
  {
    if s == "" then [""]
    else if SepAt(s, 0) then [""] + SplitSep(s[2..])
    else
      var r := SplitSep(s[1..]);
      [[s[0]] + r[0]] + r[1..]
  }

  /** The value of a "key: value" line, if it has exactly those two parts. */
  function ValueOf(line: string, key: string): Option<string> {
    var parts := SplitSep(line);
    if |parts| == 2 && parts[0] == key then Some(parts[1]) else None
  }

  lemma NoSepCons(s: string)
    requires s != ""
    ensures NoSep(s) <==> !SepAt(s, 0) && NoSep(s[1..])
  {
    var t := s[1..];
    if NoSep(s) {
      forall i: nat | i < |t| ensures !SepAt(t, i) {
        assert !SepAt(s, i + 1);
      }
    }
    if !SepAt(s, 0) && NoSep(t) {
      forall i: nat | i < |s| ensures !SepAt(s, i) {
        assert i > 0 ==> !SepAt(t, i - 1);
      }
    }
  }

  lemma {:induction false} NoSepSplits(s: string)
    ensures SplitSep(s) == [s] <==> NoSep(s)
    ensures forall i | 0 <= i < |SplitSep(s)| :: NoSep(SplitSep(s)[i])
  {
    if s != "" && !SepAt(s, 0) {
      NoSepSplits(s[1..]);
      var r := SplitSep(s[1..]);
      var first := [s[0]] + r[0];
      assert NoSep(first) by {
        SplitStarts(s[1..]);
        forall i: nat | i < |first| ensures !SepAt(first, i) {
          assert i > 0 && SepAt(first, i) ==> SepAt(r[0], i - 1);
        }
      }
      NoSepCons(s);
      assert [s[0]] + s[1..] == s && first[1..] == r[0] && r == [r[0]] + r[1..];
    } else if s != "" {
      NoSepSplits(s[2..]);
    }
  }

  /** The first part is a prefix. */
  lemma {:induction false} SplitStarts(s: string)
    ensures SplitSep(s)[0] <= s
  {
    if s != "" && !SepAt(s, 0) {
      SplitStarts(s[1..]);
    }
  }

  lemma {:induction false} SplitKey(key: string, value: string)
    requires ':' !in key
    ensures SplitSep(key + ": " + value) == [key] + SplitSep(value)
  {
    var s := key + ": " + value;
    if key == "" {
      assert s[0] == ':' && s[1] == ' ' && s[2..] == value;
    } else {
      SplitKey(key[1..], value);
      assert s[0] == key[0] && s[1..] == key[1..] + ": " + value;
      assert [key[0]] + key[1..] == key;
    }
  }

  lemma ValueOfPair(key: string, value: string)
    requires ':' !in key
    ensures ValueOf(key + ": " + value, key) == if NoSep(value) then Some(value) else None
  {
    SplitKey(key, value);
    NoSepSplits(value);
    var parts := SplitSep(value);
    assert |parts| == 1 ==> parts == [parts[0]];
    if |parts| == 1 {
      OnePart(value);
    }
  }

  lemma {:induction false} OnePart(s: string)
    requires |SplitSep(s)| == 1
    ensures SplitSep(s) == [s]
  {
    if s != "" && !SepAt(s, 0) {
      OnePart(s[1..]);
      assert [s[0]] + s[1..] == s;
    }
  }

  // ---------------------------------------------------------------- printing

  function EndLine(end: string): string {
    "         TcpEndPoint: " + end
  }

  function EndLines(ends: seq<string>): (r: seq<string>)
    ensures |r| == |ends|
  {
    if ends == [] then [] else [EndLine(ends[0])] + EndLines(ends[1..])
  }

  function KeyText(key: string, text: string): string {
    "    " + key + ": " + text
  }

  /** The lines RegCred.String joins; a key's text ends with a newline of its own. */
  function CredLines(forms: Forms, c: Cred): seq<string> {
    ["regCred {"] + (["    Name: " + c.name] + (["    ID: " + EncodeHex(c.id)] +
    ([KeyText("CommsPubKey", forms.keyShow(c.ck))] + ([KeyText("SigPubKey", forms.keyShow(c.sk))] +
    (["    EndPoints {"] + (EndLines(c.ends) +
    (["    }"] + (["    Version: " + forms.versionShow(c.version)] + ["}"]))))))))
  }

  function CredString(forms: Forms, c: Cred): string {
    Join(CredLines(forms, c), "\r\n") + "\r\n"
  }

  /** RegCred.String. */
  method CredText(forms: Forms, c: Cred) returns (s: string)
    ensures s == CredString(forms, c)
  {
    var ss := ["regCred {"];
    ss := ss + ["    Name: " + c.name];
    ss := ss + ["    ID: " + EncodeHex(c.id)];
    ss := ss + [KeyText("CommsPubKey", forms.keyShow(c.ck))];
    ss := ss + [KeyText("SigPubKey", forms.keyShow(c.sk))];
    ss := ss + ["    EndPoints {"];
    ghost var head := ss;
    for i := 0 to |c.ends|
      invariant ss == head + EndLines(c.ends[..i])
    {
      ss := ss + [EndLine(c.ends[i])];
      EndLinesSnoc(c.ends, i);
    }
    assert c.ends[..|c.ends|] == c.ends;
    ss := ss + ["    }"];
    ss := ss + ["    Version: " + forms.versionShow(c.version)];
    ss := ss + ["}"];
    assert ss == CredLines(forms, c);
    s := Join(ss, "\r\n") + "\r\n";
  }

  lemma {:induction false} EndLinesSnoc(ends: seq<string>, i: nat)
    requires i < |ends|
    ensures EndLines(ends[..i + 1]) == EndLines(ends[..i]) + [EndLine(ends[i])]
    decreases i
  {
    if i == 0 {
      assert ends[..1] == [ends[0]] && ends[..0] == [];
    } else {
      EndLinesSnoc(ends[1..], i - 1);
      assert ends[..i + 1][1..] == ends[1..][..i] && ends[..i][1..] == ends[1..][..i - 1];
    }
  }

  // ---------------------------------------------------------------- what the splitter sees

  /** Each line followed by a separator. */
  function Terminated(lines: seq<string>, sep: string): string {
    if lines == [] then "" else lines[0] + sep + Terminated(lines[1..], sep)
  }

  lemma {:induction false} JoinTerminated(lines: seq<string>, sep: string)
    requires lines != []
    ensures Join(lines, sep) + sep == Terminated(lines, sep)
  {
    if |lines| > 1 {
      JoinTerminated(lines[1..], sep);
      assert lines[0] + sep + Join(lines[1..], sep) + sep == lines[0] + sep + (Join(lines[1..], sep) + sep);
    } else {
      assert lines[0] + sep + "" == lines[0] + sep;
    }
  }

  /** The physical lines of one line ended by CRLF: a line with its own newline leaves a
      line of nothing but a carriage return behind. */
  function Phys(line: string): seq<string> {
    if line != "" && line[|line| - 1] == '\n' then [line[..|line| - 1]] + ["\r"] else [line + "\r"]
  }

  function PhysAll(lines: seq<string>): seq<string> {
    if lines == [] then [] else Phys(lines[0]) + PhysAll(lines[1..])
  }

  lemma {:induction false} TerminatedConcat(a: seq<string>, b: seq<string>, sep: string)
    ensures Terminated(a + b, sep) == Terminated(a, sep) + Terminated(b, sep)
  {
    if a == [] {
      assert a + b == b;
    } else {
      TerminatedConcat(a[1..], b, sep);
      Uncons(a, b);
      Assoc(a[0] + sep, Terminated(a[1..], sep), Terminated(b, sep));
    }
  }

  lemma {:induction false} CrlfIsPhys(lines: seq<string>)
    ensures Terminated(lines, "\r\n") == Terminated(PhysAll(lines), "\n")
  {
    if lines != [] {
      CrlfIsPhys(lines[1..]);
      TerminatedConcat(Phys(lines[0]), PhysAll(lines[1..]), "\n");
      OnePhys(lines[0]);
    }
  }

  lemma OnePhys(line: string)
    ensures Terminated(Phys(line), "\n") == line + "\r\n"
  {
    if line != "" && line[|line| - 1] == '\n' {
      var body := line[..|line| - 1];
      assert Phys(line)[1..] == ["\r"] && ["\r"][1..] == [];
      assert line == body + "\n";
      assert Terminated(["\r"], "\n") == "\r" + "\n" + "";
    } else {
      assert Phys(line)[1..] == [];
      assert line + "\r" + "\n" + "" == line + "\r\n";
    }
  }

  lemma {:induction false} SplitTerminated(lines: seq<string>)
    requires Single(lines)
    ensures SplitLines(Terminated(lines, "\n")) == lines + [""]
  {
    if lines != [] {
      SplitTerminated(lines[1..]);
      SplitLine(lines[0], Terminated(lines[1..], "\n"));
      assert lines == [lines[0]] + lines[1..];
    }
  }

  /** Only the last character of a line may be a newline. */
  predicate OneLine(line: string) {
    forall i | 0 <= i < |line| - 1 :: line[i] != '\n'
  }

  predicate AllOneLine(lines: seq<string>) {
    forall i | 0 <= i < |lines| :: OneLine(lines[i])
  }

  lemma {:induction false} PhysOneLine(lines: seq<string>)
    requires AllOneLine(lines)
    ensures Single(PhysAll(lines))
  {
    if lines != [] {
      PhysOneLine(lines[1..]);
      assert OneLine(lines[0]);
    }
  }

  /** Splitting a credential text gives its physical lines. */
  lemma CredSplits(forms: Forms, c: Cred)
    requires AllOneLine(CredLines(forms, c))
    ensures SplitLines(CredString(forms, c)) == PhysAll(CredLines(forms, c)) + [""]
  {
    var lines := CredLines(forms, c);
    JoinTerminated(lines, "\r\n");
    CrlfIsPhys(lines);
    PhysOneLine(lines);
    SplitTerminated(PhysAll(lines));
  }

  // ---------------------------------------------------------------- parsing

  /** strings.TrimLeft(s, " \t"). */
  function TrimBlanks(s: string): string {
    if s != "" && (s[0] == ' ' || s[0] == '\t') then TrimBlanks(s[1..]) else s
  }

  function NameOf(line: string): Option<string> {
    match ValueOf(line, "Name")
    case None => None
    case Some(v) => Some(TrimBlanks(v))
  }

  function IDOf(line: string): Option<Bytes> {
    match ValueOf(line, "ID")
    case None => None
    case Some(v) =>
      match DecodeHex(v)
      case None => None
      case Some(id) => if ValidID(id) then Some(id) else None
  }

  function KeyOf(forms: Forms, line: string, key: string): Option<PubKey> {
    match ValueOf(line, key)
    case None => None
    case Some(v) => forms.keyRead(v)
  }

  function EndOf(forms: Forms, line: string): Option<string> {
    match ValueOf(line, "TcpEndPoint")
    case None => None
    case Some(v) => forms.endRead(v)
  }

  function VersionOf(forms: Forms, line: string): Option<nat> {
    match ValueOf(line, "Version")
    case None => None
    case Some(v) => forms.versionRead(v)
  }

  /** The endpoint loop, with its unguarded peek. */
  function ParseEndPoints(forms: Forms, rest: seq<string>, got: seq<string>): (r: Parsed<seq<string>>)
    ensures r.Ok? ==> r.rest != [] && Trim(r.rest[0]) == "}"
    decreases |rest|
  {
    if rest == [] then Panic
    else if Trim(rest[0]) == "}" then Ok(got, rest)
    else
      var next := Field(rest, l => EndOf(forms, l));
      if next.Ok? then ParseEndPoints(forms, next.rest, got + [next.value]) else Err
  }

  method EndPointsLoop(forms: Forms, lines: seq<string>) returns (r: Parsed<seq<string>>)
    ensures r == ParseEndPoints(forms, lines, [])
  {
    var rest, ends := lines, [];
    while rest != [] && Trim(rest[0]) != "}"
      invariant ParseEndPoints(forms, rest, ends) == ParseEndPoints(forms, lines, [])
      decreases |rest|
    {
      var next := Field(rest, l => EndOf(forms, l));
      if !next.Ok? {
        return Err;
      }
      ends, rest := ends + [next.value], next.rest;
    }
    r := if rest == [] then Panic else Ok(ends, rest);
  }

  /** Name, ID and the two keys. */
  function ParseIdentity(forms: Forms, lines: seq<string>): Parsed<(string, Bytes, PubKey, PubKey)> {
    var l0 := Field(lines, l => TextField(l, "regCred {"));
    if !l0.Ok? then Err else
    var l1 := Field(l0.rest, NameOf);
    if !l1.Ok? then Err else
    var l2 := Field(l1.rest, IDOf);
    if !l2.Ok? then Err else
    var keys := ParseKeys(forms, l2.rest);
    if !keys.Ok? then Err else Ok((l1.value, l2.value, keys.value.0, keys.value.1), keys.rest)
  }

  function ParseKeys(forms: Forms, lines: seq<string>): Parsed<(PubKey, PubKey)> {
    var ck := Field(lines, l => KeyOf(forms, l, "CommsPubKey"));
    if !ck.Ok? then Err else
    var sk := Field(ck.rest, l => KeyOf(forms, l, "SigPubKey"));
    if !sk.Ok? then Err else Ok((ck.value, sk.value), sk.rest)
  }

  /** Endpoints and version; whatever follows them is ignored. */
  function ParseService(forms: Forms, lines: seq<string>): Parsed<(seq<string>, nat)> {
    var open := Field(lines, l => TextField(l, "EndPoints {"));
    if !open.Ok? then Err
    else
      match ParseEndPoints(forms, open.rest, [])
      case Panic => Panic
      case Err => Err
      case Ok(ends, rest) =>
        var version := Field(rest[1..], l => VersionOf(forms, l));
        if version.Ok? then Ok((ends, version.value), version.rest) else Err
  }

  /** ParseRegCred. */
  function ParseCred(forms: Forms, s: string): Parsed<Cred> {
    match ParseIdentity(forms, SplitLines(s))
    case Panic => Panic
    case Err => Err
    case Ok((name, id, ck, sk), rest) =>
      match ParseService(forms, rest)
      case Panic => Panic
      case Err => Err
      case Ok((ends, version), rest') => Ok(Cred(name, id, ck, sk, ends, version), rest')
  }

  /** ParseRegCred as a chain of steps, each consuming lines. */
  method ParseRegCred(forms: Forms, s: string) returns (r: Parsed<Cred>)
    ensures r == ParseCred(forms, s)
  {
    var who := IdentitySteps(forms, SplitLines(s));
    if !who.Ok? { return Err; }
    var service := ServiceSteps(forms, who.rest);
    if !service.Ok? { return if service.Panic? then Panic else Err; }
    r := Ok(Cred(who.value.0, who.value.1, who.value.2, who.value.3, service.value.0, service.value.1), service.rest);
  }

  method IdentitySteps(forms: Forms, lines: seq<string>) returns (r: Parsed<(string, Bytes, PubKey, PubKey)>)
    ensures r == ParseIdentity(forms, lines)
  {
    var line := Field(lines, l => TextField(l, "regCred {"));
    if !line.Ok? { return Err; }
    var name := Field(line.rest, NameOf);
    if !name.Ok? { return Err; }
    var id := Field(name.rest, IDOf);
    if !id.Ok? { return Err; }
    var ck := Field(id.rest, l => KeyOf(forms, l, "CommsPubKey"));
    if !ck.Ok? { return Err; }
    var sk := Field(ck.rest, l => KeyOf(forms, l, "SigPubKey"));
    if !sk.Ok? { return Err; }
    r := Ok((name.value, id.value, ck.value, sk.value), sk.rest);
  }

  method ServiceSteps(forms: Forms, lines: seq<string>) returns (r: Parsed<(seq<string>, nat)>)
    ensures r == ParseService(forms, lines)
  {
    var open := Field(lines, l => TextField(l, "EndPoints {"));
    if !open.Ok? { return Err; }
    var ends := EndPointsLoop(forms, open.rest);
    if !ends.Ok? { return if ends.Panic? then Panic else Err; }
    var version := Field(ends.rest[1..], l => VersionOf(forms, l));
    if !version.Ok? { return Err; }
    r := Ok((ends.value, version.value), version.rest);
  }

  // ---------------------------------------------------------------- which names come back

  /** Not empty, on one line, not blank at the end, not starting with a blank or a tab, and
      without a colon-space. */
  predicate CredNameOk(name: string) {
    && name != "" && !IsSpace(name[|name| - 1]) && name[0] != ' ' && name[0] != '\t'
    && NoSep(name) && '\n' !in name
  }

  lemma {:induction false} TrimBlanksSpec(s: string)
    ensures var r := TrimBlanks(s);
            && |r| <= |s| && r == s[|s| - |r|..] && (r != "" ==> r[0] != ' ' && r[0] != '\t')
            && (s != "" && !IsSpace(s[|s| - 1]) ==> r != "")
  {
    if s != "" && (s[0] == ' ' || s[0] == '\t') {
      TrimBlanksSpec(s[1..]);
    }
  }

  lemma NoSepSuffix(s: string, i: nat)
    requires NoSep(s) && i <= |s|
    ensures NoSep(s[i..])
  {
    var t := s[i..];
    forall j: nat | j < |t| ensures !SepAt(t, j) {
      assert !SepAt(s, i + j);
    }
  }

  lemma {:induction false} SplitEnds(s: string)
    ensures var r := SplitSep(s); |r| == 2 ==> s == r[0] + ": " + r[1]
  {
    if s != "" && SepAt(s, 0) {
      if |SplitSep(s)| == 2 {
        OnePart(s[2..]);
        assert s == "" + ": " + s[2..];
      }
    } else if s != "" {
      SplitEnds(s[1..]);
      assert s == [s[0]] + s[1..];
    }
  }

  /** No other name is ever read. */
  lemma ReadNameOk(line: string)
    requires Trimmed(line) && line != "" && '\n' !in line && NameOf(line).Some?
    ensures CredNameOk(NameOf(line).value)
  {
    var v := SplitSep(line)[1];
    NoSepSplits(line);
    SplitEnds(line);
    TrimBlanksSpec(v);
    var r := TrimBlanks(v);
    assert line[|line| - 1] == if v == "" then ' ' else v[|v| - 1];
    NoSepSuffix(v, |v| - |r|);
    assert '\n' !in r by {
      assert forall i | 0 <= i < |r| :: r[i] == v[|v| - |r| + i];
      assert forall i | 0 <= i < |v| :: v[i] == line[|line| - |v| + i];
    }
  }

  lemma ParsedNameOk(forms: Forms, s: string)
    requires ParseCred(forms, s).Ok?
    ensures CredNameOk(ParseCred(forms, s).value.name)
  {
    var lines := SplitLines(s);
    NextIsSingle(lines);
    var l0 := Field(lines, l => TextField(l, "regCred {"));
    NextIsTrimmed(l0.rest);
    NextIsSingle(l0.rest);
    ReadNameOk(NextLine(l0.rest).value.0);
  }

  // ---------------------------------------------------------------- the forms' contract

  /** A text that fits on a "key: value" line. */
  predicate Fits(v: string) {
    v != "" && Trimmed(v) && '\n' !in v && NoSep(v)
  }

  /** A key's text is such a value and a newline, and is read back without the newline. */
  predicate KeyLaw(forms: Forms, k: PubKey) {
    var s := forms.keyShow(k);
    s != "" && s[|s| - 1] == '\n' && Fits(s[..|s| - 1]) && forms.keyRead(s[..|s| - 1]) == Some(k)
  }

  predicate FormsLaw(forms: Forms, c: Cred) {
    && ValidID(c.id) && KeyLaw(forms, c.ck) && KeyLaw(forms, c.sk)
    && (forall i | 0 <= i < |c.ends| :: Fits(c.ends[i]) && forms.endRead(c.ends[i]) == Some(c.ends[i]))
    && Fits(forms.versionShow(c.version)) && forms.versionRead(forms.versionShow(c.version)) == Some(c.version)
  }

  // ---------------------------------------------------------------- reading physical lines

  lemma PhysTrim(line: string)
    ensures Trim(Phys(line)[0]) == Trim(line)
    ensures Phys(line) == [Phys(line)[0]] + Phys(line)[1..] && (Phys(line)[1..] == [] || Phys(line)[1..] == ["\r"])
  {
    if line != "" && line[|line| - 1] == '\n' {
      TrimLeftEnd(line[..|line| - 1], "\n");
      assert line[..|line| - 1] + "\n" == line;
      assert Phys(line)[1..] == ["\r"];
    } else {
      TrimLeftEnd(line, "\r");
    }
  }

  /** A field read from the physical lines of a line: a bare carriage return is skipped. */
  lemma FieldPhys<T>(line: string, text: string, more: seq<string>, tail: seq<string>, f: string -> Option<T>)
    requires Trim(line) == text != ""
    ensures var r := Field(PhysAll([line] + more) + tail, f);
            match f(text)
            case None => r == Err
            case Some(v) => r.Ok? && r.value == v && NextLine(r.rest) == NextLine(PhysAll(more) + tail)
                            && (Phys(line)[1..] == [] ==> r.rest == PhysAll(more) + tail)
  {
    PhysTrim(line);
    var first, after, rest := Phys(line)[0], Phys(line)[1..], PhysAll(more) + tail;
    assert ([line] + more)[1..] == more;
    assert PhysAll([line] + more) + tail == [first] + (after + rest);
    FieldIs(first, after + rest, f);
    if after == ["\r"] {
      TrimOfBlank("\r");
      assert (["\r"] + rest)[1..] == rest;
    } else {
      assert after + rest == rest;
    }
  }

  /** A "key: value" line, indented, with or without a newline at its end. */
  lemma PairTrim(pad: string, key: string, value: string, end: string)
    requires AllSpace(pad) && AllSpace(end) && key != "" && !IsSpace(key[0])
    requires value != "" && !IsSpace(value[|value| - 1])
    ensures Trim(pad + (key + ": " + value) + end) == key + ": " + value
  {
    var text := key + ": " + value;
    assert text[0] == key[0] && text[|text| - 1] == value[|value| - 1];
    TrimPadded(pad, text, end);
    TrimIsTrimmed(text);
  }

  lemma KeyLine(forms: Forms, k: PubKey, key: string)
    requires KeyLaw(forms, k) && key != "" && !IsSpace(key[0]) && ':' !in key
    ensures var body := forms.keyShow(k)[..|forms.keyShow(k)| - 1];
            && Trim(KeyText(key, forms.keyShow(k))) == key + ": " + body
            && KeyOf(forms, key + ": " + body, key) == Some(k)
  {
    var s := forms.keyShow(k);
    var body := s[..|s| - 1];
    PairTrim("    ", key, body, "\n");
    assert s == body + "\n";
    assert "    " + (key + ": " + body) + "\n" == KeyText(key, s);
    ValueOfPair(key, body);
  }

  lemma NameLine(name: string)
    requires CredNameOk(name)
    ensures Trim("    Name: " + name) == "Name: " + name && NameOf("Name: " + name) == Some(name)
  {
    PairTrim("    ", "Name", name, "");
    assert "    " + ("Name" + ": " + name) + "" == "    Name: " + name && "Name" + ": " + name == "Name: " + name;
    ValueOfPair("Name", name);
  }

  lemma IDLine(id: Bytes)
    requires ValidID(id)
    ensures Trim("    ID: " + EncodeHex(id)) == "ID: " + EncodeHex(id) && IDOf("ID: " + EncodeHex(id)) == Some(id)
  {
    var hex := EncodeHex(id);
    assert !IsSpace(hex[|hex| - 1]);
    PairTrim("    ", "ID", hex, "");
    assert "    " + ("ID" + ": " + hex) + "" == "    ID: " + hex && "ID" + ": " + hex == "ID: " + hex;
    HexHasNo(id, ':');
    assert NoSep(hex);
    ValueOfPair("ID", hex);
    DecodeEncode(id);
  }

  lemma VersionLine(forms: Forms, c: Cred)
    requires FormsLaw(forms, c)
    ensures var v := forms.versionShow(c.version);
            Trim("    Version: " + v) == "Version: " + v && VersionOf(forms, "Version: " + v) == Some(c.version)
  {
    var v := forms.versionShow(c.version);
    PairTrim("    ", "Version", v, "");
    assert "    " + ("Version" + ": " + v) + "" == "    Version: " + v && "Version" + ": " + v == "Version: " + v;
    ValueOfPair("Version", v);
  }

  lemma EndPointLine(forms: Forms, e: string)
    requires Fits(e) && forms.endRead(e) == Some(e)
    ensures Trim(EndLine(e)) == "TcpEndPoint: " + e && EndOf(forms, "TcpEndPoint: " + e) == Some(e)
  {
    PairTrim("         ", "TcpEndPoint", e, "");
    assert "         " + ("TcpEndPoint" + ": " + e) + "" == EndLine(e) && "TcpEndPoint" + ": " + e == "TcpEndPoint: " + e;
    ValueOfPair("TcpEndPoint", e);
  }

  // ---------------------------------------------------------------- the round trip

  function IdentityLines(forms: Forms, c: Cred, more: seq<string>): seq<string> {
    ["regCred {"] + (["    Name: " + c.name] + (["    ID: " + EncodeHex(c.id)] + KeyLines(forms, c.ck, c.sk, more)))
  }

  function KeyLines(forms: Forms, ck: PubKey, sk: PubKey, more: seq<string>): seq<string> {
    [KeyText("CommsPubKey", forms.keyShow(ck))] + ([KeyText("SigPubKey", forms.keyShow(sk))] + more)
  }

  function ServiceLines(forms: Forms, c: Cred): seq<string> {
    ["    EndPoints {"] + (EndLines(c.ends) + (["    }"] + (["    Version: " + forms.versionShow(c.version)] + ["}"])))
  }

  lemma KeyForward(forms: Forms, k: PubKey, key: string, lines: seq<string>, more: seq<string>, tail: seq<string>)
    requires KeyLaw(forms, k) && key != "" && !IsSpace(key[0]) && ':' !in key
    requires NextLine(lines) == NextLine(PhysAll([KeyText(key, forms.keyShow(k))] + more) + tail)
    ensures var r := Field(lines, l => KeyOf(forms, l, key));
            r.Ok? && r.value == k && NextLine(r.rest) == NextLine(PhysAll(more) + tail)
  {
    var s := forms.keyShow(k);
    KeyLine(forms, k, key);
    FieldPhys(KeyText(key, s), key + ": " + s[..|s| - 1], more, tail, l => KeyOf(forms, l, key));
  }

  lemma KeysForward(forms: Forms, c: Cred, lines: seq<string>, more: seq<string>, tail: seq<string>)
    requires KeyLaw(forms, c.ck) && KeyLaw(forms, c.sk)
    requires NextLine(lines) == NextLine(PhysAll(KeyLines(forms, c.ck, c.sk, more)) + tail)
    ensures var r := ParseKeys(forms, lines);
            r.Ok? && r.value == (c.ck, c.sk) && NextLine(r.rest) == NextLine(PhysAll(more) + tail)
  {
    KeyForward(forms, c.ck, "CommsPubKey", lines, [KeyText("SigPubKey", forms.keyShow(c.sk))] + more, tail);
    var ck := Field(lines, l => KeyOf(forms, l, "CommsPubKey"));
    KeyForward(forms, c.sk, "SigPubKey", ck.rest, more, tail);
  }

  lemma IdentityForward(forms: Forms, c: Cred, more: seq<string>, tail: seq<string>)
    requires FormsLaw(forms, c) && CredNameOk(c.name)
    ensures var r := ParseIdentity(forms, PhysAll(IdentityLines(forms, c, more)) + tail);
            r.Ok? && r.value == (c.name, c.id, c.ck, c.sk) && NextLine(r.rest) == NextLine(PhysAll(more) + tail)
  {
    var keys := KeyLines(forms, c.ck, c.sk, more);
    var id := ["    ID: " + EncodeHex(c.id)] + keys;
    TrimIsTrimmed("regCred {");
    FieldPhys("regCred {", "regCred {", ["    Name: " + c.name] + id, tail, l => TextField(l, "regCred {"));
    NameLine(c.name);
    FieldPhys("    Name: " + c.name, "Name: " + c.name, id, tail, NameOf);
    IDLine(c.id);
    FieldPhys("    ID: " + EncodeHex(c.id), "ID: " + EncodeHex(c.id), keys, tail, IDOf);
    var lines := PhysAll(IdentityLines(forms, c, more)) + tail;
    var l2 := Field(Field(Field(lines, l => TextField(l, "regCred {")).rest, NameOf).rest, IDOf);
    KeysForward(forms, c, l2.rest, more, tail);
  }

  ghost predicate Returned(forms: Forms, ends: seq<string>) {
    forall i | 0 <= i < |ends| :: Fits(ends[i]) && forms.endRead(ends[i]) == Some(ends[i])
  }

  lemma {:induction false} EndPointsForward(forms: Forms, ends: seq<string>, after: seq<string>, got: seq<string>)
    requires Returned(forms, ends) && after != [] && Trim(after[0]) == "}"
    ensures ParseEndPoints(forms, PhysAll(EndLines(ends)) + after, got) == Ok(got + ends, after)
    decreases |ends|
  {
    if ends == [] {
      assert PhysAll(EndLines(ends)) + after == after && got + ends == got;
    } else {
      EndPointStep(forms, ends[0], PhysAll(EndLines(ends[1..])) + after, got);
      EndPointsForward(forms, ends[1..], after, got + [ends[0]]);
      PhysCons(ends);
      Assoc(Phys(EndLine(ends[0])), PhysAll(EndLines(ends[1..])), after);
      Assoc(got, [ends[0]], ends[1..]);
      assert [ends[0]] + ends[1..] == ends;
    }
  }

  lemma PhysCons(ends: seq<string>)
    requires ends != []
    ensures PhysAll(EndLines(ends)) == Phys(EndLine(ends[0])) + PhysAll(EndLines(ends[1..]))
  {
    assert EndLines(ends)[1..] == EndLines(ends[1..]);
  }

  lemma EndPointStep(forms: Forms, e: string, more: seq<string>, got: seq<string>)
    requires Fits(e) && forms.endRead(e) == Some(e)
    ensures ParseEndPoints(forms, Phys(EndLine(e)) + more, got) == ParseEndPoints(forms, more, got + [e])
  {
    EndPointLine(forms, e);
    PhysTrim(EndLine(e));
    EndLineEnd(e);
    var line := Phys(EndLine(e))[0];
    assert Phys(EndLine(e)) + more == [line] + more;
    assert Trim(line)[0] == 'T';
    FieldIs(line, more, l => EndOf(forms, l));
    assert ([line] + more)[0] == line;
  }

  lemma {:induction false} PhysConcat(a: seq<string>, b: seq<string>)
    ensures PhysAll(a + b) == PhysAll(a) + PhysAll(b)
  {
    if a == [] {
      assert a + b == b;
    } else {
      PhysConcat(a[1..], b);
      Uncons(a, b);
      Assoc(Phys(a[0]), PhysAll(a[1..]), PhysAll(b));
    }
  }

  lemma EndLineEnd(e: string)
    requires Fits(e)
    ensures Phys(EndLine(e))[1..] == []
  {
    assert EndLine(e)[|EndLine(e)| - 1] == e[|e| - 1];
  }

  lemma ServiceForward(forms: Forms, c: Cred, lines: seq<string>, tail: seq<string>)
    requires FormsLaw(forms, c) && NextLine(lines) == NextLine(PhysAll(ServiceLines(forms, c)) + tail)
    ensures var r := ParseService(forms, lines); r.Ok? && r.value == (c.ends, c.version)
  {
    var version := ["    Version: " + forms.versionShow(c.version)] + ["}"];
    var close := ["    }"] + version;
    OpenEnds();
    FieldPhys("    EndPoints {", "EndPoints {", EndLines(c.ends) + close, tail, l => TextField(l, "EndPoints {"));
    CloseLine(version, tail);
    PhysConcat(EndLines(c.ends), close);
    Assoc(PhysAll(EndLines(c.ends)), PhysAll(close), tail);
    EndPointsForward(forms, c.ends, PhysAll(close) + tail, []);
    assert [] + c.ends == c.ends;
    VersionLine(forms, c);
    FieldPhys("    Version: " + forms.versionShow(c.version), "Version: " + forms.versionShow(c.version), ["}"], tail, l => VersionOf(forms, l));
  }

  lemma OpenEnds()
    ensures Trim("    EndPoints {") == "EndPoints {" && Phys("    EndPoints {")[1..] == []
  {
    TrimField("    ", "EndPoints {");
    assert "    " + "EndPoints {" == "    EndPoints {";
  }

  lemma CloseLine(more: seq<string>, tail: seq<string>)
    ensures var all := PhysAll(["    }"] + more) + tail;
            all != [] && Trim(all[0]) == "}" && all[1..] == PhysAll(more) + tail
  {
    TrimField("    ", "}");
    assert "    " + "}" == "    }";
    PhysTrim("    }");
    assert (["    }"] + more)[1..] == more && Phys("    }") == ["    }" + "\r"];
  }

  lemma OneLineConcat(pre: string, value: string)
    requires '\n' !in pre && OneLine(value)
    ensures OneLine(pre + value)
  {
  }

  lemma AllOneLineConcat(a: seq<string>, b: seq<string>)
    requires AllOneLine(a) && AllOneLine(b)
    ensures AllOneLine(a + b)
  {
  }

  lemma KeyOneLine(forms: Forms, k: PubKey, key: string)
    requires KeyLaw(forms, k) && '\n' !in key
    ensures OneLine(KeyText(key, forms.keyShow(k)))
  {
    var s := forms.keyShow(k);
    assert forall i | 0 <= i < |s| - 1 :: s[i] == s[..|s| - 1][i];
    OneLineConcat("    " + key + ": ", s);
  }

  lemma {:induction false} EndsOneLine(ends: seq<string>)
    requires forall i | 0 <= i < |ends| :: Fits(ends[i])
    ensures AllOneLine(EndLines(ends))
  {
    if ends != [] {
      EndsOneLine(ends[1..]);
      OneLineConcat("         TcpEndPoint: ", ends[0]);
      AllOneLineConcat([EndLine(ends[0])], EndLines(ends[1..]));
    }
  }

  lemma ServiceOneLine(forms: Forms, c: Cred)
    requires FormsLaw(forms, c)
    ensures AllOneLine(ServiceLines(forms, c))
  {
    var version := "    Version: " + forms.versionShow(c.version);
    OneLineConcat("    Version: ", forms.versionShow(c.version));
    EndsOneLine(c.ends);
    AllOneLineConcat([version], ["}"]);
    AllOneLineConcat(["    }"], [version] + ["}"]);
    AllOneLineConcat(EndLines(c.ends), ["    }"] + ([version] + ["}"]));
    AllOneLineConcat(["    EndPoints {"], EndLines(c.ends) + (["    }"] + ([version] + ["}"])));
  }

  lemma CredOneLine(forms: Forms, c: Cred)
    requires FormsLaw(forms, c) && CredNameOk(c.name)
    ensures AllOneLine(IdentityLines(forms, c, ServiceLines(forms, c)))
  {
    var ck, sk := KeyText("CommsPubKey", forms.keyShow(c.ck)), KeyText("SigPubKey", forms.keyShow(c.sk));
    HexHasNo(c.id, '\n');
    OneLineConcat("    Name: ", c.name);
    OneLineConcat("    ID: ", EncodeHex(c.id));
    KeyOneLine(forms, c.ck, "CommsPubKey");
    KeyOneLine(forms, c.sk, "SigPubKey");
    ServiceOneLine(forms, c);
    AllOneLineConcat([sk], ServiceLines(forms, c));
    AllOneLineConcat([ck], [sk] + ServiceLines(forms, c));
    AllOneLineConcat(["    ID: " + EncodeHex(c.id)], [ck] + ([sk] + ServiceLines(forms, c)));
    AllOneLineConcat(["    Name: " + c.name], ["    ID: " + EncodeHex(c.id)] + ([ck] + ([sk] + ServiceLines(forms, c))));
  }

  /** Parsing undoes printing exactly when the name is one that fits its line; for any
      number of endpoints, and despite the blank lines the key texts leave behind. */
  lemma CredRoundTrip(forms: Forms, c: Cred)
    requires FormsLaw(forms, c)
    ensures var r := ParseCred(forms, CredString(forms, c));
            r.Ok? && r.value == c <==> CredNameOk(c.name)
  {
    if CredNameOk(c.name) {
      var service := ServiceLines(forms, c);
      assert CredLines(forms, c) == IdentityLines(forms, c, service);
      CredOneLine(forms, c);
      CredSplits(forms, c);
      IdentityForward(forms, c, service, [""]);
      ServiceForward(forms, c, ParseIdentity(forms, SplitLines(CredString(forms, c))).rest, [""]);
    }
    if ParseCred(forms, CredString(forms, c)).Ok? {
      ParsedNameOk(forms, CredString(forms, c));
    }
  }

  /** Printing, parsing and printing again gives identical text. */
  lemma CredReprint(forms: Forms, c: Cred)
    requires FormsLaw(forms, c) && CredNameOk(c.name)
    ensures var r := ParseCred(forms, CredString(forms, c));
            r.Ok? && CredString(forms, r.value) == CredString(forms, c)
  {
    CredRoundTrip(forms, c);
  }
}
