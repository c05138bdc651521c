/** The text form of a RegCluster: fixed fields, then the members' own text, nested. */
module ClusterText {
  import opened Types
  import opened Stores
  import opened Lines
  import opened Numbers
  import opened ClientText

  // ---------------------------------------------------------------- fields

  datatype Head = Head(attrs: uint64, name: string, id: Bytes, epCount: uint32, maxSize: uint32)

  function HeadOf(c: Cluster): Head {
    Head(c.attrs, c.name, c.id, c.epCount, c.maxSize)
  }

  function HeadLines(h: Head): seq<string> {
    ["regCluster {"] + (["    Attrs: 0x" + Hex(h.attrs, 16)] + (["    Name: " + h.name] +
    (["    ID: " + EncodeHex(h.id)] + (["    epCount: " + Dec(h.epCount)] + ["    maxSize: " + Dec(h.maxSize)]))))
  }

  /** Go's conversions keep the low bits. */
  function Uint64(i: int): uint64 {
    if 0 <= i < 0x1_0000_0000_0000_0000 then i else i % 0x1_0000_0000_0000_0000
  }

  function Uint32(i: int): uint32 {
    if 0 <= i < 0x1_0000_0000 then i else i % 0x1_0000_0000
  }

  /** The Attrs line is read as a signed 64-bit number and converted. */
  function AttrsField(line: string): Option<uint64> {
    if !HasPrefix(line, "Attrs: ") then None
    else
      match ParseInt(line[7..])
      case None => None
      case Some(i) => Some(Uint64(i))
  }

  function NameField(line: string): Option<string> {
    if HasPrefix(line, "Name: ") then Some(line[6..]) else None
  }

  function IDField(line: string): Option<Bytes> {
    if !HasPrefix(line, "ID: ") then None
    else
      match DecodeHex(line[4..])
      case None => None
      case Some(id) => if ValidID(id) then Some(id) else None
  }

  function CountField(line: string, key: string): Option<uint32> {
    if !HasPrefix(line, key) then None
    else
      match Atoi(line[|key|..])
      case None => None
      case Some(i) => Some(Uint32(i))
  }

  function ParseHead(lines: seq<string>): (r: Parsed<Head>)
    ensures r.Ok? ==> |r.rest| < |lines|
  {
    var l0 := Field(lines, l => TextField(l, "regCluster {"));
    if !l0.Ok? then Err else
    var l1 := Field(l0.rest, AttrsField);
    if !l1.Ok? then Err else
    var l2 := Field(l1.rest, NameField);
    if !l2.Ok? then Err else
    var l3 := Field(l2.rest, IDField);
    if !l3.Ok? then Err else
    var l4 := Field(l3.rest, l => CountField(l, "epCount: "));
    if !l4.Ok? then Err else
    var l5 := Field(l4.rest, l => CountField(l, "maxSize: "));
    if !l5.Ok? then Err
    else Ok(Head(l1.value, l2.value, l3.value, l4.value, l5.value), l5.rest)
  }

  // ---------------------------------------------------------------- field round trips

  predicate NameOk(name: string) {
    name != "" && !IsSpace(name[|name| - 1])
  }

  /** Leading blanks of a name survive; trailing ones and blank names do not. */
  lemma NameFieldExact(line: string, name: string)
    requires Trim(line) == Trim("    Name: " + name)
    ensures NameOk(name) ==> Trim(line) != "" && NameField(Trim(line)) == Some(name)
    ensures Trim(line) != "" && NameField(Trim(line)) == Some(name) ==> NameOk(name)
  {
    var text := "Name: " + name;
    if NameOk(name) {
      assert text[0] == 'N' && text[|text| - 1] == name[|name| - 1];
      TrimField("    ", text);
      assert "    " + text == "    Name: " + name;
      assert text[6..] == name;
    }
    if NameField(Trim(line)) == Some(name) {
      TrimIsTrimmed(line);
      var t := Trim(line);
      assert t == t[..6] + t[6..];
      assert t[|t| - 1] == if name == "" then ' ' else name[|name| - 1];
    }
  }

  lemma AttrsFieldText(attrs: uint64)
    ensures AttrsField("Attrs: 0x" + Hex(attrs, 16)) == if attrs < INT64 then Some(attrs) else None
  {
    var text := "Attrs: 0x" + Hex(attrs, 16);
    assert text[7..] == "0x" + Hex(attrs, 16);
    assert ParseInt(text[7..]) == if attrs < INT64 then Some(attrs) else None by {
      ParsePrintedHex(attrs);
    }
  }

  lemma AttrsFieldExact(line: string, attrs: uint64)
    requires Trim(line) == Trim("    Attrs: 0x" + Hex(attrs, 16))
    ensures Trim(line) != "" && AttrsField(Trim(line)) == if attrs < INT64 then Some(attrs) else None
  {
    HexEnds(attrs);
    assert "    Attrs: 0x" == "    " + "Attrs: 0x";
    KeyedTrim("    ", "Attrs: 0x", Hex(attrs, 16));
    AttrsFieldText(attrs);
  }

  /** An indented field loses its indentation, if neither its key nor its value is blank at
      the outer end. */
  lemma KeyedTrim(pad: string, key: string, value: string)
    requires AllSpace(pad) && key != "" && !IsSpace(key[0]) && value != "" && !IsSpace(value[|value| - 1])
    ensures Trim((pad + key) + value) == key + value && key + value != ""
  {
    var text := key + value;
    assert text[0] == key[0] && text[|text| - 1] == value[|value| - 1];
    TrimField(pad, text);
    Assoc(pad, key, value);
  }

  lemma IDFieldExact(line: string, id: Bytes)
    requires Trim(line) == Trim("    ID: " + EncodeHex(id)) && ValidID(id)
    ensures Trim(line) != "" && IDField(Trim(line)) == Some(id)
  {
    var hex := EncodeHex(id);
    var text := "ID: " + hex;
    assert !IsSpace(hex[|hex| - 1]);
    assert text[0] == 'I' && text[|text| - 1] == hex[|hex| - 1];
    TrimField("    ", text);
    assert "    " + text == "    ID: " + hex;
    assert text[4..] == hex;
    DecodeEncode(id);
  }

  lemma CountFieldText(key: string, n: uint32)
    ensures CountField(key + Dec(n), key) == Some(n)
  {
    var text := key + Dec(n);
    assert text[|key|..] == Dec(n);
    assert Atoi(text[|key|..]) == Some(n) by {
      ParsePrintedDec(n);
    }
  }

  lemma CountFieldTrim(key: string, n: uint32)
    requires key != "" && !IsSpace(key[0])
    ensures Trim("    " + key + Dec(n)) == key + Dec(n)
  {
    var text := key + Dec(n);
    DecIsDecimal(n);
    assert text[0] == key[0] && text[|text| - 1] == Dec(n)[|Dec(n)| - 1];
    TrimField("    ", text);
    assert "    " + text == "    " + key + Dec(n);
  }

  lemma CountFieldExact(line: string, key: string, n: uint32)
    requires key != "" && !IsSpace(key[0]) && Trim(line) == Trim("    " + key + Dec(n))
    ensures Trim(line) != "" && CountField(Trim(line), key) == Some(n)
  {
    CountFieldTrim(key, n);
    CountFieldText(key, n);
  }

  // ---------------------------------------------------------------- the fixed fields together

  predicate HeadOk(h: Head) {
    h.attrs < INT64 && NameOk(h.name) && ValidID(h.id)
  }

  lemma HeadShape(lines: seq<string>, h: Head)
    requires SameLines(lines, HeadLines(h))
    ensures |lines| == 6 && Trim(lines[0]) == Trim("regCluster {") && Trim(lines[1]) == Trim("    Attrs: 0x" + Hex(h.attrs, 16))
    ensures Trim(lines[2]) == Trim("    Name: " + h.name) && Trim(lines[3]) == Trim("    ID: " + EncodeHex(h.id))
    ensures Trim(lines[4]) == Trim("    epCount: " + Dec(h.epCount)) && Trim(lines[5]) == Trim("    maxSize: " + Dec(h.maxSize))
  {
    var all := HeadLines(h);
    assert |all| == 6 && all[0] == "regCluster {" && all[1] == "    Attrs: 0x" + Hex(h.attrs, 16);
    assert all[2] == "    Name: " + h.name && all[3] == "    ID: " + EncodeHex(h.id);
    assert all[4] == "    epCount: " + Dec(h.epCount) && all[5] == "    maxSize: " + Dec(h.maxSize);
  }

  lemma SixAndRest(lines: seq<string>, rest: seq<string>)
    requires |lines| == 6
    ensures lines + rest == [lines[0]] + ([lines[1]] + ([lines[2]] + ([lines[3]] + ([lines[4]] + ([lines[5]] + rest)))))
  {
  }

  lemma Headline(line: string)
    requires Trim(line) == Trim("regCluster {")
    ensures Trim(line) == "regCluster {"
  {
    TrimIsTrimmed("regCluster {");
  }

  lemma NameLineNotBlank(line: string, name: string)
    requires Trim(line) == Trim("    Name: " + name)
    ensures Trim(line) != ""
  {
    TrimOfBlank("    Name: " + name);
    assert !IsSpace(("    Name: " + name)[4]);
  }

  lemma IDLineNotBlank(line: string, id: Bytes)
    requires Trim(line) == Trim("    ID: " + EncodeHex(id))
    ensures Trim(line) != ""
  {
    TrimOfBlank("    ID: " + EncodeHex(id));
    assert !IsSpace(("    ID: " + EncodeHex(id))[4]);
  }

  /** The two counts always come back. */
  lemma CountsExact(lines: seq<string>, h: Head, rest: seq<string>)
    requires SameLines(lines, HeadLines(h))
    ensures |lines| == 6
    ensures Field([lines[4]] + ([lines[5]] + rest), l => CountField(l, "epCount: ")) == Ok(h.epCount, [lines[5]] + rest)
    ensures Field([lines[5]] + rest, l => CountField(l, "maxSize: ")) == Ok(h.maxSize, rest)
  {
    HeadShape(lines, h);
    EpCountExact(lines[4], h.epCount, [lines[5]] + rest);
    MaxSizeExact(lines[5], h.maxSize, rest);
  }

  lemma EpCountExact(line: string, n: uint32, rest: seq<string>)
    requires Trim(line) == Trim("    epCount: " + Dec(n))
    ensures Field([line] + rest, l => CountField(l, "epCount: ")) == Ok(n, rest)
  {
    assert "    " + "epCount: " == "    epCount: ";
    CountExact(line, "epCount: ", n, rest);
  }

  lemma MaxSizeExact(line: string, n: uint32, rest: seq<string>)
    requires Trim(line) == Trim("    maxSize: " + Dec(n))
    ensures Field([line] + rest, l => CountField(l, "maxSize: ")) == Ok(n, rest)
  {
    assert "    " + "maxSize: " == "    maxSize: ";
    CountExact(line, "maxSize: ", n, rest);
  }

  lemma CountExact(line: string, key: string, n: uint32, rest: seq<string>)
    requires key != "" && !IsSpace(key[0]) && Trim(line) == Trim("    " + key + Dec(n))
    ensures Field([line] + rest, l => CountField(l, key)) == Ok(n, rest)
  {
    CountFieldExact(line, key, n);
    FieldIs(line, rest, l => CountField(l, key));
  }

  /** The first two fields: attrs come back exactly when below 2^63. */
  lemma AttrsExact(lines: seq<string>, h: Head, rest: seq<string>)
    requires SameLines(lines, HeadLines(h))
    ensures |lines| == 6
    ensures Field([lines[0]] + ([lines[1]] + rest), l => TextField(l, "regCluster {")) == Ok((), [lines[1]] + rest)
    ensures Field([lines[1]] + rest, AttrsField) == if h.attrs < INT64 then Ok(h.attrs, rest) else Err
  {
    HeadShape(lines, h);
    Headline(lines[0]);
    FieldIs(lines[0], [lines[1]] + rest, l => TextField(l, "regCluster {"));
    AttrsFieldExact(lines[1], h.attrs);
    FieldIs(lines[1], rest, AttrsField);
  }

  lemma NameIDExact(lines: seq<string>, h: Head, rest: seq<string>)
    requires SameLines(lines, HeadLines(h))
    ensures |lines| == 6
    ensures var r := Field([lines[2]] + ([lines[3]] + rest), NameField);
            r == Ok(h.name, [lines[3]] + rest) <==> NameOk(h.name)
    ensures Field([lines[2]] + ([lines[3]] + rest), NameField).Ok? ==>
            Field([lines[2]] + ([lines[3]] + rest), NameField).rest == [lines[3]] + rest
    ensures ValidID(h.id) ==> Field([lines[3]] + rest, IDField) == Ok(h.id, rest)
    ensures Field([lines[3]] + rest, IDField).Ok? ==> ValidID(Field([lines[3]] + rest, IDField).value)
  {
    HeadShape(lines, h);
    NameLineNotBlank(lines[2], h.name);
    NameFieldExact(lines[2], h.name);
    FieldIs(lines[2], [lines[3]] + rest, NameField);
    IDLineNotBlank(lines[3], h.id);
    FieldIs(lines[3], rest, IDField);
    if ValidID(h.id) {
      IDFieldExact(lines[3], h.id);
    }
  }

  /** The fixed fields come back exactly when attrs are below 2^63, the name is not blank
      at its end, and the ID has a node ID's length. */
  lemma HeadExact(lines: seq<string>, h: Head, rest: seq<string>)
    requires SameLines(lines, HeadLines(h))
    ensures ParseHead(lines + rest) == Ok(h, rest) <==> HeadOk(h)
    ensures ParseHead(lines + rest).Ok? && ParseHead(lines + rest).value == h ==> HeadOk(h)
  {
    HeadShape(lines, h);
    SixAndRest(lines, rest);
    var r5 := [lines[5]] + rest;
    var r4 := [lines[4]] + r5;
    CountsExact(lines, h, rest);
    NameIDExact(lines, h, r4);
    AttrsExact(lines, h, [lines[2]] + ([lines[3]] + r4));
  }

  // ---------------------------------------------------------------- members

  function MembersLines(codec: Codec, ms: seq<ClientInfo>): seq<string> {
    if ms == [] then [] else Indent("        ", ClientLines(codec, ms[0])) + MembersLines(codec, ms[1..])
  }

  /** The base node parser hands back no more lines than it was given. */
  ghost predicate Shrinks(codec: Codec) {
    forall lines :: var r := codec.parse(lines, "clientInfo"); r.Ok? ==> |r.rest| <= |lines|
  }

  lemma ClientConsumes(codec: Codec, lines: seq<string>)
    requires Shrinks(codec) && ParseClient(codec, lines).Ok?
    ensures |ParseClient(codec, lines).rest| < |lines|
  {
    var base := codec.parse(lines, "clientInfo");
    assert |base.rest| <= |lines|;
  }

  /** The member loop, with its unguarded peek. Every round consumes at least one line. */
  function ParseMembers(codec: Codec, c: Cluster, rest: seq<string>): (r: Parsed<Cluster>)
    requires Shrinks(codec)
    ensures r.Ok? ==> c.members <= r.value.members && r.rest != [] && Trim(r.rest[0]) == "}"
    ensures r.Ok? ==> r.value.(members := c.members, byName := c.byName, byID := c.byID) == c
    decreases |rest|
  {
    if rest == [] then Panic
    else if Trim(rest[0]) == "}" then Ok(c, rest)
    else
      match ParseClient(codec, rest)
      case Err => Err
      case Panic => Panic
      case Ok(m, rest') =>
        match AddMember(c, m)
        case None => Err
        case Some(c') =>
          ClientConsumes(codec, rest);
          ParseMembers(codec, c', rest')
  }

  /** Adding a list of members one by one. */
  function AddAll(c: Cluster, ms: seq<ClientInfo>): Option<Cluster>
    decreases |ms|
  {
    if ms == [] then Some(c)
    else
      match AddMember(c, ms[0])
      case None => None
      case Some(c') => AddAll(c', ms[1..])
  }

  lemma FirstIsNoBrace(codec: Codec, m: ClientInfo, lines: seq<string>)
    requires SameLines(lines, Indent("        ", ClientLines(codec, m)))
    ensures SameLines(lines, ClientLines(codec, m)) && lines != [] && Trim(lines[0]) != "}"
  {
    IndentSame("        ", ClientLines(codec, m));
    SameTrans(lines, Indent("        ", ClientLines(codec, m)), ClientLines(codec, m));
    TrimIsTrimmed("clientInfo {");
    assert ClientLines(codec, m)[0] == "clientInfo {";
  }

  /** One member's lines, at the front of the list. */
  lemma MemberStep(codec: Codec, c: Cluster, m: ClientInfo, lines: seq<string>, rest: seq<string>)
    requires Shrinks(codec) && Lawful(codec, m.base) && SameLines(lines, Indent("        ", ClientLines(codec, m)))
    ensures var p := ParseClient(codec, lines + rest);
            ParseMembers(codec, c, lines + rest) ==
              if p.Err? then Err else if p.Panic? then Panic
              else if AddMember(c, p.value).None? then Err
              else ParseMembers(codec, AddMember(c, p.value).value, p.rest)
    ensures ParseClient(codec, lines + rest) == Ok(m, rest) <==> EndsOk(m.myEnds)
    ensures ParseClient(codec, lines + rest).Ok? && ParseClient(codec, lines + rest).value == m ==> EndsOk(m.myEnds)
  {
    FirstIsNoBrace(codec, m, lines);
    assert (lines + rest)[0] == lines[0];
    ClientRoundTrip(codec, m, lines, rest);
  }

  ghost predicate AllLawful(codec: Codec, ms: seq<ClientInfo>) {
    forall i | 0 <= i < |ms| :: Lawful(codec, ms[i].base)
  }

  predicate AllEndsOk(ms: seq<ClientInfo>) {
    forall i | 0 <= i < |ms| :: EndsOk(ms[i].myEnds)
  }

  lemma MembersCut(codec: Codec, ms: seq<ClientInfo>, lines: seq<string>, rest: seq<string>)
      returns (first: seq<string>, others: seq<string>)
    requires ms != [] && SameLines(lines, MembersLines(codec, ms))
    ensures lines + rest == first + (others + rest)
    ensures SameLines(first, Indent("        ", ClientLines(codec, ms[0]))) && SameLines(others, MembersLines(codec, ms[1..]))
  {
    var n := |ClientLines(codec, ms[0])|;
    SameSplit(lines, Indent("        ", ClientLines(codec, ms[0])), MembersLines(codec, ms[1..]));
    first, others := lines[..n], lines[n..];
  }

  lemma {:induction false} MembersForward(codec: Codec, c: Cluster, ms: seq<ClientInfo>, lines: seq<string>, rest: seq<string>)
    requires Shrinks(codec) && AllLawful(codec, ms) && AllEndsOk(ms)
    requires SameLines(lines, MembersLines(codec, ms)) && rest != [] && Trim(rest[0]) == "}" && AddAll(c, ms).Some?
    ensures ParseMembers(codec, c, lines + rest) == Ok(AddAll(c, ms).value, rest)
    decreases |ms|
  {
    if ms == [] {
      assert lines + rest == rest;
    } else {
      var first, others := MembersCut(codec, ms, lines, rest);
      MemberStep(codec, c, ms[0], first, others + rest);
      MembersForward(codec, AddMember(c, ms[0]).value, ms[1..], others, rest);
    }
  }

  lemma {:induction false} MembersBackward(codec: Codec, c: Cluster, ms: seq<ClientInfo>, lines: seq<string>, rest: seq<string>)
    requires Shrinks(codec) && AllLawful(codec, ms) && SameLines(lines, MembersLines(codec, ms))
    requires var r := ParseMembers(codec, c, lines + rest); r.Ok? && r.value.members == c.members + ms
    ensures AddAll(c, ms).Some? && AllEndsOk(ms)
    decreases |ms|
  {
    if ms != [] {
      var first, others := MembersCut(codec, ms, lines, rest);
      var c' := FirstBackward(codec, c, ms, first, others + rest);
      MembersBackward(codec, c', ms[1..], others, rest);
    }
  }

  /** The first member came back as it was, and was accepted. */
  lemma FirstBackward(codec: Codec, c: Cluster, ms: seq<ClientInfo>, first: seq<string>, rest: seq<string>)
      returns (c': Cluster)
    requires Shrinks(codec) && ms != [] && Lawful(codec, ms[0].base)
    requires SameLines(first, Indent("        ", ClientLines(codec, ms[0])))
    requires var r := ParseMembers(codec, c, first + rest); r.Ok? && r.value.members == c.members + ms
    ensures AddMember(c, ms[0]) == Some(c') && EndsOk(ms[0].myEnds) && c'.members + ms[1..] == c.members + ms
    ensures ParseMembers(codec, c', rest) == ParseMembers(codec, c, first + rest)
  {
    MemberStep(codec, c, ms[0], first, rest);
    var p := ParseClient(codec, first + rest);
    AddedIsNext(codec, c, p.value, p.rest, ParseMembers(codec, c, first + rest));
    assert p.value == ms[0] by {
      assert (c.members + ms)[|c.members|] == ms[0];
    }
    c' := AddMember(c, ms[0]).value;
    Shift(c.members, ms);
  }

  lemma Shift(a: seq<ClientInfo>, ms: seq<ClientInfo>)
    requires ms != []
    ensures a + [ms[0]] + ms[1..] == a + ms
  {
  }

  lemma AddedIsNext(codec: Codec, c: Cluster, m: ClientInfo, rest: seq<string>, r: Parsed<Cluster>)
    requires Shrinks(codec) && AddMember(c, m).Some? && r == ParseMembers(codec, AddMember(c, m).value, rest) && r.Ok?
    ensures |r.value.members| > |c.members| && r.value.members[|c.members|] == m
  {
    assert (c.members + [m])[|c.members|] == m;
  }

  // ---------------------------------------------------------------- which members can be added

  /** Names are new and distinct, and no member but the last carries the cluster's own ID,
      which is the ID that AddMember looks up. */
  ghost predicate Addable(c: Cluster, ms: seq<ClientInfo>) {
    && (forall i | 0 <= i < |ms| :: ms[i].base.name !in c.byName)
    && NamesDistinct(ms)
    && (ms != [] ==> c.id !in c.byID)
    && forall i | 0 <= i < |ms| - 1 :: ms[i].base.id != c.id
  }

  lemma {:induction false} AddAllExact(c: Cluster, ms: seq<ClientInfo>)
    ensures AddAll(c, ms).Some? <==> Addable(c, ms)
    ensures AddAll(c, ms).Some? ==> AddAll(c, ms).value.members == c.members + ms
    ensures AddAll(c, ms).Some? ==>
              AddAll(c, ms).value.(members := c.members, byName := c.byName, byID := c.byID) == c
    decreases |ms|
  {
    if ms != [] && AddMember(c, ms[0]).Some? {
      var c' := AddMember(c, ms[0]).value;
      AddAllExact(c', ms[1..]);
      AddableStep(c, ms);
      Shift(c.members, ms);
    }
  }

  lemma AddableStep(c: Cluster, ms: seq<ClientInfo>)
    requires ms != [] && AddMember(c, ms[0]).Some?
    ensures Addable(c, ms) <==> Addable(AddMember(c, ms[0]).value, ms[1..])
  {
    var c', more := AddMember(c, ms[0]).value, ms[1..];
    if Addable(c', more) {
      forall i, j | 0 <= i < j < |ms| ensures ms[i].base.name != ms[j].base.name {
        assert ms[j] == more[j - 1] && (i > 0 ==> ms[i] == more[i - 1]);
      }
      forall i | 0 <= i < |ms| - 1 ensures ms[i].base.id != c.id {
        assert i > 0 ==> ms[i] == more[i - 1];
      }
      forall i | 0 <= i < |ms| ensures ms[i].base.name !in c.byName {
        assert i > 0 ==> ms[i] == more[i - 1];
      }
    }
  }

  // ---------------------------------------------------------------- the whole cluster

  function ClusterLines(codec: Codec, c: Cluster): seq<string> {
    HeadLines(HeadOf(c)) + TailLines(MembersLines(codec, c.members))
  }

  function TailLines(members: seq<string>): seq<string> {
    ["    Members {"] + (members + (["    }"] + ["}"]))
  }

  /** RegCluster.Equal. */
  predicate SameText(a: Cluster, b: Cluster) {
    HeadOf(a) == HeadOf(b) && a.members == b.members
  }

  /** ParseRegClusterFromStrings. */
  function ParseCluster(codec: Codec, lines: seq<string>): Parsed<Cluster>
    requires Shrinks(codec)
  {
    match ParseHead(lines)
    case Panic => Panic
    case Err => Err
    case Ok(h, rest) =>
      match NewRegCluster(h.name, h.id, h.attrs, h.maxSize, h.epCount)
      case None => Err
      case Some(c) => ParseTail(codec, c, rest)
  }

  /** The member list and the two closing braces. */
  function ParseTail(codec: Codec, c: Cluster, lines: seq<string>): Parsed<Cluster>
    requires Shrinks(codec)
  {
    var open := Field(lines, l => TextField(l, "Members {"));
    if !open.Ok? then Err
    else
      match ParseMembers(codec, c, open.rest)
      case Panic => Panic
      case Err => Err
      case Ok(c', rest) =>
        var close := Field(rest[1..], l => TextField(l, "}"));
        if close.Ok? then Ok(c', close.rest) else Err
  }

  /** What a cluster must satisfy for its text to give it back. */
  ghost predicate Printable(c: Cluster) {
    && HeadOk(HeadOf(c))
    && (c.epCount >= 1 ==> c.maxSize >= 1)
    && NamesDistinct(c.members)
    && (forall i | 0 <= i < |c.members| - 1 :: c.members[i].base.id != c.id)
    && AllEndsOk(c.members)
  }

  lemma OpenLine()
    ensures Trim("    Members {") == "Members {"
  {
    TrimField("    ", "Members {");
    assert "    " + "Members {" == "    Members {";
  }

  /** The shape of the tail at any indentation. */
  lemma TailShape(ml: seq<string>, lines: seq<string>)
      returns (open: string, members: seq<string>, close: string, last: string)
    requires SameLines(lines, TailLines(ml))
    ensures lines == [open] + (members + ([close] + [last]))
    ensures Trim(open) == "Members {" && SameLines(members, ml) && Trim(close) == "}" && Trim(last) == "}"
  {
    SameBlock(lines, "    Members {", ml, "    }", "}");
    open, members := lines[0], lines[1..|ml| + 1];
    close, last := lines[|ml| + 1], lines[|ml| + 2];
    OpenLine();
    FixedLines();
  }

  /** The tail's own lines, around whatever the members' lines parse to. */
  lemma TailOpens(codec: Codec, c: Cluster, open: string, members: seq<string>, close: string, last: string, tail: seq<string>)
    requires Shrinks(codec) && Trim(open) == "Members {" && Trim(last) == "}"
    ensures var rest := [close] + ([last] + tail);
            var r, t := ParseMembers(codec, c, members + rest), ParseTail(codec, c, [open] + (members + rest));
            && (t.Ok? ==> r.Ok? && r.value == t.value)
            && (r.Ok? && r.rest == rest ==> t == Ok(r.value, tail))
  {
    var rest := [close] + ([last] + tail);
    FieldIs(open, members + rest, l => TextField(l, "Members {"));
    assert rest[1..] == [last] + tail;
    FieldIs(last, tail, l => TextField(l, "}"));
  }

  lemma TailExact(codec: Codec, c: Cluster, ms: seq<ClientInfo>, lines: seq<string>, tail: seq<string>)
    requires Shrinks(codec) && AllLawful(codec, ms) && SameLines(lines, TailLines(MembersLines(codec, ms)))
    ensures var r := ParseTail(codec, c, lines + tail);
            && (AddAll(c, ms).Some? && AllEndsOk(ms) ==> r == Ok(AddAll(c, ms).value, tail))
            && (r.Ok? && r.value.members == c.members + ms ==> AddAll(c, ms).Some? && AllEndsOk(ms))
  {
    var open, members, close, last := TailShape(MembersLines(codec, ms), lines);
    var rest := [close] + ([last] + tail);
    assert lines + tail == [open] + (members + rest);
    TailOpens(codec, c, open, members, close, last, tail);
    if AddAll(c, ms).Some? && AllEndsOk(ms) {
      MembersForward(codec, c, ms, members, rest);
    }
    var r := ParseMembers(codec, c, members + rest);
    if r.Ok? && r.value.members == c.members + ms {
      MembersBackward(codec, c, ms, members, rest);
    }
  }

  /** Printing then parsing a cluster, followed by any tail, gives an Equal cluster and that
      tail exactly when: attrs are below 2^63, the name does not end blank, the ID has a node
      ID's length, a size of zero comes only with no endpoints, member names are distinct, no
      member but the last has the cluster's ID, and every member's endpoints are returnable. */
  lemma ClusterRoundTrip(codec: Codec, c: Cluster, tail: seq<string>)
    requires Shrinks(codec) && AllLawful(codec, c.members)
    ensures var r := ParseCluster(codec, ClusterLines(codec, c) + tail);
            r.Ok? && r.rest == tail && SameText(r.value, c) <==> Printable(c)
  {
    var lines := ClusterLines(codec, c) + tail;
    var h, tl := HeadOf(c), TailLines(MembersLines(codec, c.members));
    assert lines == HeadLines(h) + (tl + tail);
    HeadExact(HeadLines(h), h, tl + tail);
    CameBack(codec, lines, c);
    if HeadOk(h) && (h.epCount >= 1 ==> h.maxSize >= 1) {
      var made := NewRegCluster(h.name, h.id, h.attrs, h.maxSize, h.epCount).value;
      MadeExact(codec, c, made, tl, tail);
    }
  }

  /** Given the fixed fields, the members decide. */
  lemma MadeExact(codec: Codec, c: Cluster, made: Cluster, tl: seq<string>, tail: seq<string>)
    requires Shrinks(codec) && AllLawful(codec, c.members) && tl == TailLines(MembersLines(codec, c.members))
    requires HeadOf(made) == HeadOf(c) && made.members == [] && made.byName == map[] && made.byID == map[]
    ensures var r := ParseTail(codec, made, tl + tail);
            r.Ok? && r.rest == tail && SameText(r.value, c) <==>
              && NamesDistinct(c.members) && AllEndsOk(c.members)
              && forall i | 0 <= i < |c.members| - 1 :: c.members[i].base.id != c.id
  {
    TailExact(codec, made, c.members, tl, tail);
    AllAdded(made, c.members);
  }

  /** Into an empty cluster, a list of members goes exactly when names differ and the
      cluster's ID comes last if at all; nothing else changes. */
  lemma AllAdded(made: Cluster, ms: seq<ClientInfo>)
    requires made.members == [] && made.byName == map[] && made.byID == map[]
    ensures made.members + ms == ms
    ensures AddAll(made, ms).Some? <==>
              NamesDistinct(ms) && forall i | 0 <= i < |ms| - 1 :: ms[i].base.id != made.id
    ensures AddAll(made, ms).Some? ==>
              AddAll(made, ms).value.members == ms && HeadOf(AddAll(made, ms).value) == HeadOf(made)
  {
    AddAllExact(made, ms);
    AddableToNew(made, ms);
  }

  lemma AddableToNew(made: Cluster, ms: seq<ClientInfo>)
    requires made.byName == map[] && made.byID == map[]
    ensures Addable(made, ms) <==> NamesDistinct(ms) && forall i | 0 <= i < |ms| - 1 :: ms[i].base.id != made.id
  {
  }

  /** A parse result carries the head it was parsed from: no parsed name is empty, so the
      default name never stands in for one. */
  lemma CameBack(codec: Codec, lines: seq<string>, c: Cluster)
    requires Shrinks(codec)
    ensures var r := ParseCluster(codec, lines);
            r.Ok? && SameText(r.value, c) ==> ParseHead(lines).Ok? && ParseHead(lines).value == HeadOf(c)
  {
    if ParseHead(lines).Ok? {
      ParsedNameNotEmpty(lines);
    }
  }

  lemma ParsedNameNotEmpty(lines: seq<string>)
    requires ParseHead(lines).Ok?
    ensures ParseHead(lines).value.name != ""
  {
    var l0 := Field(lines, l => TextField(l, "regCluster {"));
    var l1 := Field(l0.rest, AttrsField);
    NextIsTrimmed(l1.rest);
    var line := NextLine(l1.rest).value.0;
    assert line == line[..6] + line[6..];
    assert line[5] == ' ';
  }

  // ---------------------------------------------------------------- the loops

  lemma {:induction false} MembersSnoc(codec: Codec, ms: seq<ClientInfo>, i: nat)
    requires i < |ms|
    ensures MembersLines(codec, ms[..i + 1]) == MembersLines(codec, ms[..i]) + Indent("        ", ClientLines(codec, ms[i]))
    decreases i
  {
    if i == 0 {
      assert ms[..1] == [ms[0]] && ms[..0] == [] && [ms[0]][1..] == [];
    } else {
      MembersSnoc(codec, ms[1..], i - 1);
      assert ms[..i + 1][1..] == ms[1..][..i] && ms[..i][1..] == ms[1..][..i - 1];
      var first, last := Indent("        ", ClientLines(codec, ms[0])), Indent("        ", ClientLines(codec, ms[i]));
      var middle := MembersLines(codec, ms[1..][..i - 1]);
      assert first + (middle + last) == (first + middle) + last;
    }
  }

  /** RegCluster.Strings. */
  method ClusterStrings(codec: Codec, c: Cluster) returns (ss: seq<string>)
    ensures ss == ClusterLines(codec, c)
  {
    ss := ["regCluster {"];
    ss := ss + ["    Attrs: 0x" + Hex(c.attrs, 16)];
    ss := ss + ["    Name: " + c.name];
    ss := ss + ["    ID: " + EncodeHex(c.id)];
    ss := ss + ["    epCount: " + Dec(c.epCount)];
    ss := ss + ["    maxSize: " + Dec(c.maxSize)];
    assert ss == HeadLines(HeadOf(c));
    ss := ss + ["    Members {"];
    var members := MemberStrings(codec, c.members);
    ss := ss + members;
    ss := ss + ["    }"];
    ss := ss + ["}"];
  }

  method MemberStrings(codec: Codec, ms: seq<ClientInfo>) returns (ss: seq<string>)
    ensures ss == MembersLines(codec, ms)
  {
    ss := [];
    for i := 0 to |ms|
      invariant ss == MembersLines(codec, ms[..i])
    {
      var mem := ClientStrings(codec, ms[i]);
      ss := AppendIndented(ss, mem);
      MembersSnoc(codec, ms, i);
    }
    assert ms[..|ms|] == ms;
  }

  method AppendIndented(ss0: seq<string>, mem: seq<string>) returns (ss: seq<string>)
    ensures ss == ss0 + Indent("        ", mem)
  {
    ss := ss0;
    for j := 0 to |mem|
      invariant ss == ss0 + Indent("        ", mem)[..j]
    {
      ss := ss + ["        " + mem[j]];
    }
  }

  /** The member loop of ParseRegClusterFromStrings. */
  method MembersLoop(codec: Codec, c0: Cluster, lines: seq<string>) returns (r: Parsed<Cluster>)
    requires Shrinks(codec)
    ensures r == ParseMembers(codec, c0, lines)
  {
    var c, rest := c0, lines;
    while rest != [] && Trim(rest[0]) != "}"
      invariant ParseMembers(codec, c, rest) == ParseMembers(codec, c0, lines)
      decreases |rest|
    {
      var p := ParseClientInfo(codec, rest);
      if !p.Ok? {
        return if p.Err? then Err else Panic;
      }
      ClientConsumes(codec, rest);
      var added := AddMember(c, p.value);
      if added.None? {
        return Err;
      }
      c, rest := added.value, p.rest;
    }
    r := if rest == [] then Panic else Ok(c, rest);
  }

  method ParseRegCluster(codec: Codec, lines: seq<string>) returns (r: Parsed<Cluster>)
    requires Shrinks(codec)
    ensures r == ParseCluster(codec, lines)
  {
    var head := ParseHead(lines);
    if !head.Ok? {
      return if head.Err? then Err else Panic;
    }
    var h := head.value;
    var made := NewRegCluster(h.name, h.id, h.attrs, h.maxSize, h.epCount);
    if made.None? {
      return Err;
    }
    var open := Field(head.rest, l => TextField(l, "Members {"));
    if !open.Ok? {
      return Err;
    }
    var members := MembersLoop(codec, made.value, open.rest);
    if !members.Ok? {
      return members;
    }
    NextBrace(members.rest);
    var close := Field(members.rest[1..], l => TextField(l, "}"));
    r := if close.Ok? then Ok(members.value, close.rest) else Err;
  }

  /** RegCluster.Equal compares the fields and then the members one by one. */
  method ClusterEqual(a: Cluster, b: Cluster) returns (eq: bool)
    ensures eq <==> SameText(a, b)
  {
    if HeadOf(a) != HeadOf(b) || |a.members| != |b.members| {
      return false;
    }
    for i := 0 to |a.members|
      invariant a.members[..i] == b.members[..i]
    {
      var same := ClientEqual(a.members[i], b.members[i]);
      if !same {
        return false;
      }
    }
    assert a.members[..|a.members|] == a.members && b.members[..|b.members|] == b.members;
    return true;
  }

  // ---------------------------------------------------------------- whole texts

  /** No member's endpoints hold a newline. */
  predicate AllSingle(ms: seq<ClientInfo>) {
    forall i | 0 <= i < |ms| :: Single(EndsOf(ms[i].myEnds))
  }

  /** Nor do the lines of the embedded nodes. */
  ghost predicate AllShown(codec: Codec, ms: seq<ClientInfo>) {
    forall i | 0 <= i < |ms| :: Single(codec.show(ms[i].base))
  }

  lemma FieldSingle<T>(lines: seq<string>, f: string -> Option<T>)
    requires Single(lines) && Field(lines, f).Ok?
    ensures Single(Field(lines, f).rest)
  {
    NextIsSingle(lines);
  }

  lemma HeadNameSingle(lines: seq<string>)
    requires Single(lines) && ParseHead(lines).Ok?
    ensures '\n' !in ParseHead(lines).value.name && Single(ParseHead(lines).rest)
  {
    var l0 := Field(lines, l => TextField(l, "regCluster {"));
    FieldSingle(lines, l => TextField(l, "regCluster {"));
    var l1 := Field(l0.rest, AttrsField);
    FieldSingle(l0.rest, AttrsField);
    NextIsSingle(l1.rest);
    var l2 := Field(l1.rest, NameField);
    var line := NextLine(l1.rest).value.0;
    assert forall i | 0 <= i < |l2.value| :: l2.value[i] == line[6 + i];
    CountsSingle(l2.rest);
  }

  lemma CountsSingle(lines: seq<string>)
    requires Single(lines)
    ensures var l3 := Field(lines, IDField);
            l3.Ok? ==>
              var l4 := Field(l3.rest, l => CountField(l, "epCount: "));
              l4.Ok? ==>
                var l5 := Field(l4.rest, l => CountField(l, "maxSize: "));
                l5.Ok? ==> Single(l5.rest)
  {
    var l3 := Field(lines, IDField);
    if l3.Ok? {
      FieldSingle(lines, IDField);
      var l4 := Field(l3.rest, l => CountField(l, "epCount: "));
      if l4.Ok? {
        FieldSingle(l3.rest, l => CountField(l, "epCount: "));
        if Field(l4.rest, l => CountField(l, "maxSize: ")).Ok? {
          FieldSingle(l4.rest, l => CountField(l, "maxSize: "));
        }
      }
    }
  }

  lemma {:induction false} MembersAreSingle(codec: Codec, c: Cluster, rest: seq<string>)
    requires Shrinks(codec) && Tails(codec) && Single(rest) && AllSingle(c.members) && ParseMembers(codec, c, rest).Ok?
    ensures AllSingle(ParseMembers(codec, c, rest).value.members)
    decreases |rest|
  {
    if Trim(rest[0]) != "}" {
      ParsedIsSingle(codec, rest);
      ClientConsumes(codec, rest);
      var r := ParseClient(codec, rest);
      MembersAreSingle(codec, AddMember(c, r.value).value, r.rest);
    }
  }

  /** No parsed name and no parsed endpoint holds a newline. */
  lemma ClusterParsedSingle(codec: Codec, lines: seq<string>)
    requires Shrinks(codec) && Tails(codec) && Single(lines) && ParseCluster(codec, lines).Ok?
    ensures '\n' !in ParseCluster(codec, lines).value.name && AllSingle(ParseCluster(codec, lines).value.members)
  {
    HeadNameSingle(lines);
    var head := ParseHead(lines);
    ParsedNameNotEmpty(lines);
    FieldSingle(head.rest, l => TextField(l, "Members {"));
    var made := NewRegCluster(head.value.name, head.value.id, head.value.attrs, head.value.maxSize, head.value.epCount).value;
    MembersAreSingle(codec, made, Field(head.rest, l => TextField(l, "Members {")).rest);
  }

  lemma {:induction false} MembersLinesSingle(codec: Codec, ms: seq<ClientInfo>)
    requires AllSingle(ms) && AllShown(codec, ms)
    ensures Single(MembersLines(codec, ms))
  {
    if ms != [] {
      ClientIsSingle(codec, ms[0]);
      SingleIndent("        ", ClientLines(codec, ms[0]));
      MembersLinesSingle(codec, ms[1..]);
      SingleConcat(Indent("        ", ClientLines(codec, ms[0])), MembersLines(codec, ms[1..]));
    }
  }

  lemma HeadSingle(h: Head)
    requires '\n' !in h.name
    ensures Single(HeadLines(h))
  {
    HexIsBytes(h.attrs, 8);
    HexHasNo(BigEndian(h.attrs, 8), '\n');
    HexHasNo(h.id, '\n');
    DecIsDecimal(h.epCount);
    DecIsDecimal(h.maxSize);
    PadKeepsOut("    Attrs: 0x", Hex(h.attrs, 16), '\n');
    PadKeepsOut("    Name: ", h.name, '\n');
    PadKeepsOut("    ID: ", EncodeHex(h.id), '\n');
    PadKeepsOut("    epCount: ", Dec(h.epCount), '\n');
    PadKeepsOut("    maxSize: ", Dec(h.maxSize), '\n');
    SixSingle("regCluster {", "    Attrs: 0x" + Hex(h.attrs, 16), "    Name: " + h.name,
              "    ID: " + EncodeHex(h.id), "    epCount: " + Dec(h.epCount), "    maxSize: " + Dec(h.maxSize));
  }

  lemma SixSingle(a: string, b: string, c: string, d: string, e: string, f: string)
    requires '\n' !in a && '\n' !in b && '\n' !in c && '\n' !in d && '\n' !in e && '\n' !in f
    ensures Single([a] + ([b] + ([c] + ([d] + ([e] + [f])))))
  {
  }

  lemma ClusterIsSingle(codec: Codec, c: Cluster)
    requires '\n' !in c.name && AllSingle(c.members) && AllShown(codec, c.members)
    ensures Single(ClusterLines(codec, c))
  {
    var ml := MembersLines(codec, c.members);
    HeadSingle(HeadOf(c));
    MembersLinesSingle(codec, c.members);
    SingleConcat(ml, ["    }"] + ["}"]);
    SingleConcat(["    Members {"], ml + (["    }"] + ["}"]));
    SingleConcat(HeadLines(HeadOf(c)), TailLines(ml));
  }

  /** The same for whole texts: exactly when, besides, neither the name nor any member's
      endpoint holds a newline. */
  lemma ClusterTextRoundTrip(codec: Codec, c: Cluster)
    requires Shrinks(codec) && Tails(codec) && AllLawful(codec, c.members) && AllShown(codec, c.members)
    ensures var r := ParseCluster(codec, SplitLines(Join(ClusterLines(codec, c), "\n")));
            r.Ok? && r.rest == [] && SameText(r.value, c) <==> Printable(c) && '\n' !in c.name && AllSingle(c.members)
  {
    var lines := ClusterLines(codec, c);
    var text := SplitLines(Join(lines, "\n"));
    if '\n' !in c.name && AllSingle(c.members) {
      ClusterIsSingle(codec, c);
      SplitJoin(lines);
      ClusterRoundTrip(codec, c, []);
      assert lines + [] == lines;
    }
    var r := ParseCluster(codec, text);
    if r.Ok? && SameText(r.value, c) {
      ClusterParsedSingle(codec, text);
    }
  }
}
