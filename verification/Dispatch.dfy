/** The session state machine: op2tag, the dispatch table, and the language of message
    sequences a session can complete. */
module Dispatch {
  import opened Types

  const HELLO_RCVD := 0
  const CLIENT_DETAILS_RCVD := 1
  const CREATE_REQUEST_RCVD := 2
  const JOIN_RCVD := 3
  const BYE_RCVD := 4
  const IN_CLOSED := 5

  datatype Handler = DoClient | DoCreate | DoJoin | DoGet | DoBye | BadCombo

  const TABLE: seq<seq<Handler>> := [
    [DoClient, BadCombo, BadCombo, BadCombo, DoBye],
    [BadCombo, DoCreate, DoJoin, BadCombo, DoBye],
    [BadCombo, BadCombo, DoJoin, BadCombo, DoBye],
    [BadCombo, BadCombo, BadCombo, DoGet, DoBye]]

  /** A message op is a 32-bit enumeration value, and so is a difference of ops. */
  function Wrap32(x: int): int32 {
    (x + 0x8000_0000) % 0x1_0000_0000 - 0x8000_0000
  }

  /** Go's integer division rounds toward zero. */
  function Quo2(x: int): int {
    if x >= 0 then x / 2 else -((-x) / 2)
  }

  function Op2Tag(op: int32): int {
    Quo2(Wrap32(op - OP_MEMBER))
  }

  /** The unguarded table access of Start is in range. */
  predicate InTable(state: int, tag: int) {
    0 <= state < |TABLE| && 0 <= tag < |TABLE[state]|
  }

  /** The access is in range exactly for ops 2..12 in the four tabled states. Ops 2, 3
      and 4 all reach the first column, since the quotient of -1 by 2 is 0. */
  lemma TableAccess(state: int, op: int32)
    ensures InTable(state, Op2Tag(op)) <==> 0 <= state <= 3 && 2 <= op <= 12
    ensures 2 <= op <= 12 ==> Op2Tag(op) == if op == 2 then 0 else (op - 3) / 2
  {
  }

  /** The state in which a handler leaves the session when it succeeds. */
  function ExitState(h: Handler): int {
    match h
    case DoClient => CLIENT_DETAILS_RCVD
    case DoCreate => CREATE_REQUEST_RCVD
    case DoJoin => JOIN_RCVD
    case DoGet => JOIN_RCVD
    case DoBye => BYE_RCVD
    case BadCombo => IN_CLOSED
  }

  const MEMBER := 0
  const CREATE := 1
  const JOIN := 2
  const GET := 3
  const BYE := 4

  /** One message through the table; None when the table refuses it. */
  function Admit(state: int, tag: int): Option<int> {
    if InTable(state, tag) && TABLE[state][tag] != BadCombo
    then Some(ExitState(TABLE[state][tag])) else None
  }

  /** The states and messages that reach each handler, read off the table. */
  predicate Reaches(state: int, tag: int, h: Handler) {
    match h
    case DoClient => state == HELLO_RCVD && tag == MEMBER
    case DoCreate => state == CLIENT_DETAILS_RCVD && tag == CREATE
    case DoJoin => (state == CLIENT_DETAILS_RCVD || state == CREATE_REQUEST_RCVD) && tag == JOIN
    case DoGet => state == JOIN_RCVD && tag == GET
    case DoBye => HELLO_RCVD <= state <= JOIN_RCVD && tag == BYE
    case BadCombo => HELLO_RCVD <= state <= JOIN_RCVD
  }

  lemma TableReaches(state: int, tag: int)
    requires InTable(state, tag)
    ensures Reaches(state, tag, TABLE[state][tag])
    ensures TABLE[state][tag] != BadCombo ==> Admit(state, tag) == Some(ExitState(TABLE[state][tag]))
  {
  }

  lemma ReachesAdmits(state: int, tag: int, h: Handler)
    requires Reaches(state, tag, h) && h != BadCombo
    ensures Admit(state, tag) == Some(ExitState(h))
  {
  }

  /** A whole sequence of successful messages, from the state after Hello. */
  function StateAfter(tags: seq<int>): Option<int> {
    if tags == [] then Some(HELLO_RCVD)
    else match StateAfter(tags[..|tags| - 1])
         case None => None
         case Some(s) => Admit(s, tags[|tags| - 1])
  }

  // ---------------------------------------------------------------- the language

  function Gets(n: nat): seq<int> {
    if n == 0 then [] else Gets(n - 1) + [GET]
  }

  /** The prefixes of (Member Create? (Join Get*)?)? Bye: each part is there or not. */
  function Word(member: bool, create: bool, join: bool, gets: nat, bye: bool): seq<int> {
    (if member then [MEMBER] else []) + (if create then [CREATE] else []) +
    (if join then [JOIN] else []) + Gets(gets) + (if bye then [BYE] else [])
  }

  predicate Nested(member: bool, create: bool, join: bool, gets: nat) {
    (create ==> member) && (join ==> member) && (gets > 0 ==> join)
  }

  ghost predicate InLanguage(tags: seq<int>) {
    exists m, c, j, b, n: nat :: Nested(m, c, j, n) && tags == Word(m, c, j, n, b)
  }

  lemma {:induction false} GetsStay(base: seq<int>, n: nat)
    requires StateAfter(base) == Some(JOIN_RCVD)
    ensures StateAfter(base + Gets(n)) == Some(JOIN_RCVD)
  {
    if n == 0 {
      assert base + Gets(0) == base;
    } else {
      var most := base + Gets(n - 1);
      GetsStay(base, n - 1);
      assert base + Gets(n) == most + [GET];
      SnocReaches(most, GET, JOIN_RCVD, DoGet);
    }
  }

  lemma Snoc(tags: seq<int>, tag: int)
    ensures StateAfter(tags + [tag]) ==
            match StateAfter(tags) { case None => None case Some(s) => Admit(s, tag) }
  {
    assert (tags + [tag])[..|tags|] == tags;
  }

  lemma SnocReaches(tags: seq<int>, tag: int, state: int, h: Handler)
    requires StateAfter(tags) == Some(state) && Reaches(state, tag, h) && h != BadCombo
    ensures StateAfter(tags + [tag]) == Some(ExitState(h))
  {
    Snoc(tags, tag);
    ReachesAdmits(state, tag, h);
  }

  /** Where a word without its Bye leaves the session. */
  lemma WordState(m: bool, c: bool, j: bool, n: nat)
    requires Nested(m, c, j, n)
    ensures StateAfter(Word(m, c, j, n, false)) ==
            Some(if j then JOIN_RCVD else if c then CREATE_REQUEST_RCVD
                 else if m then CLIENT_DETAILS_RCVD else HELLO_RCVD)
  {
    var base := (if m then [MEMBER] else []) + (if c then [CREATE] else []) + (if j then [JOIN] else []);
    Snoc([], MEMBER);
    Snoc([MEMBER], CREATE);
    Snoc([MEMBER], JOIN);
    Snoc([MEMBER, CREATE], JOIN);
    assert [] + [MEMBER] == [MEMBER] && [MEMBER] + [CREATE] == [MEMBER, CREATE];
    assert [MEMBER] + [JOIN] == [MEMBER, JOIN] && [MEMBER, CREATE] + [JOIN] == [MEMBER, CREATE, JOIN];
    if j {
      GetsStay(base, n);
      assert Word(m, c, j, n, false) == base + Gets(n);
    } else {
      assert Word(m, c, j, n, false) == base;
    }
  }

  /** Every word of the language is admitted, message by message. */
  lemma LanguageAdmitted(m: bool, c: bool, j: bool, n: nat, b: bool)
    requires Nested(m, c, j, n)
    ensures StateAfter(Word(m, c, j, n, b)).Some?
    ensures b ==> StateAfter(Word(m, c, j, n, b)) == Some(BYE_RCVD)
  {
    WordState(m, c, j, n);
    if b {
      Snoc(Word(m, c, j, n, false), BYE);
      assert Word(m, c, j, n, true) == Word(m, c, j, n, false) + [BYE];
    }
  }

  /** The table admits exactly the prefixes of (Member Create? (Join Get*)?)? Bye. */
  lemma AdmittedIffInLanguage(tags: seq<int>)
    ensures StateAfter(tags).Some? <==> InLanguage(tags)
  {
    if InLanguage(tags) {
      var m, c, j, b, n: nat :| Nested(m, c, j, n) && tags == Word(m, c, j, n, b);
      LanguageAdmitted(m, c, j, n, b);
    }
    if StateAfter(tags).Some? {
      var m, c, j, n, b := AdmittedIsWord(tags);
    }
  }

  /** Reads an admitted sequence as a word of the language. */
  lemma {:induction false} AdmittedIsWord(tags: seq<int>) returns (m: bool, c: bool, j: bool, n: nat, b: bool)
    requires StateAfter(tags).Some?
    ensures Nested(m, c, j, n) && tags == Word(m, c, j, n, b)
  {
    if tags == [] {
      m, c, j, n, b := false, false, false, 0, false;
    } else {
      var init, tag := tags[..|tags| - 1], tags[|tags| - 1];
      assert tags == init + [tag];
      LastAdmits(init, tag);
      m, c, j, n, b := AdmittedIsWord(init);
      if b {
        LanguageAdmitted(m, c, j, n, b);
        assert false;
      } else {
        m, c, j, n, b := WordSnoc(m, c, j, n, tag);
      }
    }
  }

  lemma LastAdmits(tags: seq<int>, tag: int)
    requires StateAfter(tags + [tag]).Some?
    ensures var s := StateAfter(tags); s.Some? && s != Some(BYE_RCVD) && Admit(s.value, tag).Some?
  {
    Snoc(tags, tag);
  }

  /** A word without its Bye, extended by any message its state admits, is a word. */
  lemma WordSnoc(m: bool, c: bool, j: bool, n: nat, tag: int) returns (m': bool, c': bool, j': bool, n': nat, b: bool)
    requires Nested(m, c, j, n)
    requires StateAfter(Word(m, c, j, n, false)).Some?
    requires Admit(StateAfter(Word(m, c, j, n, false)).value, tag).Some?
    ensures Nested(m', c', j', n') && Word(m, c, j, n, false) + [tag] == Word(m', c', j', n', b)
  {
    WordState(m, c, j, n);
    m', c', j', n', b := m, c, j, n, false;
    if tag == BYE {
      b := true;
    } else if tag == MEMBER {
      m' := true;
    } else if tag == CREATE {
      c' := true;
    } else if tag == JOIN {
      j' := true;
    } else {
      n' := n + 1;
    }
  }
}
