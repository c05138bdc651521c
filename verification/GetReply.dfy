/** The bit mask and packed token list of a Get reply: the server's packing loop, the
    client's unpacking loop, and the proof that they undo each other. */
module GetReply {
  import opened Types

  /** The low n bits. */
  function LowNMap(n: nat): (m: Mask)
    ensures forall i: nat :: i in m <==> i < n && i < 64
  {
    if n == 0 then {} else LowNMap(n - 1) + if n <= 64 then {n - 1} else {}
  }

  /** How many bits of `which` lie below `i`. */
  function Rank(which: set<nat>, i: nat): (r: nat)
    ensures r <= i
  {
    if i == 0 then 0 else Rank(which, i - 1) + if i - 1 in which then 1 else 0
  }

  lemma {:induction false} RankBelow(which: set<nat>, i: nat, j: nat)
    requires i in which && i < j
    ensures Rank(which, i) < Rank(which, j)
  {
    if i + 1 < j {
      RankBelow(which, i, j - 1);
    }
  }

  lemma {:induction false} RankAgrees(a: set<nat>, b: set<nat>, i: nat)
    requires forall j: nat | j < i :: j in a <==> j in b
    ensures Rank(a, i) == Rank(b, i)
  {
    if i > 0 {
      RankAgrees(a, b, i - 1);
    }
  }

  lemma {:induction false} RankFlat(which: set<nat>, i: nat, j: nat)
    requires i <= j && forall k: nat | i <= k < j :: k !in which
    ensures Rank(which, i) == Rank(which, j)
  {
    if i < j {
      RankFlat(which, i, j - 1);
    }
  }

  /** Token k belongs to the k-th lowest set bit, for every k. */
  ghost predicate Aligned(env: Env, members: seq<ClientInfo>, which: Mask, tokens: seq<Token>) {
    && |tokens| == Rank(which, 64)
    && forall i: nat | i in which ::
         && i < |members|
         && Rank(which, i) < |tokens|
         && TokenOf(env, members[i]) == Some(tokens[Rank(which, i)])
  }

  // ---------------------------------------------------------------- server side

  /** Where the token loop ends: at the first wanted member without a token, or at `size`. */
  function Stop(env: Env, members: seq<ClientInfo>, want: Mask, i: nat, size: nat): (s: nat)
    requires i <= size <= |members|
    ensures i <= s <= size
    ensures forall j | i <= j < s && j in want :: TokenOf(env, members[j]).Some?
    ensures s < size ==> s in want && TokenOf(env, members[s]).None?
    decreases size - i
  {
    if i == size then size
    else if i in want && TokenOf(env, members[i]).None? then i
    else Stop(env, members, want, i + 1, size)
  }

  function TokensBelow(env: Env, members: seq<ClientInfo>, want: Mask, n: nat): (ts: seq<Token>)
    requires n <= |members|
    requires forall j | 0 <= j < n && j in want :: TokenOf(env, members[j]).Some?
    ensures |ts| == Rank(want, n)
  {
    if n == 0 then []
    else TokensBelow(env, members, want, n - 1) +
         if n - 1 in want then [TokenOf(env, members[n - 1]).value] else []
  }

  /** The mask and the tokens doGetMsg answers with. */
  function Pack(env: Env, members: seq<ClientInfo>, requested: Mask, size: nat): (r: (Mask, seq<Token>))
    requires size <= |members| && size <= 64
  {
    var want: Mask := requested * LowNMap(size);
    var stop := Stop(env, members, want, 0, size);
    ((set i | i in want && i < stop), TokensBelow(env, members, want, stop))
  }

  lemma {:induction false} TokensBelowAt(env: Env, members: seq<ClientInfo>, want: Mask, n: nat, i: nat)
    requires n <= |members| && i < n && i in want
    requires forall j | 0 <= j < n && j in want :: TokenOf(env, members[j]).Some?
    ensures Rank(want, i) < Rank(want, n)
    ensures TokensBelow(env, members, want, n)[Rank(want, i)] == TokenOf(env, members[i]).value
  {
    RankBelow(want, i, n);
    if i < n - 1 {
      TokensBelowAt(env, members, want, n - 1, i);
    }
  }

  /** Every reply is aligned, lies within what was asked for and what there is, and leaves
      out a wanted member only from the first one whose token could not be made. */
  lemma PackIsAligned(env: Env, members: seq<ClientInfo>, requested: Mask, size: nat)
    requires size <= |members| && size <= 64
    ensures var (which, tokens) := Pack(env, members, requested, size);
            && Aligned(env, members, which, tokens)
            && which <= requested * LowNMap(size)
            && forall i: nat | i in requested && i < size && i !in which ::
                 exists j: nat :: j <= i && j in requested && TokenOf(env, members[j]).None?
  {
    var want: Mask := requested * LowNMap(size);
    var stop := Stop(env, members, want, 0, size);
    var (which, tokens) := Pack(env, members, requested, size);
    RankAgrees(which, want, stop);
    RankFlat(which, stop, 64);
    forall i: nat | i in which
      ensures i < |members| && Rank(which, i) < |tokens|
      ensures TokenOf(env, members[i]) == Some(tokens[Rank(which, i)])
    {
      TokensBelowAt(env, members, want, stop, i);
      RankAgrees(which, want, i);
    }
    forall i: nat | i in requested && i < size && i !in which
      ensures exists j: nat :: j <= i && j in requested && TokenOf(env, members[j]).None?
    {
      assert i in want;
      assert stop <= i;
    }
  }

  /** With every wanted token makeable, the reply holds exactly what was asked for and exists. */
  lemma PackComplete(env: Env, members: seq<ClientInfo>, requested: Mask, size: nat)
    requires size <= |members| && size <= 64
    requires forall i | i in requested && i < size :: TokenOf(env, members[i]).Some?
    ensures Pack(env, members, requested, size).0 == requested * LowNMap(size)
  {
    var want: Mask := requested * LowNMap(size);
    assert Stop(env, members, want, 0, size) == size;
  }

  /** A reply depends only on the members it counted: later joins do not disturb it. */
  lemma {:induction false} PackStable(env: Env, a: seq<ClientInfo>, b: seq<ClientInfo>, requested: Mask, size: nat)
    requires size <= |a| && size <= 64 && a <= b
    ensures Pack(env, a, requested, size) == Pack(env, b, requested, size)
  {
    var want: Mask := requested * LowNMap(size);
    StopStable(env, a, b, want, 0, size);
    TokensStable(env, a, b, want, Stop(env, a, want, 0, size));
  }

  lemma {:induction false} StopStable(env: Env, a: seq<ClientInfo>, b: seq<ClientInfo>, want: Mask, i: nat, size: nat)
    requires i <= size <= |a| && a <= b
    ensures Stop(env, a, want, i, size) == Stop(env, b, want, i, size)
    decreases size - i
  {
    if i < size {
      StopStable(env, a, b, want, i + 1, size);
    }
  }

  lemma {:induction false} TokensStable(env: Env, a: seq<ClientInfo>, b: seq<ClientInfo>, want: Mask, n: nat)
    requires n <= |a| && a <= b
    requires forall j | 0 <= j < n && j in want :: TokenOf(env, a[j]).Some?
    ensures TokensBelow(env, a, want, n) == TokensBelow(env, b, want, n)
  {
    if n > 0 {
      TokensStable(env, a, b, want, n - 1);
    }
  }

  /** The token loop of doGetMsg. */
  method PackTokens(env: Env, members: seq<ClientInfo>, requested: Mask, size: nat)
      returns (which: Mask, tokens: seq<Token>)
    requires size <= |members| && size <= 64
    ensures (which, tokens) == Pack(env, members, requested, size)
    ensures Aligned(env, members, which, tokens)
  {
    var whichToSend: Mask := requested * LowNMap(size);
    which, tokens := {}, [];
    var i := 0;
    while i < size
      invariant 0 <= i <= size
      invariant forall j | 0 <= j < i && j in whichToSend :: TokenOf(env, members[j]).Some?
      invariant Stop(env, members, whichToSend, 0, size) == Stop(env, members, whichToSend, i, size)
      invariant which == set j | j in whichToSend && j < i
      invariant tokens == TokensBelow(env, members, whichToSend, i)
    {
      if i in whichToSend {
        var token := TokenOf(env, members[i]);
        if token.None? {
          break;
        }
        tokens := tokens + [token.value];
        which := which + {i};
      }
      i := i + 1;
    }
    PackIsAligned(env, members, requested, size);
  }

  // ---------------------------------------------------------------- client side

  type Table = seq<Option<MemberInfo>>

  /** The token list ran out before the mask did: the slot loop's index is out of range. */
  predicate Short(which: Mask, tokens: seq<Token>, n: nat) {
    Rank(which, n) > |tokens|
  }

  /** The table after a reply: slot i takes the token of its own bit, if that bit is set and
      the list reaches that far. */
  function Unpack(env: Env, which: Mask, tokens: seq<Token>, table: Table): (r: Table)
    ensures |r| == |table|
  {
    seq(|table|, i requires 0 <= i < |table| =>
      if i in which && Rank(which, i) < |tokens| then InfoFromToken(env, tokens[Rank(which, i)]) else table[i])
  }

  /** The bits still to get after a reply. */
  function Remaining(env: Env, which: Mask, tokens: seq<Token>, n: nat, still: Mask): (r: Mask)
    ensures r <= still
  {
    set i | i in still &&
      !(i in which && i < n && Rank(which, i) < |tokens| && InfoFromToken(env, tokens[Rank(which, i)]).Some?)
  }

  /** The err left by the slot loop: that of the last token it converted. */
  function LastFailed(env: Env, which: Mask, tokens: seq<Token>, n: nat): bool
    requires !Short(which, tokens, n)
  {
    if n == 0 then false
    else if n - 1 in which then InfoFromToken(env, tokens[Rank(which, n - 1)]).None?
    else LastFailed(env, which, tokens, n - 1)
  }

  lemma RemainingStep(env: Env, which: Mask, tokens: seq<Token>, n: nat, still: Mask)
    ensures Remaining(env, which, tokens, n + 1, still) ==
            Remaining(env, which, tokens, n, still) -
            if n in which && Rank(which, n) < |tokens| && InfoFromToken(env, tokens[Rank(which, n)]).Some? then {n} else {}
  {
  }

  /** Where the token list ends, the slot loop has done all it can. */
  lemma ShortIsDone(env: Env, which: Mask, tokens: seq<Token>, i: nat, n: nat, still: Mask)
    requires i <= n && Rank(which, i) >= |tokens|
    ensures Remaining(env, which, tokens, i, still) == Remaining(env, which, tokens, n, still)
    ensures forall k | i <= k < n :: Rank(which, k) >= |tokens|
  {
    forall k: nat | i <= k ensures Rank(which, k) >= |tokens| {
      RankMono(which, i, k);
    }
  }

  /** A failed last conversion leaves its bit to get. */
  lemma {:induction false} FailureRemains(env: Env, which: Mask, tokens: seq<Token>, n: nat, m: nat, still: Mask)
    requires n <= m && !Short(which, tokens, n) && LastFailed(env, which, tokens, n) && which <= still
    ensures Remaining(env, which, tokens, m, still) != {}
  {
    if n - 1 in which {
      assert n - 1 in Remaining(env, which, tokens, m, still);
    } else {
      FailureRemains(env, which, tokens, n - 1, m, still);
    }
  }

  lemma {:induction false} RankMono(which: set<nat>, i: nat, j: nat)
    requires i <= j
    ensures Rank(which, i) <= Rank(which, j)
  {
    if i < j {
      RankMono(which, i, j - 1);
    }
  }

  /** Packing then unpacking returns every token to the slot it came from, for every list
      of members, every request and every place the packing loop may have stopped. */
  lemma PackUnpack(env: Env, members: seq<ClientInfo>, which: Mask, tokens: seq<Token>, table: Table)
    requires Aligned(env, members, which, tokens) && |table| <= 64
    ensures !Short(which, tokens, |table|)
    ensures var r := Unpack(env, which, tokens, table);
            forall i | 0 <= i < |table| ::
              if i in which then r[i] == InfoOf(env, members[i]) else r[i] == table[i]
  {
    RankMono(which, |table|, 64);
  }

  // ---------------------------------------------------------------- one round

  /** Slot i is filled exactly when its bit is no longer wanted. */
  ghost predicate InStep(table: Table, still: Mask) {
    forall i: nat :: i in still <==> i < |table| && table[i].None?
  }

  /** One round of an aligned reply to what was asked keeps table and mask in step, never
      touches a filled slot, and only shrinks the mask. */
  lemma RoundKeepsStep(env: Env, members: seq<ClientInfo>, which: Mask, tokens: seq<Token>, table: Table, still: Mask)
    requires Aligned(env, members, which, tokens) && which <= still && InStep(table, still) && |table| <= 64
    ensures !Short(which, tokens, |table|)
    ensures var r := Unpack(env, which, tokens, table);
            && InStep(r, Remaining(env, which, tokens, |table|, still))
            && forall i | 0 <= i < |table| && table[i].Some? :: r[i] == table[i]
  {
    PackUnpack(env, members, which, tokens, table);
    var r := Unpack(env, which, tokens, table);
    var left := Remaining(env, which, tokens, |table|, still);
    forall i: nat ensures i in left <==> i < |table| && r[i].None? {
      if i in which && i < |table| {
        RankBelow(which, i, |table|);
      }
    }
  }

  /** A full cluster whose members are convertible, as many as the table holds, leaves
      nothing to get. */
  lemma RoundCompletes(env: Env, members: seq<ClientInfo>, size: nat, table: Table, still: Mask)
    requires size <= |members| && |table| <= size <= 64 && InStep(table, still)
    requires forall i | 0 <= i < |table| :: InfoOf(env, members[i]).Some?
    ensures var (which, tokens) := Pack(env, members, still, size);
            !Short(which, tokens, |table|) && Remaining(env, which, tokens, |table|, still) == {}
  {
    PackComplete(env, members, still, size);
    PackIsAligned(env, members, still, size);
    var (which, tokens) := Pack(env, members, still, size);
    assert which == still;
    RoundKeepsStep(env, members, which, tokens, table, still);
    PackUnpack(env, members, which, tokens, table);
    var r := Unpack(env, which, tokens, table);
    var left := Remaining(env, which, tokens, |table|, still);
    forall i: nat | i < |table| ensures r[i].Some? {
      assert i in which ==> r[i] == InfoOf(env, members[i]);
    }
  }

  lemma {:induction false} NoneFailed(env: Env, members: seq<ClientInfo>, which: Mask, tokens: seq<Token>, n: nat)
    requires Aligned(env, members, which, tokens) && n <= 64 && !Short(which, tokens, n)
    requires forall i | 0 <= i < n && i < |members| :: InfoOf(env, members[i]).Some?
    ensures !LastFailed(env, which, tokens, n)
  {
    if n > 0 && n - 1 !in which {
      NoneFailed(env, members, which, tokens, n - 1);
    }
  }
}
