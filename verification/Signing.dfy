/** The Member message: what a client signs, what the registry checks, and that the two
    agree. */
module Signing {
  import opened Types
  import opened Dispatch
  import opened Digest
  import opened Stores
  import opened Handlers

  /** A node as MemberAndOK sees it; `ends` are its endpoints' texts, and `sign` signs a hash
      with the private half of `sk`. */
  datatype Node = Node(
    name: string, attrs: uint64, id: Option<Bytes>, ck: PubKey, sk: PubKey,
    ends: seq<string>, sign: Bytes -> Option<Bytes>)

  const END_PREFIX := "TcpEndPoint: "

  function StripEnd(e: string): string {
    if END_PREFIX <= e then e[|END_PREFIX|..] else e
  }

  function StripEnds(ends: seq<string>): (r: seq<string>)
    ensures |r| == |ends|
  {
    seq(|ends|, i requires 0 <= i < |ends| => StripEnd(ends[i]))
  }

  /** What RSA promises: a key survives the wire, and a signature verifies. */
  ghost predicate SignLaw(env: Env, n: Node) {
    && (forall b | env.toWire(n.ck) == Some(b) :: env.fromWire(b) == Some(n.ck))
    && (forall b | env.toWire(n.sk) == Some(b) :: env.fromWire(b) == Some(n.sk))
    && (forall h, sig | n.sign(h) == Some(sig) :: env.verify(n.sk, h, sig))
  }

  /** The loop both sides write their endpoints to the hash with. */
  method WriteEnds(env: Env, data0: Bytes, ends: seq<string>) returns (data: Bytes)
    ensures data == data0 + Concat(env, ends)
  {
    data := data0;
    for i := 0 to |ends|
      invariant data == data0 + Concat(env, ends[..i])
    {
      data := data + env.utf8(ends[i]);
      assert ends[..i + 1][..i] == ends[..i];
      assert data0 + Concat(env, ends[..i]) + env.utf8(ends[i]) == data0 + (Concat(env, ends[..i]) + env.utf8(ends[i]));
    }
    assert ends[..|ends|] == ends;
  }

  /** The client's half: the token MemberAndOK sends. None when a key cannot be written or
      the hash cannot be signed. */
  method MakeToken(env: Env, n: Node) returns (t: Option<Token>)
    ensures t.Some? ==>
      && t.value.(digSig := []) == Token(n.name, n.attrs, n.id, t.value.commsKey, t.value.sigKey, StripEnds(n.ends), [])
      && env.toWire(n.ck) == Some(t.value.commsKey) && env.toWire(n.sk) == Some(t.value.sigKey)
      && SignedOver(env, n, t.value)
    ensures SignLaw(env, n) && t.Some? ==>
      Verified(env, t.value) == Some(Applicant(n.name, n.attrs, n.ck, n.sk, StripEnds(n.ends)))
  {
    var ck, sk := env.toWire(n.ck), env.toWire(n.sk);
    if ck.None? || sk.None? {
      return None;
    }
    var myEnds := [];
    for i := 0 to |n.ends|
      invariant myEnds == StripEnds(n.ends)[..i]
    {
      var myEnd := n.ends[i];
      if END_PREFIX <= myEnd {
        myEnd := myEnd[13..];
      }
      myEnds := myEnds + [myEnd];
    }
    var data := env.utf8(n.name) + LittleEndian(n.attrs, 8) + ck.value + sk.value;
    data := WriteEnds(env, data, myEnds);
    var digSig := n.sign(env.sha1(data));
    if digSig.None? {
      return None;
    }
    t := Some(Token(n.name, n.attrs, n.id, ck.value, sk.value, myEnds, digSig.value));
  }

  /** The signature is the signer's, over the hash of exactly the bytes the server will hash. */
  ghost predicate SignedOver(env: Env, n: Node, t: Token) {
    n.sign(env.sha1(DigestInput(env, t.name, t.attrs, t.commsKey, t.sigKey, t.myEnds))) == Some(t.digSig)
  }

  /** The registry's half: doClientMsg up to the signature check. */
  method CheckToken(env: Env, t: Token) returns (who: Option<Applicant>)
    ensures who == Verified(env, t)
  {
    var ck := env.fromWire(t.commsKey);
    if ck.None? {
      return None;
    }
    var sk := env.fromWire(t.sigKey);
    if sk.None? {
      return None;
    }
    var data := env.utf8(t.name) + LittleEndian(t.attrs, 8) + t.commsKey + t.sigKey;
    data := WriteEnds(env, data, t.myEnds);
    who := if env.verify(sk.value, env.sha1(data), t.digSig)
           then Some(Applicant(t.name, t.attrs, ck.value, sk.value, t.myEnds)) else None;
  }

  /** An honestly signed Member message is never refused for its signature: it reaches the ID
      stage with exactly the sender's data, for every name, attrs, keys and endpoints. */
  lemma HonestMemberIsHeard(env: Env, st: Store, s: Sess, n: Node, t: Token)
    requires Indexed(st) && s.entry == HELLO_RCVD && SignLaw(env, n) && SignedOver(env, n, t)
    requires env.toWire(n.ck) == Some(t.commsKey) && env.toWire(n.sk) == Some(t.sigKey)
    requires t.name == n.name && t.attrs == n.attrs && t.id == n.id && t.myEnds == StripEnds(n.ends)
    ensures var who := Applicant(n.name, n.attrs, n.ck, n.sk, StripEnds(n.ends));
            var s' := Receive(env, st, s, Blank(OP_MEMBER).(memberSpecs := t));
            match n.id
            case None => s'.pc == Issue(ForClient(who))
            case Some(id) => if ValidID(id) then s'.pc == Vouch(id, who) else s' == Fail(Heard(s, s'.msgIn))
  {
    assert Op2Tag(OP_MEMBER) == MEMBER;
    assert TABLE[HELLO_RCVD][MEMBER] == DoClient;
  }
}
