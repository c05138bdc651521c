/** The digest a client signs in its Member message and the registry verifies. */
module Digest {
  import opened Types

  /** binary.LittleEndian.PutUint64. */
  function LittleEndian(x: nat, width: nat): (b: Bytes)
    ensures |b| == width
  {
    if width == 0 then [] else [(x % 256) as byte] + LittleEndian(x / 256, width - 1)
  }

  function LittleValue(b: Bytes): nat {
    if b == [] then 0 else b[0] as nat + 256 * LittleValue(b[1..])
  }

  function Pow256(n: nat): nat {
    if n == 0 then 1 else 256 * Pow256(n - 1)
  }

  /** The bytes hashed for attrs hold all of it. */
  lemma {:induction false} LittleEndianHolds(x: nat, width: nat)
    requires x < Pow256(width)
    ensures LittleValue(LittleEndian(x, width)) == x
  {
    if width > 0 {
      LittleEndianHolds(x / 256, width - 1);
      assert LittleEndian(x, width)[1..] == LittleEndian(x / 256, width - 1);
    }
  }

  function Concat(env: Env, ends: seq<string>): Bytes {
    if ends == [] then [] else Concat(env, ends[..|ends| - 1]) + env.utf8(ends[|ends| - 1])
  }

  /** The bytes hashed: name, attrs, both keys as sent, and the endpoints, in that order. */
  function DigestInput(env: Env, name: string, attrs: uint64, ck: Bytes, sk: Bytes, ends: seq<string>): Bytes {
    env.utf8(name) + LittleEndian(attrs, 8) + ck + sk + Concat(env, ends)
  }

  /** The signature covers attrs: for one name, no two attrs values are hashed alike, whatever
      keys and endpoints follow. */
  lemma DigestCoversAttrs(env: Env, name: string, a: uint64, b: uint64, ck: Bytes, sk: Bytes, ends: seq<string>,
                          ck': Bytes, sk': Bytes, ends': seq<string>)
    requires DigestInput(env, name, a, ck, sk, ends) == DigestInput(env, name, b, ck', sk', ends')
    ensures a == b
  {
    var n := |env.utf8(name)|;
    var x, y := DigestInput(env, name, a, ck, sk, ends), DigestInput(env, name, b, ck', sk', ends');
    assert x[n..n + 8] == LittleEndian(a, 8) && y[n..n + 8] == LittleEndian(b, 8);
    Word256();
    LittleEndianHolds(a, 8);
    LittleEndianHolds(b, 8);
  }

  lemma Word256()
    ensures Pow256(8) == 0x1_0000_0000_0000_0000
  {
    assert Pow256(2) == 0x1_0000;
    assert Pow256(4) == 0x1_0000_0000;
    assert Pow256(6) == 0x1_0000_0000_0000;
  }
}
