/** Byte strings and the domain-separated hashing that both agent crates use. */
module Bytes {

  type Byte = b: int | 0 <= b < 256

  function ZeroBytes(n: nat): (bs: seq<Byte>)
    ensures |bs| == n && forall i :: 0 <= i < n ==> bs[i] == 0
  {
    if n == 0 then [] else ZeroBytes(n - 1) + [0]
  }

  type U64 = n: int | 0 <= n < 0x1_0000_0000_0000_0000

  const U64_MAX: U64 := 0xFFFF_FFFF_FFFF_FFFF

  type Digest = d: seq<Byte> | |d| == 32 witness ZeroBytes(32)

  /**
   * SHA-256 of a domain tag followed by the input, as a parameter: no statement relies on
   * anything but its signature.
   */
  type Hash = (string, seq<Byte>) -> Digest

  /** Two different inputs with one hash under one domain tag. */
  ghost predicate Collision(h: Hash, domain: string, x: seq<Byte>, y: seq<Byte>) {
    x != y && h(domain, x) == h(domain, y)
  }

  function Join(parts: seq<seq<Byte>>): seq<Byte> {
    if parts == [] then [] else parts[0] + Join(parts[1..])
  }

  ghost predicate SameShape(ps: seq<seq<Byte>>, qs: seq<seq<Byte>>) {
    |ps| == |qs| && forall i :: 0 <= i < |ps| ==> |ps[i]| == |qs[i]|
  }

  lemma SplitAt(a: seq<Byte>, x: seq<Byte>, b: seq<Byte>, y: seq<Byte>)
    requires |a| == |b| && a + x == b + y
    ensures a == b && x == y
  {
    assert a == (a + x)[..|a|] && b == (b + y)[..|b|];
    assert x == (a + x)[|a|..] && y == (b + y)[|b|..];
  }

  /** Parts of known widths can be read back from their concatenation. */
  lemma {:induction false} JoinInjective(ps: seq<seq<Byte>>, qs: seq<seq<Byte>>)
    requires SameShape(ps, qs) && Join(ps) == Join(qs)
    ensures ps == qs
  {
    if ps != [] {
      SplitAt(ps[0], Join(ps[1..]), qs[0], Join(qs[1..]));
      JoinInjective(ps[1..], qs[1..]);
      assert ps == [ps[0]] + ps[1..] && qs == [qs[0]] + qs[1..];
    }
  }

  lemma {:induction false} JoinedDigestsLength(ds: seq<Digest>)
    ensures |Join(ds)| == 32 * |ds|
  {
    if ds != [] {
      JoinedDigestsLength(ds[1..]);
    }
  }

  /** So can lists of digests, of any length. */
  lemma JoinedDigestsInjective(ds: seq<Digest>, es: seq<Digest>)
    requires Join(ds) == Join(es)
    ensures ds == es
  {
    JoinedDigestsLength(ds);
    JoinedDigestsLength(es);
    JoinInjective(ds, es);
  }

  /** `k` little-endian bytes. */
  function LittleEndian(n: nat, k: nat): (bs: seq<Byte>)
    ensures |bs| == k
  {
    if k == 0 then [] else [n % 256] + LittleEndian(n / 256, k - 1)
  }

  /** The number that bytes stand for, least significant first. */
  function ValueOf(bs: seq<Byte>): nat {
    if bs == [] then 0 else bs[0] + 256 * ValueOf(bs[1..])
  }

  function Power256(k: nat): nat {
    if k == 0 then 1 else 256 * Power256(k - 1)
  }

  lemma {:induction false} LittleEndianValue(n: nat, k: nat)
    requires n < Power256(k)
    ensures ValueOf(LittleEndian(n, k)) == n
  {
    if k > 0 {
      LittleEndianValue(n / 256, k - 1);
      assert LittleEndian(n, k)[1..] == LittleEndian(n / 256, k - 1);
    }
  }

  function Le64(n: U64): (bs: seq<Byte>)
    ensures |bs| == 8
  {
    LittleEndian(n, 8)
  }

  /** Eight bytes hold every u64. */
  lemma Le64Value(n: U64)
    ensures ValueOf(Le64(n)) == n
  {
    assert Power256(8) == 0x1_0000_0000_0000_0000;
    LittleEndianValue(n, 8);
  }

  lemma Le64Injective(m: U64, n: U64)
    requires Le64(m) == Le64(n)
    ensures m == n
  {
    Le64Value(m);
    Le64Value(n);
  }
}
