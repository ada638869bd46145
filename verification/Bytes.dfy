/**
 Byte strings as Prunella writes them: little-endian integers, length-prefixed byte
 strings and domain-separated hash pre-images. The hash itself is never modelled: every
 statement about hashing quantifies over an arbitrary function `Hash`, and what is proved
 is that two different inputs leading to one digest yield two different byte strings that
 were really hashed and really collide.
 */
module Bytes {

  const U16_MAX: nat := 0xFFFF
  const U32_MAX: nat := 0xFFFF_FFFF
  const U64_MAX: nat := 0xFFFF_FFFF_FFFF_FFFF

  type Byte = b: int | 0 <= b < 256

  /** A 32-byte digest. */
  type Digest = s: seq<Byte> | |s| == 32 witness seq(32, _ => 0)

  /** A byte string whose length fits the `u32` prefix the encoding gives it. */
  type ByteString = s: seq<Byte> | |s| <= U32_MAX witness []

  /** An arbitrary hash function. */
  type Hash = seq<Byte> -> Digest

  function Pow256(width: nat): (p: nat)
    ensures p > 0
  {
    if width == 0 then 1 else 256 * Pow256(width - 1)
  }

  /** `width` bytes of `n`, least significant first. */
  function Le(n: nat, width: nat): (s: seq<Byte>)
    ensures |s| == width
  {
    if width == 0 then [] else [n % 256] + Le(n / 256, width - 1)
  }

  const ZERO: Digest := Le(0, 32)

  /** The integer a little-endian byte string stands for. */
  function FromLe(s: seq<Byte>): nat {
    if s == [] then 0 else s[0] + 256 * FromLe(s[1..])
  }

  lemma {:induction false} LeRoundTrip(n: nat, width: nat)
    requires n < Pow256(width)
    ensures FromLe(Le(n, width)) == n
  {
    if width == 0 {
    } else {
      LeRoundTrip(n / 256, width - 1);
      assert Le(n, width)[1..] == Le(n / 256, width - 1);
    }
  }

  lemma LeInjective(m: nat, n: nat, width: nat)
    requires m < Pow256(width) && n < Pow256(width)
    requires Le(m, width) == Le(n, width)
    ensures m == n
  {
    LeRoundTrip(m, width);
    LeRoundTrip(n, width);
  }

  lemma Widths()
    ensures Pow256(2) == U16_MAX + 1
    ensures Pow256(4) == U32_MAX + 1
    ensures Pow256(8) == U64_MAX + 1
  {
    assert Pow256(3) == 256 * Pow256(2);
    assert Pow256(6) == 256 * 256 * Pow256(4);
  }

  /** A `u32` length, then the bytes. */
  function Prefixed(s: ByteString): (r: seq<Byte>)
    ensures |r| == 4 + |s|
  {
    Le(|s|, 4) + s
  }

  /** Two concatenations whose heads have one length split at the same place. */
  lemma SplitAt(a: seq<Byte>, b: seq<Byte>, c: seq<Byte>, d: seq<Byte>)
    requires a + b == c + d && |a| == |c|
    ensures a == c && b == d
  {
    assert a == (a + b)[..|a|] && c == (c + d)[..|c|];
    assert b == (a + b)[|a|..] && d == (c + d)[|c|..];
  }

  /** A length-prefixed string can be cut off the front of what follows it. */
  lemma PrefixedSplits(a: ByteString, x: seq<Byte>, b: ByteString, y: seq<Byte>)
    requires Prefixed(a) + x == Prefixed(b) + y
    ensures a == b && x == y
  {
    assert Prefixed(a) + x == Le(|a|, 4) + (a + x);
    assert Prefixed(b) + y == Le(|b|, 4) + (b + y);
    SplitAt(Le(|a|, 4), a + x, Le(|b|, 4), b + y);
    Widths();
    LeInjective(|a|, |b|, 4);
    SplitAt(a, x, b, y);
  }

  /** The characters of an ASCII label, as bytes. */
  function Ascii(text: string): (s: seq<Byte>)
    ensures |s| == |text|
  {
    seq(|text|, i requires 0 <= i < |text| => text[i] as int % 256)
  }

  /** What is hashed for `content` in the domain `tag`. */
  function InDomain(tag: ByteString, content: seq<Byte>): seq<Byte> {
    Prefixed(tag) + content
  }

  /** Two pre-images agree only when both the domain and the content agree. */
  lemma DomainsSeparate(s: ByteString, a: seq<Byte>, t: ByteString, b: seq<Byte>)
    ensures InDomain(s, a) == InDomain(t, b) <==> s == t && a == b
  {
    if InDomain(s, a) == InDomain(t, b) {
      PrefixedSplits(s, a, t, b);
    }
  }

  /**
   Some byte string of `xs` and a different one of `ys` have the same digest. The two sets
   are always the pre-images some computation hashed, so this names a collision found by
   running that computation, not one that merely exists by counting.
   */
  ghost predicate CollisionIn(hash: Hash, xs: set<seq<Byte>>, ys: set<seq<Byte>>) {
    exists x, y :: Collide(hash, xs, ys, x, y)
  }

  ghost predicate Collide(hash: Hash, xs: set<seq<Byte>>, ys: set<seq<Byte>>, x: seq<Byte>, y: seq<Byte>) {
    x in xs && y in ys && x != y && hash(x) == hash(y)
  }

  /** Equal digests of hashed strings: the strings are equal or they are the collision. */
  lemma EqualOrCollision(hash: Hash, x: seq<Byte>, y: seq<Byte>, xs: set<seq<Byte>>, ys: set<seq<Byte>>)
    requires x in xs && y in ys && hash(x) == hash(y)
    ensures x == y || CollisionIn(hash, xs, ys)
  {
    assert x == y || Collide(hash, xs, ys, x, y);
  }

  lemma CollisionWidens(hash: Hash, xs: set<seq<Byte>>, ys: set<seq<Byte>>, vs: set<seq<Byte>>, ws: set<seq<Byte>>)
    requires CollisionIn(hash, xs, ys) && xs <= vs && ys <= ws
    ensures CollisionIn(hash, vs, ws)
  {
    var x, y :| Collide(hash, xs, ys, x, y);
    assert Collide(hash, vs, ws, x, y);
  }
}
