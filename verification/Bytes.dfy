/** Fixed-width integers on the wire. */
module Bytes {
  import opened Prelude

  function Pow256(n: nat): nat {
    if n == 0 then 1 else 256 * Pow256(n - 1)
  }

  /** Little-endian, `n` bytes. */
  function Le(v: nat, n: nat): seq<byte> {
    if n == 0 then [] else [v % 256] + Le(v / 256, n - 1)
  }

  function FromLe(b: seq<byte>): nat {
    if b == [] then 0 else b[0] + 256 * FromLe(b[1..])
  }

  function Reversed(b: seq<byte>): seq<byte> {
    if b == [] then [] else Reversed(b[1..]) + [b[0]]
  }

  /** Big-endian, `n` bytes. */
  function Be(v: nat, n: nat): seq<byte> {
    Reversed(Le(v, n))
  }

  function FromBe(b: seq<byte>): nat {
    FromLe(Reversed(b))
  }

  lemma {:induction false} LeLength(v: nat, n: nat)
    ensures |Le(v, n)| == n
  {
    if n > 0 {
      LeLength(v / 256, n - 1);
    }
  }

  lemma {:induction false} LeRoundTrip(v: nat, n: nat)
    requires v < Pow256(n)
    ensures FromLe(Le(v, n)) == v
  {
    if n > 0 {
      LeRoundTrip(v / 256, n - 1);
      assert Le(v, n)[1..] == Le(v / 256, n - 1);
    }
  }

  lemma SplitLow(low: nat, high: nat)
    requires low < 256
    ensures (low + 256 * high) % 256 == low && (low + 256 * high) / 256 == high
  {
  }

  lemma {:induction false} LeInverse(b: seq<byte>)
    ensures FromLe(b) < Pow256(|b|) && Le(FromLe(b), |b|) == b
  {
    if b != [] {
      var high := FromLe(b[1..]);
      LeInverse(b[1..]);
      SplitLow(b[0], high);
      assert FromLe(b) == b[0] + 256 * high;
      assert Le(FromLe(b), |b|) == [b[0]] + Le(high, |b| - 1);
      assert b == [b[0]] + b[1..];
    }
  }

  lemma {:induction false} ReversedLast(b: seq<byte>, x: byte)
    ensures Reversed(b + [x]) == [x] + Reversed(b)
  {
    if b != [] {
      assert (b + [x])[1..] == b[1..] + [x];
      ReversedLast(b[1..], x);
    } else {
      assert b + [x] == [x];
      assert [x][1..] == [];
    }
  }

  lemma {:induction false} ReversedTwice(b: seq<byte>)
    ensures Reversed(Reversed(b)) == b && |Reversed(b)| == |b|
  {
    if b != [] {
      ReversedTwice(b[1..]);
      ReversedLast(Reversed(b[1..]), b[0]);
      assert b == [b[0]] + b[1..];
    }
  }

  lemma BeRoundTrip(v: nat, n: nat)
    requires v < Pow256(n)
    ensures |Be(v, n)| == n && FromBe(Be(v, n)) == v
  {
    LeLength(v, n);
    ReversedTwice(Le(v, n));
    LeRoundTrip(v, n);
  }

  lemma BeInverse(b: seq<byte>)
    ensures FromBe(b) < Pow256(|b|) && Be(FromBe(b), |b|) == b
  {
    ReversedTwice(b);
    LeInverse(Reversed(b));
  }

  lemma Widths()
    ensures Pow256(2) == 0x1_0000 && Pow256(4) == 0x1_0000_0000 && Pow256(8) == 0x1_0000_0000_0000_0000
  {
    assert Pow256(4) == 256 * (256 * Pow256(2));
    assert Pow256(8) == 256 * (256 * (256 * (256 * Pow256(4))));
  }

  predicate StartsWith(b: seq<byte>, prefix: seq<byte>) {
    |prefix| <= |b| && b[..|prefix|] == prefix
  }

  /** Eight-bit text. */
  function Ascii(s: string): seq<byte>
    requires forall i :: 0 <= i < |s| ==> s[i] < 128 as char
  {
    seq(|s|, i requires 0 <= i < |s| => s[i] as int)
  }
}
