/** Octets, fixed-width unsigned integers and their big-endian forms. */
module Bytes {

  type byte = b: int | 0 <= b < 0x100
  type u16 = x: int | 0 <= x < 0x1_0000
  type u32 = x: int | 0 <= x < 0x1_0000_0000
  type u64 = x: int | 0 <= x < 0x1_0000_0000_0000_0000
  type u128 = x: int | 0 <= x < 0x1_0000_0000_0000_0000_0000_0000_0000_0000

  function Pow256(n: nat): (p: nat)
    ensures p > 0
  {
    if n == 0 then 1 else 0x100 * Pow256(n - 1)
  }

  /** The low `n` octets of `x`, most significant first. */
  function Be(n: nat, x: nat): (s: seq<byte>)
    ensures |s| == n
  {
    if n == 0 then [] else Be(n - 1, x / 0x100) + [x % 0x100]
  }

  /** The number a big-endian octet string denotes. */
  function UnBe(s: seq<byte>): (x: nat)
    ensures x < Pow256(|s|)
  {
    if s == [] then 0 else UnBe(s[..|s| - 1]) * 0x100 + s[|s| - 1]
  }

  lemma {:induction false} UnBeOfBe(n: nat, x: nat)
    requires x < Pow256(n)
    ensures UnBe(Be(n, x)) == x
  {
    if n > 0 {
      UnBeOfBe(n - 1, x / 0x100);
      assert Be(n, x)[..n - 1] == Be(n - 1, x / 0x100);
    }
  }

  lemma Widths()
    ensures Pow256(1) == 0x100 && Pow256(2) == 0x1_0000 && Pow256(4) == 0x1_0000_0000
    ensures Pow256(8) == 0x1_0000_0000_0000_0000
    ensures Pow256(16) == 0x1_0000_0000_0000_0000_0000_0000_0000_0000
  {
    assert Pow256(4) == 0x1_0000_0000;
    assert Pow256(8) == 0x100 * (0x100 * (0x100 * (0x100 * Pow256(4))));
    assert Pow256(12) == 0x100 * (0x100 * (0x100 * (0x100 * Pow256(8))));
    assert Pow256(16) == 0x100 * (0x100 * (0x100 * (0x100 * Pow256(12))));
  }

  function Be16(x: u16): (s: seq<byte>)
    ensures |s| == 2 && FromBe16(s) == x
  {
    [x / 0x100, x % 0x100]
  }

  function FromBe16(s: seq<byte>): (x: u16)
    requires |s| == 2
  {
    s[0] as int * 0x100 + s[1] as int
  }

  function Be32(x: u32): (s: seq<byte>)
    ensures |s| == 4 && FromBe32(s) == x
  {
    Be16(x / 0x1_0000) + Be16(x % 0x1_0000)
  }

  function FromBe32(s: seq<byte>): (x: u32)
    requires |s| == 4
  {
    FromBe16(s[..2]) * 0x1_0000 + FromBe16(s[2..])
  }

  function Be128(x: u128): (s: seq<byte>)
    ensures |s| == 16 && FromBe128(s) == x
  {
    Widths();
    UnBeOfBe(16, x);
    Be(16, x)
  }

  function FromBe128(s: seq<byte>): (x: u128)
    requires |s| == 16
  {
    Widths();
    UnBe(s)
  }

  /** `w` lies in `msg` at position `p`. */
  predicate At(msg: seq<byte>, p: nat, w: seq<byte>) {
    p + |w| <= |msg| && forall i :: 0 <= i < |w| ==> msg[p + i] == w[i]
  }

  lemma AtSplit(msg: seq<byte>, p: nat, a: seq<byte>, b: seq<byte>)
    requires At(msg, p, a + b)
    ensures At(msg, p, a) && At(msg, p + |a|, b)
  {
    var w := a + b;
    forall i | 0 <= i < |a| ensures msg[p + i] == a[i] { assert w[i] == a[i]; }
    forall i | 0 <= i < |b| ensures msg[p + |a| + i] == b[i] { assert w[|a| + i] == b[i]; }
  }

  lemma AtSlice(msg: seq<byte>, p: nat, w: seq<byte>)
    requires At(msg, p, w)
    ensures msg[p..p + |w|] == w
  {
  }
}
