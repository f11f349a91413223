/** Little-endian integers as bytes. */
module Bytes {
  import opened Basics

  function Pow256(n: nat): (r: nat)
    ensures r > 0
  {
    if n == 0 then 1 else 256 * Pow256(n - 1)
  }

  /** `to_le_bytes` of an `n`-byte integer. */
  function Le(v: nat, n: nat): (r: seq<Byte>)
    ensures |r| == n
  {
    if n == 0 then [] else [v % 256] + Le(v / 256, n - 1)
  }

  /** Byte `k` is the value's digit of weight 256 to the `k`: the least significant comes first. */
  lemma {:induction false} LeDigits(v: nat, n: nat, k: nat)
    requires k < n
    ensures Le(v, n)[k] == v / Pow256(k) % 256
  {
    if k > 0 {
      LeDigits(v / 256, n - 1, k - 1);
      DivTwice(v, 256, Pow256(k - 1));
    }
  }

  lemma DivTwice(v: nat, a: nat, b: nat)
    requires a > 0 && b > 0
    ensures a * b > 0 && v / a / b == v / (a * b)
  {
    var x := v / a;
    DivMod(v, a, x, v % a);
    DivMod(x, b, x / b, x % b);
    Nested(v, x, x / b, x % b, v % a, a, b, a * b);
    MulGap(x % b, b, a);
    Commutes(a, b);
    DivUnique(v, a * b, x / b, (x % b) * a + v % a);
  }

  lemma Commutes(a: nat, b: nat)
    ensures a * b == b * a && (a > 0 && b > 0 ==> a * b > 0)
  {
  }

  lemma DivMod(v: nat, a: nat, q: nat, r: nat)
    requires a > 0 && q == v / a && r == v % a
    ensures v == q * a + r && r < a
  {
  }

  lemma Nested(v: nat, x: nat, q: nat, s: nat, r: nat, a: nat, b: nat, p: nat)
    requires v == x * a + r && x == q * b + s && p == a * b
    ensures v == q * p + (s * a + r)
  {
    assert x * a == q * b * a + s * a;
    assert q * b * a == q * p;
  }

  /** `from_le_bytes`. */
  function FromLe(s: seq<Byte>): nat {
    if s == [] then 0 else s[0] + 256 * FromLe(s[1..])
  }

  lemma {:induction false} LeRoundTrip(v: nat, n: nat)
    requires v < Pow256(n)
    ensures FromLe(Le(v, n)) == v
  {
    if n > 0 {
      LeRoundTrip(v / 256, n - 1);
    }
  }
}
