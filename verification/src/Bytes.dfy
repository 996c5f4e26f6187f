/**
 Bytes, the fixed-width integers of the broker and the client, and the
 big-endian conversions both use for index entries and wire fields.
 */
module Bytes {

  type byte = x: int | 0 <= x < 256
  type Data = seq<byte>

  const U16: nat := 0x1_0000
  const U32: nat := 0x1_0000_0000
  const U64: nat := 0x1_0000_0000_0000_0000

  datatype Option<+T> = None | Some(value: T)

  function Min(a: nat, b: nat): nat {
    if a < b then a else b
  }

  predicate NoDup<T(==)>(s: seq<T>) {
    forall i, j :: 0 <= i < j < |s| ==> s[i] != s[j]
  }

  /** A u64 offset cast to an i64, as a heartbeat report carries it. */
  function Signed(n: nat): (r: int)
    ensures r <= n && (n < U64 ==> (r == n <==> n < U64 / 2))
    ensures -(U64 / 2) <= r < U64 / 2 && (n < U64 ==> r == n || r == n - U64)
  {
    var m := n % U64;
    if m < U64 / 2 then m else m - U64
  }

  function Pow256(w: nat): (p: nat)
    ensures p > 0
  {
    if w == 0 then 1 else 256 * Pow256(w - 1)
  }

  lemma Widths()
    ensures Pow256(2) == U16 && Pow256(4) == U32 && Pow256(8) == U64
  {
    assert Pow256(1) == 256;
    assert Pow256(3) == 256 * U16;
    assert Pow256(5) == 256 * U32 && Pow256(6) == U16 * U32 && Pow256(7) == 256 * U16 * U32;
  }

  /** The low `w` bytes of `n`, most significant first; higher bytes are cut off. */
  function Put(n: nat, w: nat): (s: Data)
    ensures |s| == w
    decreases w, n
  {
    if w == 0 then [] else Put(n / 256, w - 1) + [n % 256]
  }

  function Get(s: Data): nat {
    if s == [] then 0 else Get(s[..|s| - 1]) * 256 + s[|s| - 1]
  }

  lemma DivDiv(n: nat, p: nat)
    requires p > 0
    ensures n / 256 / p == n / (256 * p)
  {
    var q, r := n / 256, n % 256;
    var a, b := q / p, q % p;
    assert n == 256 * (p * a + b) + r == (256 * p) * a + (256 * b + r);
    assert b <= p - 1;
    ModUnique(n, 256 * p, a, 256 * b + r);
  }

  /** Most significant byte first: byte i is the digit of weight 256^(w-1-i). */
  lemma {:induction false} PutDigit(n: nat, w: nat, i: nat)
    requires i < w
    ensures Put(n, w)[i] == n / Pow256(w - 1 - i) % 256
    decreases w
  {
    if i < w - 1 {
      PutDigit(n / 256, w - 1, i);
      DivDiv(n, Pow256(w - 2 - i));
    }
  }

  /** Reading back what was written gives the value truncated to the width. */
  lemma {:induction false} GetPut(n: nat, w: nat)
    ensures Get(Put(n, w)) == n % Pow256(w)
    decreases w
  {
    if w > 0 {
      GetPut(n / 256, w - 1);
      var s := Put(n, w);
      assert s[..|s| - 1] == Put(n / 256, w - 1);
      DivModStep(n, Pow256(w - 1));
    }
  }

  lemma DivModStep(n: nat, p: nat)
    requires p > 0
    ensures (n / 256) % p * 256 + n % 256 == n % (256 * p)
  {
    var q, r := n / 256, n % 256;
    var a, b := q / p, q % p;
    assert n == 256 * q + r && q == p * a + b;
    assert n == 256 * (p * a + b) + r == (256 * p) * a + (256 * b + r);
    assert b <= p - 1;
    assert 0 <= 256 * b + r < 256 * p;
    ModUnique(n, 256 * p, a, 256 * b + r);
  }

  /** Quotient and remainder are determined by the division equation. */
  lemma ModUnique(n: nat, d: nat, q: nat, r: nat)
    requires n == d * q + r && r < d
    ensures n % d == r && n / d == q
  {
    NoMultipleBetween(d, q - n / d, n % d - r);
  }

  lemma NoMultipleBetween(d: int, k: int, x: int)
    requires d * k == x && -d < x < d
    ensures k == 0 && x == 0
  {
    if k >= 1 {
      MulAtLeast(d, k);
    }
  }

  lemma {:induction false} MulAtLeast(d: int, k: nat)
    requires d >= 0 && k >= 1
    ensures d * k >= d
    decreases k
  {
    if k > 1 {
      MulAtLeast(d, k - 1);
      assert d * k == d * (k - 1) + d;
    }
  }

  /** A value that fits its width survives the trip. */
  lemma GetPutFits(n: nat, w: nat)
    requires n < Pow256(w)
    ensures Get(Put(n, w)) == n
  {
    GetPut(n, w);
  }

  /** Conversely every byte string is the encoding of the number it reads as. */
  lemma {:induction false} PutGet(s: Data)
    ensures Get(s) < Pow256(|s|) && Put(Get(s), |s|) == s
  {
    if s != [] {
      var init := s[..|s| - 1];
      PutGet(init);
      ModUnique(Get(s), 256, Get(init), s[|s| - 1]);
      assert Get(init) + 1 <= Pow256(|init|);
    }
  }
}
