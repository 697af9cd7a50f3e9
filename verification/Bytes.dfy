/** Bytes and little-endian integers, as the packed protocol structs store them. */
module Bytes {
  type byte = x: int | 0 <= x < 256

  function Pow256(k: nat): (r: nat)
    ensures r > 0
  {
    if k == 0 then 1 else 256 * Pow256(k - 1)
  }

  lemma Widths()
    ensures Pow256(1) == 0x100 && Pow256(2) == 0x1_0000 && Pow256(4) == 0x1_0000_0000
    ensures Pow256(8) == 0x1_0000_0000_0000_0000
  {
    assert Pow256(4) == 256 * 256 * 256 * 256;
    assert Pow256(6) == 0x1_0000_0000 * 256 * 256;
  }

  /** The low `k` bytes of `n`, least significant first. */
  function Le(n: nat, k: nat): (r: seq<byte>)
    ensures |r| == k
  {
    if k == 0 then [] else [n % 256] + Le(n / 256, k - 1)
  }

  function FromLe(bs: seq<byte>): (r: nat)
    ensures r < Pow256(|bs|)
  {
    if bs == [] then 0 else bs[0] + 256 * FromLe(bs[1..])
  }

  lemma {:induction false} LeRoundTrip(n: nat, k: nat)
    requires n < Pow256(k)
    ensures FromLe(Le(n, k)) == n
  {
    if k > 0 {
      LeRoundTrip(n / 256, k - 1);
      assert Le(n, k)[1..] == Le(n / 256, k - 1);
    }
  }

  /** Every byte string is the little-endian form of the number it reads as. */
  lemma {:induction false} LeOfRead(bs: seq<byte>)
    ensures Le(FromLe(bs), |bs|) == bs
  {
    if bs != [] {
      LeOfRead(bs[1..]);
      var n := FromLe(bs);
      assert n % 256 == bs[0] && n / 256 == FromLe(bs[1..]);
    }
  }

  // ----- the bytes by position -----

  lemma LeTwo(n: nat)
    requires n < 0x1_0000
    ensures Le(n, 2) == [n % 256, n / 256]
  {
    LeNext(n, 1);
    LeLast(n / 256);
  }

  lemma LeFour(n: nat)
    requires n < 0x1_0000_0000
    ensures Le(n, 4) == [n % 256, n / 0x100 % 256, n / 0x1_0000 % 256, n / 0x100_0000]
  {
    hide Le;
    DivAgain(n, 0x100);
    DivAgain(n, 0x1_0000);
    LeNext(n, 3);
    LeNext(n / 0x100, 2);
    LeNext(n / 0x1_0000, 1);
    LeLast(n / 0x100_0000);
  }

  lemma LeEight(n: nat)
    requires n < 0x1_0000_0000_0000_0000
    ensures Le(n, 8) ==
      [n % 256, n / 0x100 % 256, n / 0x1_0000 % 256, n / 0x100_0000 % 256, n / 0x1_0000_0000 % 256,
       n / 0x100_0000_0000 % 256, n / 0x1_0000_0000_0000 % 256, n / 0x100_0000_0000_0000]
  {
    hide Le;
    var h := n / 0x1_0000_0000;
    LeFour(h);
    DivAgain(n, 0x100);
    DivAgain(n, 0x1_0000);
    DivAgain(n, 0x100_0000);
    DivAgain(n, 0x1_0000_0000);
    DivAgain(n, 0x100_0000_0000);
    DivAgain(n, 0x1_0000_0000_0000);
    DivAgain(h, 0x100);
    DivAgain(h, 0x1_0000);
    LeNext(n, 7);
    LeNext(n / 0x100, 6);
    LeNext(n / 0x1_0000, 5);
    LeNext(n / 0x100_0000, 4);
  }

  lemma {:induction false} MulGrows(k: nat, m: nat)
    requires k > 0
    ensures k * m >= m
  {
    if k > 1 {
      MulGrows(k - 1, m);
      assert k * m == (k - 1) * m + m;
    }
  }

  /** Quotient and remainder are unique. */
  lemma Quotient(x: nat, q: nat, m: nat, s: nat)
    requires x == q * m + s && s < m
    ensures x / m == q
  {
    var a, b := x / m, x % m;
    assert x == a * m + b;
    if a < q {
      Multiple(a, q, m);
    } else if a > q {
      Multiple(q, a, m);
    }
  }

  lemma Multiple(a: nat, b: nat, m: nat)
    requires a < b
    ensures a * m + m <= b * m
  {
    MulGrows(b - a, m);
    assert (b - a) * m == b * m - a * m;
  }

  /** Dividing by 256 once more. */
  lemma DivAgain(n: nat, c: nat)
    requires c > 0
    ensures n / c / 256 == n / (256 * c)
  {
    var q, r := n / c, n % c;
    var p, s := q / 256, q % 256;
    assert n == q * c + r;
    Distribute(q, p, s, c);
    Below(s, c);
    Quotient(n, p, 256 * c, s * c + r);
  }

  lemma Distribute(q: nat, p: nat, s: nat, c: nat)
    requires q == 256 * p + s
    ensures q * c == p * (256 * c) + s * c
  {
    var x := p * c;
    assert q * c == (256 * p) * c + s * c;
    assert (256 * p) * c == 256 * x;
    assert p * (256 * c) == 256 * x;
  }

  lemma Below(s: nat, c: nat)
    requires s < 256
    ensures s * c <= 255 * c
  {
    var d := 255 - s;
    assert d * c >= 0 && 255 * c == s * c + d * c;
  }

  lemma LeNext(n: nat, k: nat)
    ensures Le(n, k + 1) == [n % 256] + Le(n / 256, k)
  {
  }

  lemma LeLast(n: nat)
    requires n < 256
    ensures Le(n, 1) == [n]
  {
  }
}
