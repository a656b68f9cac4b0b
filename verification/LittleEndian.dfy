/** Little-endian integers of any width. */
module LittleEndian {
  import opened Types

  function Le(x: nat, n: nat): (b: seq<byte>)
    ensures |b| == n
  {
    if n == 0 then [] else [x % 0x100] + Le(x / 0x100, n - 1)
  }

  function FromLe(b: seq<byte>): nat {
    if b == [] then 0 else b[0] + 0x100 * FromLe(b[1..])
  }

  function Pow256(n: nat): nat {
    if n == 0 then 1 else 0x100 * Pow256(n - 1)
  }

  lemma {:induction false} LeRoundTrip(x: nat, n: nat)
    requires x < Pow256(n)
    ensures FromLe(Le(x, n)) == x
  {
    if n > 0 {
      LeRoundTrip(x / 0x100, n - 1);
      assert Le(x, n)[1..] == Le(x / 0x100, n - 1);
    }
  }

  /** Byte `i` holds the digit of weight 256 to the `i`. */
  lemma {:induction false} LeastFirst(x: nat, n: nat, i: nat)
    requires i < n
    ensures Pow256(i) > 0 && Le(x, n)[i] == x / Pow256(i) % 0x100
  {
    if i > 0 {
      LeastFirst(x / 0x100, n - 1, i - 1);
      DivideTwice(x, Pow256(i - 1));
    }
  }

  lemma DivideTwice(x: nat, p: nat)
    requires p > 0
    ensures x / 0x100 / p == x / (0x100 * p)
  {
    var q, r := x / 0x100 / p, x / 0x100 % p;
    assert x / 0x100 == q * p + r;
    assert x == q * (0x100 * p) + (0x100 * r + x % 0x100);
    Quotient(x, 0x100 * p, q, 0x100 * r + x % 0x100);
  }

  lemma Quotient(x: nat, d: nat, q: nat, r: nat)
    requires x == q * d + r && r < d
    ensures x / d == q
  {
    TimesGrows(x / d + 1, q, d);
    TimesGrows(q + 1, x / d, d);
  }

  lemma TimesGrows(a: nat, b: nat, d: nat)
    ensures a <= b ==> a * d <= b * d
  {
    assert b * d - a * d == (b - a) * d;
  }

  lemma {:induction false} LeInverse(b: seq<byte>)
    ensures Le(FromLe(b), |b|) == b
  {
    if b != [] {
      LeInverse(b[1..]);
      assert FromLe(b) % 0x100 == b[0] && FromLe(b) / 0x100 == FromLe(b[1..]);
      assert b == [b[0]] + b[1..];
    }
  }

  lemma {:induction false} FromLeBound(b: seq<byte>)
    ensures FromLe(b) < Pow256(|b|)
  {
    if b != [] {
      FromLeBound(b[1..]);
    }
  }

  lemma Widths()
    ensures Pow256(2) == 0x1_0000 && Pow256(4) == 0x1_0000_0000 && Pow256(8) == 0x1_0000_0000_0000_0000
  {
    assert Pow256(2) == 0x1_0000;
    assert Pow256(4) == 0x1_0000_0000;
    assert Pow256(6) == 0x1_0000_0000_0000;
  }

  function From16(b: seq<byte>): (x: nat)
    requires |b| == 2
    ensures x < 0x1_0000
  {
    Widths();
    FromLeBound(b);
    FromLe(b)
  }

  function From32(b: seq<byte>): u32
    requires |b| == 4
  {
    Widths();
    FromLeBound(b);
    FromLe(b)
  }

  function From64(b: seq<byte>): u64
    requires |b| == 8
  {
    Widths();
    FromLeBound(b);
    FromLe(b)
  }
}
