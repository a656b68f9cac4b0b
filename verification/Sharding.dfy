/** Which shard a key goes to: the low four bits of five txid bytes and of the output number decide. */
module Sharding {
  import opened Types
  import opened Lru
  import opened Cache

  // ------------------------------------------------------------------
  // Exclusive or, digit by digit
  // ------------------------------------------------------------------

  lemma {:induction false} XorZero(a: nat)
    ensures Xor(a, 0) == a && Xor(0, a) == a
  {
  }

  /** The digit that two digits give. */
  function Digit(r: nat, s: nat): (d: nat)
    ensures d < 2
  {
    (r + s) % 2
  }

  /** One binary digit. */
  lemma {:induction false} XorDigit(q: nat, r: nat, p: nat, s: nat)
    requires r < 2 && s < 2
    ensures Xor(2 * q + r, 2 * p + s) == 2 * Xor(q, p) + Digit(r, s)
  {
    var a, b := 2 * q + r, 2 * p + s;
    assert a / 2 == q && b / 2 == p && (a + b) % 2 == (r + s) % 2;
    if a == 0 {
      XorZero(b);
      XorZero(p);
    } else if b == 0 {
      XorZero(a);
      XorZero(q);
    }
  }

  /** A number by its lowest digit and the rest. */
  lemma Halves(a: nat) returns (q: nat, r: nat)
    ensures a == 2 * q + r && r < 2
  {
    q, r := a / 2, a % 2;
  }

  lemma Low4(q: nat, r: nat)
    requires r < 2
    ensures (2 * q + r) % 4 == 2 * (q % 2) + r
  {
    var x, y := q / 2, q % 2;
    assert 2 * q + r == 4 * x + (2 * y + r);
  }

  lemma Low8(q: nat, r: nat)
    requires r < 2
    ensures (2 * q + r) % 8 == 2 * (q % 4) + r
  {
    var x, y := q / 4, q % 4;
    assert 2 * q + r == 8 * x + (2 * y + r);
  }

  lemma Low16(q: nat, r: nat)
    requires r < 2
    ensures (2 * q + r) % 16 == 2 * (q % 8) + r
  {
    var x, y := q / 8, q % 8;
    assert 2 * q + r == 16 * x + (2 * y + r);
  }

  lemma Low2(q: nat, r: nat)
    requires r < 2
    ensures (2 * q + r) % 2 == r
  {
  }

  lemma {:induction false} XorBits(r: nat, s: nat)
    requires r < 2 && s < 2
    ensures Xor(r, s) == Digit(r, s)
  {
    XorDigit(0, r, 0, s);
    XorZero(0);
  }

  lemma {:induction false} XorLow2(a: nat, b: nat)
    ensures Xor(a, b) % 2 == Xor(a % 2, b % 2)
  {
    var q, r := Halves(a);
    var p, s := Halves(b);
    var x := Xor(q, p);
    assert Xor(a, b) % 2 == Digit(r, s) by {
      XorDigit(q, r, p, s);
      Low2(x, Digit(r, s));
    }
    assert Xor(a % 2, b % 2) == Digit(r, s) by {
      Low2(q, r);
      Low2(p, s);
      XorBits(r, s);
    }
  }

  lemma LowOfXor4(q: nat, r: nat, p: nat, s: nat)
    requires r < 2 && s < 2
    ensures Xor(2 * q + r, 2 * p + s) % 4 == 2 * (Xor(q, p) % 2) + Digit(r, s)
  {
    XorDigit(q, r, p, s);
    Low4(Xor(q, p), Digit(r, s));
  }

  lemma XorOfLow4(q: nat, r: nat, p: nat, s: nat)
    requires r < 2 && s < 2
    ensures Xor((2 * q + r) % 4, (2 * p + s) % 4) == 2 * Xor(q % 2, p % 2) + Digit(r, s)
  {
    var u, v := q % 2, p % 2;
    assert (2 * q + r) % 4 == 2 * u + r by {
      Low4(q, r);
    }
    assert (2 * p + s) % 4 == 2 * v + s by {
      Low4(p, s);
    }
    XorDigit(u, r, v, s);
  }

  lemma {:induction false} XorLow4(a: nat, b: nat)
    ensures Xor(a, b) % 4 == Xor(a % 4, b % 4)
  {
    var q, r := Halves(a);
    var p, s := Halves(b);
    LowOfXor4(q, r, p, s);
    XorOfLow4(q, r, p, s);
    XorLow2(q, p);
  }

  lemma LowOfXor8(q: nat, r: nat, p: nat, s: nat)
    requires r < 2 && s < 2
    ensures Xor(2 * q + r, 2 * p + s) % 8 == 2 * (Xor(q, p) % 4) + Digit(r, s)
  {
    XorDigit(q, r, p, s);
    Low8(Xor(q, p), Digit(r, s));
  }

  lemma XorOfLow8(q: nat, r: nat, p: nat, s: nat)
    requires r < 2 && s < 2
    ensures Xor((2 * q + r) % 8, (2 * p + s) % 8) == 2 * Xor(q % 4, p % 4) + Digit(r, s)
  {
    var u, v := q % 4, p % 4;
    assert (2 * q + r) % 8 == 2 * u + r by {
      Low8(q, r);
    }
    assert (2 * p + s) % 8 == 2 * v + s by {
      Low8(p, s);
    }
    XorDigit(u, r, v, s);
  }

  lemma {:induction false} XorLow8(a: nat, b: nat)
    ensures Xor(a, b) % 8 == Xor(a % 8, b % 8)
  {
    var q, r := Halves(a);
    var p, s := Halves(b);
    LowOfXor8(q, r, p, s);
    XorOfLow8(q, r, p, s);
    XorLow4(q, p);
  }

  lemma LowOfXor16(q: nat, r: nat, p: nat, s: nat)
    requires r < 2 && s < 2
    ensures Xor(2 * q + r, 2 * p + s) % 16 == 2 * (Xor(q, p) % 8) + Digit(r, s)
  {
    XorDigit(q, r, p, s);
    Low16(Xor(q, p), Digit(r, s));
  }

  lemma XorOfLow16(q: nat, r: nat, p: nat, s: nat)
    requires r < 2 && s < 2
    ensures Xor((2 * q + r) % 16, (2 * p + s) % 16) == 2 * Xor(q % 8, p % 8) + Digit(r, s)
  {
    var u, v := q % 8, p % 8;
    assert (2 * q + r) % 16 == 2 * u + r by {
      Low16(q, r);
    }
    assert (2 * p + s) % 16 == 2 * v + s by {
      Low16(p, s);
    }
    XorDigit(u, r, v, s);
  }

  /** The low four digits of the result are those of the low four digits. */
  lemma {:induction false} XorLow(a: nat, b: nat)
    ensures Xor(a, b) % 16 == Xor(a % 16, b % 16)
  {
    var q, r := Halves(a);
    var p, s := Halves(b);
    LowOfXor16(q, r, p, s);
    XorOfLow16(q, r, p, s);
    XorLow8(q, p);
  }

  lemma {:induction false} XorCommutes(a: nat, b: nat)
    ensures Xor(a, b) == Xor(b, a)
    decreases a + b
  {
    if a != 0 && b != 0 {
      XorCommutes(a / 2, b / 2);
    }
  }

  /** Twice the same operand cancels. */
  lemma {:induction false} XorTwice(a: nat, b: nat)
    ensures Xor(Xor(a, b), b) == a
    decreases a + b
  {
    if a == 0 && b == 0 {
      XorZero(0);
    } else {
      var q, r := Halves(a);
      var p, s := Halves(b);
      XorTwice(q, p);
      OneMoreDigit(q, r, p, s, a, b);
    }
  }

  lemma OneMoreDigit(q: nat, r: nat, p: nat, s: nat, a: nat, b: nat)
    requires r < 2 && s < 2 && Xor(Xor(q, p), p) == q && a == 2 * q + r && b == 2 * p + s
    ensures Xor(Xor(a, b), b) == a
  {
    DigitOf(q, r, p, s, a, b);
    DigitOf(Xor(q, p), Digit(r, s), p, s, Xor(a, b), b);
    DigitTwice(r, s);
  }

  lemma DigitOf(x: nat, d: nat, p: nat, s: nat, a: nat, b: nat)
    requires d < 2 && s < 2 && a == 2 * x + d && b == 2 * p + s
    ensures Digit(d, s) < 2 && Xor(a, b) == 2 * Xor(x, p) + Digit(d, s)
  {
    XorDigit(x, d, p, s);
  }

  lemma DigitTwice(r: nat, s: nat)
    requires r < 2 && s < 2
    ensures Digit(Digit(r, s), s) == r
  {
  }

  /** So each operand decides the result, given the other. */
  lemma {:induction false} XorCancels(a: nat, b: nat, c: nat)
    ensures Xor(a, c) == Xor(b, c) <==> a == b
    ensures Xor(c, a) == Xor(c, b) <==> a == b
  {
    XorTwice(a, c);
    XorTwice(b, c);
    XorCommutes(a, c);
    XorCommutes(b, c);
  }

  lemma {:induction false} LowCancels(a: nat, b: nat, c: nat)
    ensures Xor(a, c) % 16 == Xor(b, c) % 16 <==> a % 16 == b % 16
    ensures Xor(c, a) % 16 == Xor(c, b) % 16 <==> a % 16 == b % 16
  {
    XorLow(a, c);
    XorLow(b, c);
    XorLow(c, a);
    XorLow(c, b);
    XorCancels(a % 16, b % 16, c % 16);
  }

  // ------------------------------------------------------------------
  // The shard of a key
  // ------------------------------------------------------------------

  /** Two outputs of one transaction share a shard if and only if their numbers agree in the low four bits. */
  lemma OutputsOfOneTx(txid: Txid, v: u32, w: u32)
    ensures ShardIndex(UtxoKey(txid, v)) == ShardIndex(UtxoKey(txid, w)) <==> v % 16 == w % 16
  {
    LowCancels(v, w, MixedBytes(txid, MIXED_POSITIONS));
  }

  lemma {:induction false} MixedAgree(t1: Txid, t2: Txid, positions: seq<nat>)
    requires forall p :: p in positions && p < 32 ==> t1[p] == t2[p]
    ensures MixedBytes(t1, positions) == MixedBytes(t2, positions)
  {
    if positions != [] {
      var before, last := positions[..|positions| - 1], positions[|positions| - 1];
      assert last in positions && forall p :: p in before ==> p in positions;
      MixedAgree(t1, t2, before);
    }
  }

  lemma {:induction false} MixedDiffer(t1: Txid, t2: Txid, positions: seq<nat>, i: nat)
    requires i < |positions| && positions[i] < 32
    requires forall j :: 0 <= j < |positions| && j != i && positions[j] < 32 ==> t1[positions[j]] == t2[positions[j]]
    ensures MixedBytes(t1, positions) % 16 == MixedBytes(t2, positions) % 16 <==>
              t1[positions[i]] % 16 == t2[positions[i]] % 16
  {
    var last := |positions| - 1;
    var before := positions[..last];
    if i == last {
      forall p | p in before && p < 32
        ensures t1[p] == t2[p]
      {
        var j :| 0 <= j < |before| && before[j] == p;
        assert positions[j] == p;
      }
      MixedAgree(t1, t2, before);
      LowCancels(t1[positions[last]], t2[positions[last]], MixedBytes(t1, before));
    } else {
      MixedDiffer(t1, t2, before, i);
      LowCancels(MixedBytes(t1, before), MixedBytes(t2, before),
                 if positions[last] < 32 then t1[positions[last]] else 0);
    }
  }

  /** Of the txid only the mixed bytes count. */
  lemma OnlyMixedBytesCount(t1: Txid, t2: Txid, v: u32)
    requires t1[0] == t2[0] && t1[7] == t2[7] && t1[15] == t2[15] && t1[23] == t2[23] && t1[31] == t2[31]
    ensures ShardIndex(UtxoKey(t1, v)) == ShardIndex(UtxoKey(t2, v))
  {
    MixedAgree(t1, t2, MIXED_POSITIONS);
  }

  /** And each of them does: two txids that agree on the others share a shard if and only if its low four bits agree. */
  lemma EachMixedByteCounts(t1: Txid, t2: Txid, v: u32, i: nat)
    requires i < 5
    requires forall j :: 0 <= j < 5 && j != i ==> t1[MIXED_POSITIONS[j]] == t2[MIXED_POSITIONS[j]]
    ensures ShardIndex(UtxoKey(t1, v)) == ShardIndex(UtxoKey(t2, v)) <==>
              t1[MIXED_POSITIONS[i]] % 16 == t2[MIXED_POSITIONS[i]] % 16
  {
    MixedDiffer(t1, t2, MIXED_POSITIONS, i);
    LowCancels(MixedBytes(t1, MIXED_POSITIONS), MixedBytes(t2, MIXED_POSITIONS), v);
  }

  /** Where the mixed bytes are zero, the output number alone counts. */
  lemma ZeroBytes(txid: Txid, v: u32)
    requires txid[0] == 0 && txid[7] == 0 && txid[15] == 0 && txid[23] == 0 && txid[31] == 0
    ensures ShardIndex(UtxoKey(txid, v)) == v % 16
  {
    MixedZero(txid, MIXED_POSITIONS);
    XorZero(v);
  }

  lemma {:induction false} MixedZero(txid: Txid, positions: seq<nat>)
    requires forall p :: p in positions && p < 32 ==> txid[p] == 0
    ensures MixedBytes(txid, positions) == 0
  {
    if positions != [] {
      var before, last := positions[..|positions| - 1], positions[|positions| - 1];
      assert last in positions && forall p :: p in before ==> p in positions;
      MixedZero(txid, before);
      XorZero(0);
    }
  }
}
