/** Amounts: transaction totals and the per-address groups behind PERFORMS and BENEFITS_TO. */
module Aggregation {
  import opened Types
  import opened Chain

  /** A resolved input or an output: who it belongs to, and how much it is worth. */
  datatype Credit = Credit(address: Option<Address>, amount: nat)

  datatype Total = Total(count: nat, amount: nat)

  type Resolved = map<UtxoKey, CachedOutput>

  function Plus(a: Total, b: Total): Total {
    Total(a.count + b.count, a.amount + b.amount)
  }

  function One(c: Credit): Total {
    Total(1, c.amount)
  }

  function At(g: map<Address, Total>, a: Address): Total {
    if a in g then g[a] else Total(0, 0)
  }

  function AddTo(g: map<Address, Total>, c: Credit): map<Address, Total> {
    match c.address
    case None => g
    case Some(a) => g[a := Plus(At(g, a), One(c))]
  }

  /** The hash map built by a loop over the credits. */
  function Group(cs: seq<Credit>): map<Address, Total> {
    if cs == [] then map[] else AddTo(Group(cs[..|cs| - 1]), cs[|cs| - 1])
  }

  function Sum(cs: seq<Credit>): Total {
    if cs == [] then Total(0, 0) else Plus(Sum(cs[..|cs| - 1]), One(cs[|cs| - 1]))
  }

  /** What the credits of one address (or of none) add up to. */
  function SumFor(cs: seq<Credit>, who: Option<Address>): Total {
    if cs == [] then Total(0, 0)
    else
      var before := SumFor(cs[..|cs| - 1], who);
      if cs[|cs| - 1].address == who then Plus(before, One(cs[|cs| - 1])) else before
  }

  /** Each group holds exactly the credits of its address. */
  lemma {:induction false} GroupIsPerAddress(cs: seq<Credit>, a: Address)
    ensures At(Group(cs), a) == SumFor(cs, Some(a))
    ensures a in Group(cs) <==> exists i :: 0 <= i < |cs| && cs[i].address == Some(a)
  {
    if cs != [] {
      var before, c := cs[..|cs| - 1], cs[|cs| - 1];
      GroupIsPerAddress(before, a);
      if i :| 0 <= i < |before| && before[i].address == Some(a) {
        assert cs[i].address == Some(a);
      }
    }
  }

  // ------------------------------------------------------------------
  // Sums over the groups
  // ------------------------------------------------------------------

  ghost function SumMap(g: map<Address, Total>): Total
    decreases |g|
  {
    if g == map[] then Total(0, 0)
    else
      var a :| a in g;
      Plus(g[a], SumMap(g - {a}))
  }

  lemma {:induction false} SumMapRemove(g: map<Address, Total>, a: Address)
    requires a in g
    ensures SumMap(g) == Plus(g[a], SumMap(g - {a}))
    decreases |g|
  {
    var b :| b in g && SumMap(g) == Plus(g[b], SumMap(g - {b}));
    if a != b {
      assert a in g - {b} && (g - {b})[a] == g[a];
      assert b in g - {a} && (g - {a})[b] == g[b];
      SumMapRemove(g - {b}, a);
      SumMapRemove(g - {a}, b);
      assert g - {b} - {a} == g - {a} - {b};
      assert SumMap(g - {b}) == Plus(g[a], SumMap(g - {b} - {a}));
      assert SumMap(g) == Plus(g[b], Plus(g[a], SumMap(g - {a} - {b})));
    }
  }

  lemma {:induction false} SumMapAdd(g: map<Address, Total>, c: Credit)
    ensures SumMap(AddTo(g, c)) == if c.address.Some? then Plus(SumMap(g), One(c)) else SumMap(g)
  {
    if c.address.Some? {
      var a := c.address.value;
      SumMapRemove(AddTo(g, c), a);
      if a in g {
        SumMapRemove(g, a);
        assert AddTo(g, c) - {a} == g - {a};
      } else {
        assert AddTo(g, c) - {a} == g;
      }
    }
  }

  /** Grouping loses nothing: the groups and the unaddressed credits make up the whole. */
  lemma {:induction false} GroupsConserve(cs: seq<Credit>)
    ensures Plus(SumMap(Group(cs)), SumFor(cs, None)) == Sum(cs)
  {
    if cs != [] {
      var before, c := cs[..|cs| - 1], cs[|cs| - 1];
      GroupsConserve(before);
      SumMapAdd(Group(before), c);
    }
  }

  // ------------------------------------------------------------------
  // Transactions
  // ------------------------------------------------------------------

  /** The credits behind a transaction's inputs; keys that were not resolved are skipped. */
  function InputCredits(keys: seq<UtxoKey>, m: Resolved): seq<Credit> {
    if keys == [] then []
    else
      var before, k := keys[..|keys| - 1], keys[|keys| - 1];
      if k in m then InputCredits(before, m) + [Credit(m[k].address, m[k].amount)] else InputCredits(before, m)
  }

  function OutputCredits(tx: Tx, n: nat): seq<Credit>
    requires n <= |tx.outputs|
  {
    seq(n, i requires 0 <= i < n => Credit(tx.outputs[i].address, tx.outputs[i].value))
  }

  function TxInCredits(tx: Tx, m: Resolved): seq<Credit> {
    InputCredits(TxKeys(tx), m)
  }

  function TxOutCredits(tx: Tx): seq<Credit> {
    OutputCredits(tx, |tx.outputs|)
  }

  function SaturatingSub(a: nat, b: nat): nat {
    if a < b then 0 else a - b
  }

  function RowWith(p: Pending, totalInput: nat): TransactionData {
    var totalOutput := Sum(TxOutCredits(p.tx)).amount;
    TransactionData(p.tx.txid, p.height, p.blockHash, p.time, p.tx.details, IsCoinbase(p.tx),
                    totalInput, totalOutput, SaturatingSub(totalInput, totalOutput))
  }

  function TxRow(p: Pending, m: Resolved): TransactionData {
    RowWith(p, Sum(TxInCredits(p.tx, m)).amount)
  }

  function TxRows(ps: seq<Pending>, m: Resolved): seq<TransactionData> {
    seq(|ps|, i requires 0 <= i < |ps| => TxRow(ps[i], m))
  }

  function PerformsSet(txid: Txid, g: map<Address, Total>): set<PerformsData> {
    set a | a in g :: PerformsData(a, txid, g[a].count, g[a].amount)
  }

  function BenefitsSet(txid: Txid, g: map<Address, Total>): set<BenefitsToData> {
    set a | a in g :: BenefitsToData(txid, a, g[a].count, g[a].amount)
  }

  /** The PERFORMS rows of some transactions; their order is the hash map's, so none is stated. */
  function PerformsRows(ps: seq<Pending>, m: Resolved): multiset<PerformsData> {
    if ps == [] then multiset{}
    else
      var tx := ps[|ps| - 1].tx;
      PerformsRows(ps[..|ps| - 1], m) + multiset(PerformsSet(tx.txid, Group(TxInCredits(tx, m))))
  }

  function BenefitsRows(ps: seq<Pending>): multiset<BenefitsToData> {
    if ps == [] then multiset{}
    else
      var tx := ps[|ps| - 1].tx;
      BenefitsRows(ps[..|ps| - 1]) + multiset(BenefitsSet(tx.txid, Group(TxOutCredits(tx))))
  }

  lemma TxRowsConcat(a: seq<Pending>, b: seq<Pending>, m: Resolved)
    ensures TxRows(a + b, m) == TxRows(a, m) + TxRows(b, m)
  {
  }

  lemma {:induction false} PerformsConcat(a: seq<Pending>, b: seq<Pending>, m: Resolved)
    ensures PerformsRows(a + b, m) == PerformsRows(a, m) + PerformsRows(b, m)
  {
    if b == [] {
      assert a + b == a;
    } else {
      assert (a + b)[..|a + b| - 1] == a + b[..|b| - 1];
      PerformsConcat(a, b[..|b| - 1], m);
      var tx := b[|b| - 1].tx;
      BagAssoc(PerformsRows(a, m), PerformsRows(b[..|b| - 1], m),
               multiset(PerformsSet(tx.txid, Group(TxInCredits(tx, m)))));
    }
  }

  lemma {:induction false} BenefitsConcat(a: seq<Pending>, b: seq<Pending>)
    ensures BenefitsRows(a + b) == BenefitsRows(a) + BenefitsRows(b)
  {
    if b == [] {
      assert a + b == a;
    } else {
      assert (a + b)[..|a + b| - 1] == a + b[..|b| - 1];
      BenefitsConcat(a, b[..|b| - 1]);
      var tx := b[|b| - 1].tx;
      BagAssoc(BenefitsRows(a), BenefitsRows(b[..|b| - 1]), multiset(BenefitsSet(tx.txid, Group(TxOutCredits(tx)))));
    }
  }

  // ------------------------------------------------------------------
  // Conservation, on the rows themselves
  // ------------------------------------------------------------------

  function PerformsTotal(rows: seq<PerformsData>): Total {
    if rows == [] then Total(0, 0)
    else Plus(PerformsTotal(rows[..|rows| - 1]), Total(rows[|rows| - 1].inputCount, rows[|rows| - 1].amountSpent))
  }

  function BenefitsTotal(rows: seq<BenefitsToData>): Total {
    if rows == [] then Total(0, 0)
    else Plus(BenefitsTotal(rows[..|rows| - 1]), Total(rows[|rows| - 1].outputCount, rows[|rows| - 1].amountReceived))
  }

  lemma NoPerformsRows(txid: Txid, g: map<Address, Total>)
    ensures PerformsSet(txid, g) == {} ==> g == map[]
  {
    if g != map[] {
      var a :| a in g;
      assert PerformsData(a, txid, g[a].count, g[a].amount) in PerformsSet(txid, g);
    }
  }

  lemma PerformsSetRemove(txid: Txid, g: map<Address, Total>, a: Address)
    requires a in g
    ensures var row := PerformsData(a, txid, g[a].count, g[a].amount);
            && row !in PerformsSet(txid, g - {a})
            && PerformsSet(txid, g) == PerformsSet(txid, g - {a}) + {row}
            && multiset(PerformsSet(txid, g)) == multiset(PerformsSet(txid, g - {a})) + multiset{row}
  {
    var rest := g - {a};
    assert forall b :: b in rest ==> rest[b] == g[b];
    forall r | r in PerformsSet(txid, g) && r.fromAddress != a
      ensures r in PerformsSet(txid, rest)
    {
      assert r.fromAddress in rest;
    }
  }

  lemma NoBenefitsRows(txid: Txid, g: map<Address, Total>)
    ensures BenefitsSet(txid, g) == {} ==> g == map[]
  {
    if g != map[] {
      var a :| a in g;
      assert BenefitsToData(txid, a, g[a].count, g[a].amount) in BenefitsSet(txid, g);
    }
  }

  lemma BenefitsSetRemove(txid: Txid, g: map<Address, Total>, a: Address)
    requires a in g
    ensures var row := BenefitsToData(txid, a, g[a].count, g[a].amount);
            && row !in BenefitsSet(txid, g - {a})
            && BenefitsSet(txid, g) == BenefitsSet(txid, g - {a}) + {row}
            && multiset(BenefitsSet(txid, g)) == multiset(BenefitsSet(txid, g - {a})) + multiset{row}
  {
    var rest := g - {a};
    assert forall b :: b in rest ==> rest[b] == g[b];
    forall r | r in BenefitsSet(txid, g) && r.toAddress != a
      ensures r in BenefitsSet(txid, rest)
    {
      assert r.toAddress in rest;
    }
  }

  lemma BagCancel<T>(a: multiset<T>, b: multiset<T>, x: T)
    requires a + multiset{x} == b + multiset{x}
    ensures a == b
  {
    assert a == (a + multiset{x}) - multiset{x};
    assert b == (b + multiset{x}) - multiset{x};
  }

  lemma {:induction false} PerformsRowsSumToGroups(txid: Txid, g: map<Address, Total>, rows: seq<PerformsData>)
    requires multiset(rows) == multiset(PerformsSet(txid, g))
    ensures PerformsTotal(rows) == SumMap(g)
    decreases |rows|
  {
    if rows == [] {
      assert |multiset(PerformsSet(txid, g))| == 0;
      assert PerformsSet(txid, g) == {};
      NoPerformsRows(txid, g);
    } else {
      var before, r := rows[..|rows| - 1], rows[|rows| - 1];
      assert rows == before + [r];
      assert r in multiset(rows);
      assert r in PerformsSet(txid, g);
      var rest := g - {r.fromAddress};
      PerformsSetRemove(txid, g, r.fromAddress);
      BagCancel(multiset(before), multiset(PerformsSet(txid, rest)), r);
      PerformsRowsSumToGroups(txid, rest, before);
      SumMapRemove(g, r.fromAddress);
    }
  }

  lemma {:induction false} BenefitsRowsSumToGroups(txid: Txid, g: map<Address, Total>, rows: seq<BenefitsToData>)
    requires multiset(rows) == multiset(BenefitsSet(txid, g))
    ensures BenefitsTotal(rows) == SumMap(g)
    decreases |rows|
  {
    if rows == [] {
      assert |multiset(BenefitsSet(txid, g))| == 0;
      assert BenefitsSet(txid, g) == {};
      NoBenefitsRows(txid, g);
    } else {
      var before, r := rows[..|rows| - 1], rows[|rows| - 1];
      assert rows == before + [r];
      assert r in multiset(rows);
      assert r in BenefitsSet(txid, g);
      var rest := g - {r.toAddress};
      BenefitsSetRemove(txid, g, r.toAddress);
      BagCancel(multiset(before), multiset(BenefitsSet(txid, rest)), r);
      BenefitsRowsSumToGroups(txid, rest, before);
      SumMapRemove(g, r.toAddress);
    }
  }

  /**
    Value conservation for one transaction, whatever order its rows are written
    in: PERFORMS amounts and unaddressed resolved inputs make up `totalInput`,
    BENEFITS_TO amounts and unaddressed outputs make up `totalOutput`.
    */
  lemma ValueConservation(p: Pending, m: Resolved, performs: seq<PerformsData>, benefits: seq<BenefitsToData>)
    requires multiset(performs) == PerformsRows([p], m)
    requires multiset(benefits) == BenefitsRows([p])
    ensures PerformsTotal(performs).amount + SumFor(TxInCredits(p.tx, m), None).amount == TxRow(p, m).totalInput
    ensures PerformsTotal(performs).count + SumFor(TxInCredits(p.tx, m), None).count == |TxInCredits(p.tx, m)|
    ensures BenefitsTotal(benefits).amount + SumFor(TxOutCredits(p.tx), None).amount == TxRow(p, m).totalOutput
    ensures BenefitsTotal(benefits).count + SumFor(TxOutCredits(p.tx), None).count == |p.tx.outputs|
    ensures forall i, j :: 0 <= i < j < |performs| ==> performs[i].fromAddress != performs[j].fromAddress
    ensures forall i, j :: 0 <= i < j < |benefits| ==> benefits[i].toAddress != benefits[j].toAddress
  {
    assert [p][..0] == [];
    var gi, go := Group(TxInCredits(p.tx, m)), Group(TxOutCredits(p.tx));
    PerformsRowsSumToGroups(p.tx.txid, gi, performs);
    BenefitsRowsSumToGroups(p.tx.txid, go, benefits);
    GroupsConserve(TxInCredits(p.tx, m));
    GroupsConserve(TxOutCredits(p.tx));
    SumCounts(TxInCredits(p.tx, m));
    SumCounts(TxOutCredits(p.tx));
    SetAsSequence(performs, PerformsSet(p.tx.txid, gi));
    SetAsSequence(benefits, BenefitsSet(p.tx.txid, go));
    forall i | 0 <= i < |performs|
      ensures performs[i] in PerformsSet(p.tx.txid, gi)
    {
      assert performs[i] in multiset(performs);
    }
    forall i | 0 <= i < |benefits|
      ensures benefits[i] in BenefitsSet(p.tx.txid, go)
    {
      assert benefits[i] in multiset(benefits);
    }
  }

  lemma SumCounts(cs: seq<Credit>)
    ensures Sum(cs).count == |cs|
  {
  }

  /** A sequence that lists a set has no repetition. */
  lemma SetAsSequence<T>(xs: seq<T>, s: set<T>)
    requires multiset(xs) == multiset(s)
    ensures forall i, j :: 0 <= i < j < |xs| ==> xs[i] != xs[j]
  {
    forall i, j | 0 <= i < j < |xs|
      ensures xs[i] != xs[j]
    {
      CountTwice(xs, i, j);
    }
  }

  lemma CountTwice<T>(xs: seq<T>, i: nat, j: nat)
    requires i < j < |xs|
    ensures xs[i] == xs[j] ==> multiset(xs)[xs[i]] >= 2
  {
    var ys := xs[..j] + xs[j + 1..];
    assert xs == xs[..j] + [xs[j]] + xs[j + 1..];
    assert ys[i] == xs[i];
    assert xs[i] in multiset(ys);
    assert multiset(xs) == multiset(ys) + multiset{xs[j]};
  }

  // ------------------------------------------------------------------
  // Resolving against the truth
  // ------------------------------------------------------------------

  /** A cached value is right about the amount and, when `exact`, about everything. */
  predicate Matches(v: CachedOutput, truth: CachedOutput, exact: bool) {
    v.amount == truth.amount && (exact ==> v == truth)
  }

  ghost predicate Sound(m: Resolved, out: Resolved, exact: bool) {
    forall k :: k in m ==> k in out && Matches(m[k], out[k], exact)
  }

  lemma {:induction false} AmountNeverExceeds(keys: seq<UtxoKey>, m: Resolved, out: Resolved)
    requires Sound(m, out, false)
    ensures Sum(InputCredits(keys, m)).amount <= Sum(InputCredits(keys, out)).amount
    ensures (forall k :: k in keys ==> k in m) ==>
              Sum(InputCredits(keys, m)).amount == Sum(InputCredits(keys, out)).amount
  {
    if keys != [] {
      AmountNeverExceeds(keys[..|keys| - 1], m, out);
    }
  }

  lemma {:induction false} FullResolution(keys: seq<UtxoKey>, m: Resolved, out: Resolved)
    requires Sound(m, out, true)
    requires forall k :: k in keys ==> k in m
    ensures InputCredits(keys, m) == InputCredits(keys, out)
  {
    if keys != [] {
      FullResolution(keys[..|keys| - 1], m, out);
    }
  }

  /** With every input resolved exactly, the rows are those of the true outputs. */
  lemma {:induction false} RowsAreTrue(ps: seq<Pending>, m: Resolved, out: Resolved)
    requires Sound(m, out, true)
    requires forall k :: k in SpentKeys(ps) ==> k in m
    ensures TxRows(ps, m) == TxRows(ps, out)
    ensures PerformsRows(ps, m) == PerformsRows(ps, out)
  {
    if ps != [] {
      var before, p := ps[..|ps| - 1], ps[|ps| - 1];
      assert ps == before + [p];
      RowsAreTrue(before, m, out);
      FullResolution(TxKeys(p.tx), m, out);
      TxRowsConcat(before, [p], m);
      TxRowsConcat(before, [p], out);
    }
  }

  /** With every input resolved to its true amount, the transaction rows are the true ones. */
  lemma AmountsAreTrue(ps: seq<Pending>, m: Resolved, out: Resolved)
    requires Sound(m, out, false)
    requires forall k :: k in SpentKeys(ps) ==> k in m
    ensures TxRows(ps, m) == TxRows(ps, out)
  {
    forall i | 0 <= i < |ps|
      ensures TxRow(ps[i], m) == TxRow(ps[i], out)
    {
      KeysOfOneTx(ps, i);
      AmountNeverExceeds(TxKeys(ps[i].tx), m, out);
    }
  }

  /** A key whose loss does not change an amount. */
  ghost predicate Harmless(k: UtxoKey, m: Resolved, out: Resolved) {
    k in m || k !in out || out[k].amount == 0
  }

  lemma AddedAmount(keys: seq<UtxoKey>, k: UtxoKey, m: Resolved)
    ensures Sum(InputCredits(keys + [k], m)).amount == Sum(InputCredits(keys, m)).amount + if k in m then m[k].amount
            else 0
  {
    assert (keys + [k])[..|keys|] == keys;
    if k in m {
      var c := Credit(m[k].address, m[k].amount);
      assert (InputCredits(keys, m) + [c])[..|InputCredits(keys, m)|] == InputCredits(keys, m);
    }
  }

  /** An input sum is exact if and only if every key left unresolved is worth nothing. */
  lemma {:induction false} AmountExactIff(keys: seq<UtxoKey>, m: Resolved, out: Resolved)
    requires Sound(m, out, false)
    ensures Sum(InputCredits(keys, m)).amount == Sum(InputCredits(keys, out)).amount <==>
              forall k :: k in keys ==> Harmless(k, m, out)
  {
    if keys != [] {
      var before, k := keys[..|keys| - 1], keys[|keys| - 1];
      assert keys == before + [k];
      AmountExactIff(before, m, out);
      AmountNeverExceeds(before, m, out);
      AddedAmount(before, k, m);
      AddedAmount(before, k, out);
      assert Harmless(k, m, out) <==> (if k in m then m[k].amount else 0) == (if k in out then out[k].amount else 0);
      OneMoreHarmless(before, k, m, out);
    }
  }

  lemma OneMoreHarmless(keys: seq<UtxoKey>, k: UtxoKey, m: Resolved, out: Resolved)
    ensures (forall j :: j in keys + [k] ==> Harmless(j, m, out)) <==>
              Harmless(k, m, out) && forall j :: j in keys ==> Harmless(j, m, out)
  {
    assert forall j :: j in keys + [k] <==> j in keys || j == k;
  }

  lemma {:induction false} SpentKeyOrigin(ps: seq<Pending>, k: UtxoKey) returns (i: nat)
    requires k in SpentKeys(ps)
    ensures i < |ps| && k in TxKeys(ps[i].tx)
  {
    if k in TxKeys(ps[|ps| - 1].tx) {
      i := |ps| - 1;
    } else {
      i := SpentKeyOrigin(ps[..|ps| - 1], k);
    }
  }

  /** Transaction rows are the true ones if and only if every spent key left unresolved is worth nothing. */
  lemma TxRowsExactIff(ps: seq<Pending>, m: Resolved, out: Resolved)
    requires Sound(m, out, false)
    ensures TxRows(ps, m) == TxRows(ps, out) <==> forall k :: k in SpentKeys(ps) ==> Harmless(k, m, out)
  {
    if forall k :: k in SpentKeys(ps) ==> Harmless(k, m, out) {
      forall i | 0 <= i < |ps|
        ensures TxRow(ps[i], m) == TxRow(ps[i], out)
      {
        KeysOfOneTx(ps, i);
        AmountExactIff(TxKeys(ps[i].tx), m, out);
      }
    } else {
      var k :| k in SpentKeys(ps) && !Harmless(k, m, out);
      var i := SpentKeyOrigin(ps, k);
      AmountExactIff(TxKeys(ps[i].tx), m, out);
      assert TxRows(ps, m)[i].totalInput != TxRows(ps, out)[i].totalInput;
    }
  }

  lemma {:induction false} KeysOfOneTx(ps: seq<Pending>, i: nat)
    requires i < |ps|
    ensures forall k :: k in TxKeys(ps[i].tx) ==> k in SpentKeys(ps)
  {
    if i < |ps| - 1 {
      KeysOfOneTx(ps[..|ps| - 1], i);
    }
  }

  /** Rows whose input total may fall short of the truth but never exceeds it. */
  ghost predicate Bounded(rows: seq<TransactionData>, ps: seq<Pending>, out: Resolved) {
    && |rows| == |ps|
    && forall i :: 0 <= i < |rows| ==>
         && rows[i] == RowWith(ps[i], rows[i].totalInput)
         && rows[i].totalInput <= TxRow(ps[i], out).totalInput
  }

  lemma RowsAreBounded(ps: seq<Pending>, m: Resolved, out: Resolved)
    requires Sound(m, out, false)
    ensures Bounded(TxRows(ps, m), ps, out)
  {
    forall i | 0 <= i < |ps|
      ensures TxRow(ps[i], m).totalInput <= TxRow(ps[i], out).totalInput
    {
      AmountNeverExceeds(TxKeys(ps[i].tx), m, out);
    }
  }

  // ------------------------------------------------------------------
  // The loops
  // ------------------------------------------------------------------

  /** One credit added to the hash map and to the running sum. */
  method Accumulate(g: map<Address, Total>, c: Credit) returns (r: map<Address, Total>)
    ensures r == AddTo(g, c)
  {
    r := g;
    if c.address.Some? {
      var entry := if c.address.value in r then r[c.address.value] else Total(0, 0);
      r := r[c.address.value := Total(entry.count + 1, entry.amount + c.amount)];
    }
  }

  /** Drains the hash map in whatever order it iterates. */
  method DrainPerforms(txid: Txid, g: map<Address, Total>) returns (rows: seq<PerformsData>)
    ensures multiset(rows) == multiset(PerformsSet(txid, g))
  {
    rows := [];
    var rest := g;
    while rest != map[]
      invariant rest.Keys <= g.Keys && forall a :: a in rest ==> rest[a] == g[a]
      invariant multiset(rows) + multiset(PerformsSet(txid, rest)) == multiset(PerformsSet(txid, g))
      decreases |rest|
    {
      var a :| a in rest;
      var row := PerformsData(a, txid, rest[a].count, rest[a].amount);
      PerformsSetRemove(txid, rest, a);
      rows := rows + [row];
      rest := rest - {a};
    }
  }

  method DrainBenefits(txid: Txid, g: map<Address, Total>) returns (rows: seq<BenefitsToData>)
    ensures multiset(rows) == multiset(BenefitsSet(txid, g))
  {
    rows := [];
    var rest := g;
    while rest != map[]
      invariant rest.Keys <= g.Keys && forall a :: a in rest ==> rest[a] == g[a]
      invariant multiset(rows) + multiset(BenefitsSet(txid, rest)) == multiset(BenefitsSet(txid, g))
      decreases |rest|
    {
      var a :| a in rest;
      var row := BenefitsToData(txid, a, rest[a].count, rest[a].amount);
      BenefitsSetRemove(txid, rest, a);
      rows := rows + [row];
      rest := rest - {a};
    }
  }

  /** The amounts of one transaction's inputs and its PERFORMS rows. */
  method SumInputs(tx: Tx, keys: seq<UtxoKey>, m: Resolved) returns (total: nat, rows: seq<PerformsData>)
    requires keys == TxKeys(tx)
    ensures total == Sum(TxInCredits(tx, m)).amount
    ensures multiset(rows) == multiset(PerformsSet(tx.txid, Group(TxInCredits(tx, m))))
  {
    var g: map<Address, Total> := map[];
    total := 0;
    for i := 0 to |keys|
      invariant total == Sum(InputCredits(keys[..i], m)).amount
      invariant g == Group(InputCredits(keys[..i], m))
    {
      assert keys[..i + 1][..i] == keys[..i];
      if keys[i] in m {
        var c := Credit(m[keys[i]].address, m[keys[i]].amount);
        var cs := InputCredits(keys[..i], m);
        assert (cs + [c])[..|cs|] == cs;
        total := total + c.amount;
        g := Accumulate(g, c);
      }
    }
    assert keys[..|keys|] == keys;
    rows := DrainPerforms(tx.txid, g);
  }

  /** The output rows of one transaction, their sum and its BENEFITS_TO rows. */
  method SumOutputs(tx: Tx) returns (outputs: seq<OutputData>, total: nat, rows: seq<BenefitsToData>)
    ensures outputs == TxOutputRows(tx, |tx.outputs|)
    ensures total == Sum(TxOutCredits(tx)).amount
    ensures multiset(rows) == multiset(BenefitsSet(tx.txid, Group(TxOutCredits(tx))))
  {
    var g: map<Address, Total> := map[];
    outputs, total := [], 0;
    for i := 0 to |tx.outputs|
      invariant outputs == TxOutputRows(tx, i)
      invariant total == Sum(OutputCredits(tx, i)).amount
      invariant g == Group(OutputCredits(tx, i))
    {
      var c := Credit(tx.outputs[i].address, tx.outputs[i].value);
      assert OutputCredits(tx, i + 1)[..i] == OutputCredits(tx, i);
      outputs := outputs + [OutputRow(tx.txid, tx.outputs[i], i)];
      total := total + c.amount;
      g := Accumulate(g, c);
    }
    rows := DrainBenefits(tx.txid, g);
  }
}
