/**
  One shard of the cache: the `lru` crate's map, as a most-recent-first list of
  entries with distinct keys and a capacity.
  */
module Lru {
  import opened Types

  datatype Entry = Entry(key: UtxoKey, value: CachedOutput)

  datatype Shard = Shard(cap: nat, entries: seq<Entry>)

  predicate Distinct(es: seq<Entry>) {
    forall i, j :: 0 <= i < j < |es| ==> es[i].key != es[j].key
  }

  ghost predicate ValidShard(s: Shard) {
    0 < s.cap && |s.entries| <= s.cap && Distinct(s.entries)
  }

  function KeysOf(es: seq<Entry>): set<UtxoKey> {
    set e | e in es :: e.key
  }

  /** The value stored under `k`, without promoting it. */
  function Peek(es: seq<Entry>, k: UtxoKey): Option<CachedOutput> {
    if es == [] then None
    else if es[0].key == k then Some(es[0].value)
    else Peek(es[1..], k)
  }

  /** The entries other than `k`, in order. */
  function Without(es: seq<Entry>, k: UtxoKey): seq<Entry> {
    if es == [] then []
    else if es[0].key == k then Without(es[1..], k)
    else [es[0]] + Without(es[1..], k)
  }

  /**
    `LruCache::put`: a present key gets the new value and moves to the front; a
    new key goes to the front and, on a full shard, pushes the oldest entry out.
    */
  function Put(s: Shard, k: UtxoKey, v: CachedOutput): Shard {
    var es := [Entry(k, v)] + Without(s.entries, k);
    s.(entries := es[..Min(s.cap, |es|)])
  }

  /** `LruCache::get`: promotes a present key, changes nothing for an absent one. */
  function Touch(s: Shard, k: UtxoKey): Shard {
    match Peek(s.entries, k)
    case None => s
    case Some(v) => s.(entries := [Entry(k, v)] + Without(s.entries, k))
  }

  /** `LruCache::pop`. */
  function Pop(s: Shard, k: UtxoKey): Shard {
    s.(entries := Without(s.entries, k))
  }

  lemma PeekFinds(es: seq<Entry>, k: UtxoKey)
    ensures Peek(es, k).Some? ==> Entry(k, Peek(es, k).value) in es
    ensures Peek(es, k).Some? <==> k in KeysOf(es)
  {
    if es != [] {
      PeekFinds(es[1..], k);
      assert es == [es[0]] + es[1..];
    }
  }

  lemma PeekOfEntry(es: seq<Entry>, e: Entry)
    requires Distinct(es) && e in es
    ensures Peek(es, e.key) == Some(e.value)
  {
    if es[0] != e {
      assert e in es[1..];
      PeekOfEntry(es[1..], e);
    }
  }

  lemma WithoutFilters(es: seq<Entry>, k: UtxoKey)
    ensures forall e :: e in Without(es, k) <==> e in es && e.key != k
    ensures KeysOf(Without(es, k)) == KeysOf(es) - {k}
    ensures |Without(es, k)| <= |es|
    ensures k in KeysOf(es) ==> |Without(es, k)| < |es|
    ensures k !in KeysOf(es) ==> Without(es, k) == es
  {
    if es != [] {
      WithoutFilters(es[1..], k);
      assert es == [es[0]] + es[1..];
    }
  }

  lemma WithoutDistinct(es: seq<Entry>, k: UtxoKey)
    requires Distinct(es)
    ensures Distinct(Without(es, k))
    ensures k in KeysOf(es) ==> |Without(es, k)| == |es| - 1
  {
    if es != [] {
      WithoutDistinct(es[1..], k);
      WithoutFilters(es[1..], k);
      assert es == [es[0]] + es[1..];
    }
  }

  lemma PeekWithout(es: seq<Entry>, k: UtxoKey, j: UtxoKey)
    ensures Peek(Without(es, k), j) == if j == k then None else Peek(es, j)
  {
    if es != [] {
      PeekWithout(es[1..], k, j);
    }
  }

  lemma PeekPrefix(es: seq<Entry>, n: nat, j: UtxoKey)
    requires n <= |es|
    ensures Peek(es[..n], j).Some? ==> Peek(es, j) == Peek(es[..n], j)
  {
    if 0 < n && es[0].key != j {
      assert es[..n][1..] == es[1..][..n - 1];
      PeekPrefix(es[1..], n - 1, j);
    }
  }

  lemma DistinctCons(e: Entry, es: seq<Entry>)
    requires Distinct(es) && e.key !in KeysOf(es)
    ensures Distinct([e] + es)
  {
    var all := [e] + es;
    forall i, j | 0 <= i < j < |all|
      ensures all[i].key != all[j].key
    {
      assert all[j] == es[j - 1] && es[j - 1] in es;
    }
  }

  /** Where the entry of a held key stands. */
  lemma PlaceOf(es: seq<Entry>, k: UtxoKey) returns (n: nat)
    requires k in KeysOf(es)
    ensures n < |es| && es[n].key == k
  {
    var e :| e in es && e.key == k;
    n :| 0 <= n < |es| && es[n] == e;
  }

  lemma {:induction false} WithoutMiddle(a: seq<Entry>, e: Entry, b: seq<Entry>)
    requires e.key !in KeysOf(a) && e.key !in KeysOf(b)
    ensures Without(a + [e] + b, e.key) == a + b
  {
    WithoutFilters(a, e.key);
    WithoutFilters(b, e.key);
    assert [e][1..] == [];
    WithoutConcat(a, [e], e.key);
    WithoutConcat(a + [e], b, e.key);
  }

  /** Taking out the entry at `n` closes the gap and keeps the others in their order. */
  lemma {:induction false} WithoutAt(es: seq<Entry>, n: nat)
    requires Distinct(es) && n < |es|
    ensures Without(es, es[n].key) == es[..n] + es[n + 1..]
  {
    NotAmong(es[..n], es[n].key);
    NotAmong(es[n + 1..], es[n].key);
    WithoutMiddle(es[..n], es[n], es[n + 1..]);
    assert es == es[..n] + [es[n]] + es[n + 1..];
  }

  lemma NotAmong(es: seq<Entry>, k: UtxoKey)
    requires forall i :: 0 <= i < |es| ==> es[i].key != k
    ensures k !in KeysOf(es)
  {
  }

  /** What `Put` does to one shard, read key by key. */
  lemma PutEffect(s: Shard, k: UtxoKey, v: CachedOutput)
    requires ValidShard(s)
    ensures ValidShard(Put(s, k, v)) && Put(s, k, v).cap == s.cap
    ensures Put(s, k, v).entries[0] == Entry(k, v)
    ensures forall e :: e in Put(s, k, v).entries ==> e == Entry(k, v) || (e in s.entries && e.key != k)
    ensures k in KeysOf(s.entries) || |s.entries| < s.cap ==> KeysOf(Put(s, k, v).entries) == KeysOf(s.entries) + {k}
  {
    var rest := Without(s.entries, k);
    WithoutFilters(s.entries, k);
    WithoutDistinct(s.entries, k);
    DistinctCons(Entry(k, v), rest);
    var es := [Entry(k, v)] + rest;
    if k in KeysOf(s.entries) || |s.entries| < s.cap {
      assert es[..Min(s.cap, |es|)] == es;
    }
  }

  /**
    And to the order: the key comes to the front, and the others follow as they were, without
    its old entry; if it is new and the shard full, without the oldest.
    */
  lemma PutOrder(s: Shard, k: UtxoKey, v: CachedOutput)
    requires ValidShard(s)
    ensures forall n :: 0 <= n < |s.entries| && s.entries[n].key == k ==>
              Put(s, k, v).entries == [Entry(k, v)] + s.entries[..n] + s.entries[n + 1..]
    ensures k !in KeysOf(s.entries) ==> Put(s, k, v).entries == [Entry(k, v)] + s.entries[..Min(s.cap - 1, |s.entries|)]
  {
    forall n | 0 <= n < |s.entries| && s.entries[n].key == k
      ensures Put(s, k, v).entries == [Entry(k, v)] + s.entries[..n] + s.entries[n + 1..]
    {
      WithoutAt(s.entries, n);
    }
    WithoutFilters(s.entries, k);
  }

  /** A read leaves the map alone. */
  lemma TouchEffect(s: Shard, k: UtxoKey)
    requires ValidShard(s)
    ensures ValidShard(Touch(s, k)) && Touch(s, k).cap == s.cap
    ensures forall e :: e in Touch(s, k).entries <==> e in s.entries
    ensures forall j :: Peek(Touch(s, k).entries, j) == Peek(s.entries, j)
    ensures |Touch(s, k).entries| == |s.entries|
  {
    PeekFinds(s.entries, k);
    if Peek(s.entries, k).Some? {
      var e := Entry(k, Peek(s.entries, k).value);
      WithoutFilters(s.entries, k);
      WithoutDistinct(s.entries, k);
      DistinctCons(e, Without(s.entries, k));
      forall f | f in s.entries && f.key == k
        ensures f == e
      {
        PeekOfEntry(s.entries, f);
      }
      forall j
        ensures Peek(Touch(s, k).entries, j) == Peek(s.entries, j)
      {
        PeekWithout(s.entries, k, j);
      }
    }
  }

  /** And brings the key, if it is held, to the front, before the others as they were. */
  lemma TouchOrder(s: Shard, k: UtxoKey)
    requires ValidShard(s)
    ensures forall n :: 0 <= n < |s.entries| && s.entries[n].key == k ==>
              Touch(s, k).entries == [s.entries[n]] + s.entries[..n] + s.entries[n + 1..]
    ensures k !in KeysOf(s.entries) ==> Touch(s, k) == s
  {
    PeekFinds(s.entries, k);
    forall n | 0 <= n < |s.entries| && s.entries[n].key == k
      ensures Touch(s, k).entries == [s.entries[n]] + s.entries[..n] + s.entries[n + 1..]
    {
      assert s.entries[n] in s.entries;
      PeekOfEntry(s.entries, s.entries[n]);
      WithoutAt(s.entries, n);
    }
  }

  lemma PopEffect(s: Shard, k: UtxoKey)
    requires ValidShard(s)
    ensures ValidShard(Pop(s, k)) && Pop(s, k).cap == s.cap
    ensures forall e :: e in Pop(s, k).entries <==> e in s.entries && e.key != k
    ensures |Pop(s, k).entries| == |s.entries| - if Peek(s.entries, k).Some? then 1 else 0
  {
    PeekFinds(s.entries, k);
    WithoutFilters(s.entries, k);
    WithoutDistinct(s.entries, k);
  }

  /** What stays keeps its order. */
  lemma PopOrder(s: Shard, k: UtxoKey)
    requires ValidShard(s)
    ensures forall n :: 0 <= n < |s.entries| && s.entries[n].key == k ==>
              Pop(s, k).entries == s.entries[..n] + s.entries[n + 1..]
    ensures k !in KeysOf(s.entries) ==> Pop(s, k) == s
  {
    WithoutFilters(s.entries, k);
    forall n | 0 <= n < |s.entries| && s.entries[n].key == k
      ensures Pop(s, k).entries == s.entries[..n] + s.entries[n + 1..]
    {
      WithoutAt(s.entries, n);
    }
  }

  /** Puts a list of entries, first to last. */
  function PutAll(s: Shard, es: seq<Entry>): Shard {
    if es == [] then s
    else Put(PutAll(s, es[..|es| - 1]), es[|es| - 1].key, es[|es| - 1].value)
  }

  lemma {:induction false} PutAllEffect(s: Shard, es: seq<Entry>)
    requires ValidShard(s)
    ensures ValidShard(PutAll(s, es)) && PutAll(s, es).cap == s.cap
    ensures forall e :: e in PutAll(s, es).entries ==> e in s.entries || e in es
  {
    if es != [] {
      var before, e := es[..|es| - 1], es[|es| - 1];
      assert es == before + [e];
      PutAllEffect(s, before);
      PutEffect(PutAll(s, before), e.key, e.value);
    }
  }

  lemma {:induction false} PutAllConcat(s: Shard, a: seq<Entry>, b: seq<Entry>)
    ensures PutAll(s, a + b) == PutAll(PutAll(s, a), b)
  {
    if b == [] {
      assert a + b == a;
    } else {
      assert (a + b)[..|a + b| - 1] == a + b[..|b| - 1];
      PutAllConcat(s, a, b[..|b| - 1]);
    }
  }

  /**
    Recency: as long as the distinct keys put so far fit, they are precisely the
    newest entries of the shard, so none of them has been evicted.
    */
  lemma {:induction false} RecentKeysSurvive(s: Shard, es: seq<Entry>)
    requires ValidShard(s) && |KeysOf(es)| <= s.cap
    ensures ValidShard(PutAll(s, es)) && PutAll(s, es).cap == s.cap
    ensures |KeysOf(es)| <= |PutAll(s, es).entries|
    ensures KeysOf(PutAll(s, es).entries[..|KeysOf(es)|]) == KeysOf(es)
  {
    if es == [] {
      assert PutAll(s, es).entries[..0] == [];
    } else {
      var before := es[..|es| - 1];
      var e := es[|es| - 1];
      assert es == before + [e];
      assert KeysOf(es) == KeysOf(before) + {e.key};
      if e.key in KeysOf(before) {
        assert KeysOf(es) == KeysOf(before);
      }
      RecentKeysSurvive(s, before);
      FrontStaysFront(PutAll(s, before), KeysOf(before), e);
    }
  }

  /** The entries put after the last one with key `k`. */
  function AfterLast(es: seq<Entry>, k: UtxoKey): seq<Entry> {
    if es == [] || es[|es| - 1].key == k then [] else AfterLast(es[..|es| - 1], k) + [es[|es| - 1]]
  }

  lemma {:induction false} LastSplits(es: seq<Entry>, k: UtxoKey) returns (n: nat)
    requires k in KeysOf(es)
    ensures n < |es| && es[n].key == k && AfterLast(es, k) == es[n + 1..] && k !in KeysOf(es[n + 1..])
  {
    var last := |es| - 1;
    if es[last].key == k {
      n := last;
      assert es[n + 1..] == [];
    } else {
      var before := es[..last];
      assert es == before + [es[last]];
      n := LastSplits(before, k);
      assert es[n + 1..] == before[n + 1..] + [es[last]];
    }
  }

  /** As many distinct other keys as the shard has places push a key out, whatever else happens. */
  lemma {:induction false} PushedOut(s: Shard, es: seq<Entry>, k: UtxoKey)
    requires ValidShard(s) && k !in KeysOf(es) && |KeysOf(es)| >= s.cap
    ensures k !in KeysOf(PutAll(s, es).entries)
  {
    var before, e := es[..|es| - 1], es[|es| - 1];
    assert es == before + [e];
    assert KeysOf(es) == KeysOf(before) + {e.key};
    if |KeysOf(before)| >= s.cap {
      PushedOut(s, before, k);
      PutAllEffect(s, before);
      PutEffect(PutAll(s, before), e.key, e.value);
      assert forall f :: f in PutAll(s, before).entries ==> f.key in KeysOf(PutAll(s, before).entries);
    } else {
      RecentKeysSurvive(s, es);
      var all := PutAll(s, es).entries;
      assert all[..|KeysOf(es)|] == all;
    }
  }

  /**
    Which keys an LRU shard still holds, exactly: a key that was put is held if and
    only if fewer than `cap` distinct other keys were put after it last was.
    */
  lemma HeldIff(s: Shard, es: seq<Entry>, k: UtxoKey)
    requires ValidShard(s) && k in KeysOf(es)
    ensures k in KeysOf(PutAll(s, es).entries) <==> |KeysOf(AfterLast(es, k))| < s.cap
  {
    var n := LastSplits(es, k);
    var after := es[n + 1..];
    assert es == es[..n] + es[n..];
    assert es[n..] == [es[n]] + after;
    PutAllConcat(s, es[..n], es[n..]);
    var s1 := PutAll(s, es[..n]);
    PutAllEffect(s, es[..n]);
    ConsKeys(es[n], after);
    if |KeysOf(after)| < s.cap {
      RecentKeysSurvive(s1, es[n..]);
      var all := PutAll(s1, es[n..]).entries;
      assert k in KeysOf(all[..|KeysOf(es[n..])|]);
      assert forall e :: e in all[..|KeysOf(es[n..])|] ==> e in all;
    } else {
      PutAllConcat(s1, [es[n]], after);
      PutAllEffect(s1, [es[n]]);
      PushedOut(PutAll(s1, [es[n]]), after, k);
    }
  }

  // ------------------------------------------------------------------
  // Puts and reads mixed
  // ------------------------------------------------------------------

  datatype Use = PutOf(entry: Entry) | GetOf(key: UtxoKey)

  function UseOne(s: Shard, u: Use): Shard {
    match u
    case PutOf(e) => Put(s, e.key, e.value)
    case GetOf(k) => Touch(s, k)
  }

  function UseAll(s: Shard, us: seq<Use>): Shard {
    if us == [] then s else UseOne(UseAll(s, us[..|us| - 1]), us[|us| - 1])
  }

  /** The entries that were put or hit, in the order in which they were; a read that misses does nothing. */
  function Used(s: Shard, us: seq<Use>): seq<Entry> {
    if us == [] then []
    else
      var before, u := us[..|us| - 1], us[|us| - 1];
      match u
      case PutOf(e) => Used(s, before) + [e]
      case GetOf(k) =>
        match Peek(UseAll(s, before).entries, k)
        case Some(v) => Used(s, before) + [Entry(k, v)]
        case None => Used(s, before)
  }

  /** A hit is like putting the held value again. */
  lemma HitIsPut(s: Shard, k: UtxoKey)
    requires ValidShard(s) && Peek(s.entries, k).Some?
    ensures Touch(s, k) == Put(s, k, Peek(s.entries, k).value)
  {
    PeekFinds(s.entries, k);
    var n := PlaceOf(s.entries, k);
    WithoutAt(s.entries, n);
  }

  lemma {:induction false} UseIsPut(s: Shard, us: seq<Use>)
    requires ValidShard(s)
    ensures UseAll(s, us) == PutAll(s, Used(s, us)) && ValidShard(UseAll(s, us))
  {
    if us != [] {
      var before, u := us[..|us| - 1], us[|us| - 1];
      UseIsPut(s, before);
      PutAllEffect(s, Used(s, us));
      match u
      case PutOf(e) =>
        assert (Used(s, before) + [e])[..|Used(s, before)|] == Used(s, before);
      case GetOf(k) =>
        var held := UseAll(s, before);
        if Peek(held.entries, k).Some? {
          var e := Entry(k, Peek(held.entries, k).value);
          HitIsPut(held, k);
          assert (Used(s, before) + [e])[..|Used(s, before)|] == Used(s, before);
        }
    }
  }

  /**
    Which keys are held after any puts and reads, exactly: a key that was put or hit is held if
    and only if fewer than `cap` distinct other keys were put or hit after it last was.
    */
  lemma HeldAfterUsesIff(s: Shard, us: seq<Use>, k: UtxoKey)
    requires ValidShard(s) && k in KeysOf(Used(s, us))
    ensures k in KeysOf(UseAll(s, us).entries) <==> |KeysOf(AfterLast(Used(s, us), k))| < s.cap
  {
    UseIsPut(s, us);
    HeldIff(s, Used(s, us), k);
  }

  /** A shard with two places: put a, put b, read a, put c. The read saves a, and b goes. */
  lemma ReadSaves(a: Entry, b: Entry, c: Entry)
    requires a.key != b.key && b.key != c.key && a.key != c.key
    ensures UseAll(Shard(2, []), [PutOf(a), PutOf(b), GetOf(a.key), PutOf(c)]).entries == [c, a]
  {
    var empty := Shard(2, []);
    TwoPlaces(a, b, c);
    assert UseAll(empty, [PutOf(a)]) == Put(empty, a.key, a.value) by {
      UseSnoc(empty, [], PutOf(a));
      assert [] + [PutOf(a)] == [PutOf(a)];
    }
    assert UseAll(empty, [PutOf(a), PutOf(b)]) == Shard(2, [b, a]) by {
      UseSnoc(empty, [PutOf(a)], PutOf(b));
      assert [PutOf(a)] + [PutOf(b)] == [PutOf(a), PutOf(b)];
    }
    assert UseAll(empty, [PutOf(a), PutOf(b), GetOf(a.key)]) == Shard(2, [a, b]) by {
      UseSnoc(empty, [PutOf(a), PutOf(b)], GetOf(a.key));
      assert [PutOf(a), PutOf(b)] + [GetOf(a.key)] == [PutOf(a), PutOf(b), GetOf(a.key)];
    }
    UseSnoc(empty, [PutOf(a), PutOf(b), GetOf(a.key)], PutOf(c));
    assert [PutOf(a), PutOf(b), GetOf(a.key)] + [PutOf(c)] == [PutOf(a), PutOf(b), GetOf(a.key), PutOf(c)];
  }

  lemma TwoPlaces(a: Entry, b: Entry, c: Entry)
    requires a.key != b.key && b.key != c.key && a.key != c.key
    ensures Put(Put(Shard(2, []), a.key, a.value), b.key, b.value) == Shard(2, [b, a])
    ensures Touch(Shard(2, [b, a]), a.key) == Shard(2, [a, b])
    ensures Put(Shard(2, [a, b]), c.key, c.value) == Shard(2, [c, a])
  {
    assert Put(Shard(2, []), a.key, a.value) == Shard(2, [a]) by {
      PutOrder(Shard(2, []), a.key, a.value);
    }
    assert Put(Shard(2, [a]), b.key, b.value) == Shard(2, [b, a]) by {
      PutOrder(Shard(2, [a]), b.key, b.value);
    }
    assert Touch(Shard(2, [b, a]), a.key) == Shard(2, [a, b]) by {
      TouchOrder(Shard(2, [b, a]), a.key);
      assert [b, a][1].key == a.key;
    }
    assert Put(Shard(2, [a, b]), c.key, c.value) == Shard(2, [c, a]) by {
      PutOrder(Shard(2, [a, b]), c.key, c.value);
    }
  }

  lemma UseSnoc(s: Shard, us: seq<Use>, u: Use)
    ensures UseAll(s, us + [u]) == UseOne(UseAll(s, us), u)
  {
    assert (us + [u])[..|us|] == us;
  }

  /** One step of `RecentKeysSurvive`: putting a key keeps the recent ones at the front. */
  lemma FrontStaysFront(s: Shard, recent: set<UtxoKey>, e: Entry)
    requires ValidShard(s) && |recent| <= |s.entries|
    requires KeysOf(s.entries[..|recent|]) == recent
    requires |recent + {e.key}| <= s.cap
    ensures ValidShard(Put(s, e.key, e.value)) && Put(s, e.key, e.value).cap == s.cap
    ensures |recent + {e.key}| <= |Put(s, e.key, e.value).entries|
    ensures KeysOf(Put(s, e.key, e.value).entries[..|recent + {e.key}|]) == recent + {e.key}
  {
    assert ValidShard(Put(s, e.key, e.value)) && Put(s, e.key, e.value).cap == s.cap by {
      PutEffect(s, e.key, e.value);
    }
    var front, back := s.entries[..|recent|], s.entries[|recent|..];
    var kept := [e] + Without(front, e.key);
    assert [e] + Without(s.entries, e.key) == kept + Without(back, e.key) by {
      assert s.entries == front + back;
      WithoutConcat(front, back, e.key);
    }
    KeptFront(front, recent, e);
    PrefixOfPrefix(kept, Without(back, e.key), s.cap);
  }

  lemma PrefixOfPrefix(a: seq<Entry>, b: seq<Entry>, n: nat)
    requires |a| <= n
    ensures (a + b)[..Min(n, |a + b|)][..|a|] == a
  {
  }

  lemma KeptFront(front: seq<Entry>, recent: set<UtxoKey>, e: Entry)
    requires Distinct(front) && KeysOf(front) == recent && |front| == |recent|
    ensures KeysOf([e] + Without(front, e.key)) == recent + {e.key}
    ensures |[e] + Without(front, e.key)| == |recent + {e.key}|
  {
    WithoutDistinct(front, e.key);
    WithoutFilters(front, e.key);
    ConsKeys(e, Without(front, e.key));
    if e.key in recent {
      assert recent + {e.key} == recent;
    }
  }

  lemma ConsKeys(e: Entry, es: seq<Entry>)
    ensures KeysOf([e] + es) == {e.key} + KeysOf(es)
  {
    assert forall f :: f in [e] + es <==> f == e || f in es;
  }

  lemma WithoutConcat(a: seq<Entry>, b: seq<Entry>, k: UtxoKey)
    ensures Without(a + b, k) == Without(a, k) + Without(b, k)
  {
    if a == [] {
      assert a + b == b;
    } else {
      assert (a + b)[1..] == a[1..] + b;
      WithoutConcat(a[1..], b, k);
    }
  }
}
