/** The binary cache snapshot: writing it, reading it back, and what a reload restores. */
module SnapshotFile {
  import opened Types
  import opened LittleEndian
  import opened Lru
  import opened Cache
  import opened Coherence

  // ------------------------------------------------------------------
  // Entries
  // ------------------------------------------------------------------

  function TagByte(t: ScriptTypeTag): byte {
    match t
    case P2PKH => 0
    case P2SH => 1
    case P2WPKH => 2
    case P2WSH => 3
    case P2TR => 4
    case P2PK => 5
    case NullData => 6
    case Unknown => 7
  }

  function TagOf(b: byte): ScriptTypeTag {
    match b
    case 0 => P2PKH
    case 1 => P2SH
    case 2 => P2WPKH
    case 3 => P2WSH
    case 4 => P2TR
    case 5 => P2PK
    case 6 => NullData
    case _ => Unknown
  }

  /** The length is cast to 16 bits. */
  function AddressBytes(a: Option<Address>): seq<byte> {
    match a
    case None => [0]
    case Some(a) => [1] + Le(|a| % 0x1_0000, 2) + a
  }

  function FixedBytes(e: Entry): (b: seq<byte>)
    ensures |b| == 49
  {
    e.key.txid + Le(e.key.vout, 4) + Le(e.value.outputIndex, 4) + Le(e.value.amount, 8) + [TagByte(e.value.scriptType)]
  }

  function EntryBytes(e: Entry): seq<byte> {
    FixedBytes(e) + AddressBytes(e.value.address)
  }

  function EntriesBytes(es: seq<Entry>): seq<byte> {
    if es == [] then [] else EntriesBytes(es[..|es| - 1]) + EntryBytes(es[|es| - 1])
  }

  /** Reads one entry: the entry and what follows it, or None at the end of data or on a bad string. */
  function ParseEntry(data: seq<byte>, utf8: seq<byte> -> bool): (r: Option<(Entry, seq<byte>)>)
    ensures r.Some? ==> |r.value.1| < |data|
  {
    if |data| < 50 then None
    else
      var key := UtxoKey(data[..32], From32(data[32..36]));
      var index, amount, tag := From32(data[36..40]), From64(data[40..48]), TagOf(data[48]);
      if data[49] != 1 then Some((Entry(key, CachedOutput(index, amount, tag, None)), data[50..]))
      else if |data| < 52 then None
      else
        var end := 52 + From16(data[50..52]);
        if end > |data| || !utf8(data[52..end]) then None
        else Some((Entry(key, CachedOutput(index, amount, tag, Some(data[52..end]))), data[end..]))
  }

  /** Reads `n` entries: the entries and what follows them. */
  function ParseEntries(data: seq<byte>, n: nat, utf8: seq<byte> -> bool): (r: Option<(seq<Entry>, seq<byte>)>)
    ensures r.Some? ==> |r.value.1| <= |data|
  {
    if n == 0 then Some(([], data))
    else
      match ParseEntries(data, n - 1, utf8)
      case None => None
      case Some(r) =>
        match ParseEntry(r.1, utf8)
        case None => None
        case Some(e) => Some((r.0 + [e.0], e.1))
  }

  /** What the format can represent: a length that fits 16 bits, and a valid string. */
  ghost predicate Encodable(e: Entry, utf8: seq<byte> -> bool) {
    e.value.address.Some? ==> |e.value.address.value| < 0x1_0000 && utf8(e.value.address.value)
  }

  ghost predicate AllEncodable(es: seq<Entry>, utf8: seq<byte> -> bool) {
    forall i :: 0 <= i < |es| ==> Encodable(es[i], utf8)
  }

  lemma FixedFields(a: seq<byte>, b: seq<byte>, c: seq<byte>, d: seq<byte>, t: byte, after: seq<byte>)
    requires |a| == 32 && |b| == |c| == 4 && |d| == 8
    ensures var f := a + b + c + d + [t] + after;
            && f[..32] == a && f[32..36] == b && f[36..40] == c && f[40..48] == d && f[48] == t
            && f[49..] == after
  {
  }

  lemma FixedPart(e: Entry, after: seq<byte>)
    ensures var b := FixedBytes(e) + after;
            && b[..32] == e.key.txid && From32(b[32..36]) == e.key.vout
            && From32(b[36..40]) == e.value.outputIndex && From64(b[40..48]) == e.value.amount
            && TagOf(b[48]) == e.value.scriptType && b[49..] == after
  {
    Widths();
    LeRoundTrip(e.key.vout, 4);
    LeRoundTrip(e.value.outputIndex, 4);
    LeRoundTrip(e.value.amount, 8);
    FixedFields(e.key.txid, Le(e.key.vout, 4), Le(e.value.outputIndex, 4), Le(e.value.amount, 8),
                TagByte(e.value.scriptType), after);
  }

  lemma AddressPart(a: Option<Address>, after: seq<byte>)
    ensures var b := AddressBytes(a) + after;
            match a
            case None => b[0] == 0 && b[1..] == after
            case Some(s) =>
              && b[0] == 1 && From16(b[1..3]) == |s| % 0x1_0000 && b[3..3 + |s|] == s && b[3 + |s|..] == after
  {
    match a
    case None =>
    case Some(s) =>
      var b := AddressBytes(a) + after;
      Widths();
      LeRoundTrip(|s| % 0x1_0000, 2);
      assert b[1..3] == Le(|s| % 0x1_0000, 2);
  }

  /** An entry parses back, whatever follows it. */
  lemma EntryRoundTrip(e: Entry, after: seq<byte>, utf8: seq<byte> -> bool)
    requires Encodable(e, utf8)
    ensures ParseEntry(EntryBytes(e) + after, utf8) == Some((e, after))
  {
    var a := AddressBytes(e.value.address);
    var data, tail := EntryBytes(e) + after, a + after;
    Assoc(FixedBytes(e), a, after);
    assert data == FixedBytes(e) + tail;
    FixedPart(e, tail);
    AddressPart(e.value.address, after);
    assert forall i :: 49 <= i < |data| ==> data[i] == tail[i - 49];
    match e.value.address {
      case None =>
        assert data[50..] == tail[1..];
      case Some(s) =>
        assert data[50..52] == tail[1..3];
        assert data[52..52 + |s|] == tail[3..3 + |s|];
        assert data[52 + |s|..] == tail[3 + |s|..];
    }
  }

  /** The format loses exactly the entries it cannot represent: the length of a longer address wraps. */
  lemma EntryRoundTripIff(e: Entry, after: seq<byte>, utf8: seq<byte> -> bool)
    ensures ParseEntry(EntryBytes(e) + after, utf8) == Some((e, after)) <==> Encodable(e, utf8)
  {
    if Encodable(e, utf8) {
      EntryRoundTrip(e, after, utf8);
    } else {
      var s := e.value.address.value;
      var data, tail := EntryBytes(e) + after, AddressBytes(e.value.address) + after;
      Assoc(FixedBytes(e), AddressBytes(e.value.address), after);
      assert data == FixedBytes(e) + tail;
      AddressPart(e.value.address, after);
      assert data[49] == tail[0] == 1;
      assert data[50..52] == tail[1..3];
      if |s| < 0x1_0000 {
        assert data[52..52 + |s|] == tail[3..3 + |s|] == s;
      }
    }
  }

  lemma OneMoreEntry(front: seq<Entry>, e: Entry, body: seq<byte>, after: seq<byte>, utf8: seq<byte> -> bool)
    requires ParseEntries(body + (EntryBytes(e) + after), |front|, utf8) == Some((front, EntryBytes(e) + after))
    requires Encodable(e, utf8)
    ensures ParseEntries(body + EntryBytes(e) + after, |front| + 1, utf8) == Some((front + [e], after))
  {
    Assoc(body, EntryBytes(e), after);
    EntryRoundTrip(e, after, utf8);
  }

  /** A list of entries parses back in order. */
  lemma {:induction false} EntriesRoundTrip(es: seq<Entry>, after: seq<byte>, utf8: seq<byte> -> bool)
    requires AllEncodable(es, utf8)
    ensures ParseEntries(EntriesBytes(es) + after, |es|, utf8) == Some((es, after))
  {
    if es == [] {
      assert EntriesBytes(es) + after == after;
    } else {
      var front, e := es[..|es| - 1], es[|es| - 1];
      var body := EntriesBytes(front);
      assert es == front + [e] && EntriesBytes(es) == body + EntryBytes(e);
      EntriesRoundTrip(front, EntryBytes(e) + after, utf8);
      OneMoreEntry(front, e, body, after, utf8);
    }
  }

  // ------------------------------------------------------------------
  // Whole files
  // ------------------------------------------------------------------

  /** The ASCII bytes of "UTXO". */
  const CACHE_FILE_MAGIC: seq<byte> := [0x55, 0x54, 0x58, 0x4F]
  const CACHE_FILE_VERSION: u32 := 1
  const HEADER_SIZE: nat := 24

  function Header(count: nat, height: u32, crc: u32): (h: seq<byte>)
    ensures |h| == HEADER_SIZE
  {
    CACHE_FILE_MAGIC + Le(CACHE_FILE_VERSION, 4) + Le(count, 8) + Le(height, 4) + Le(crc, 4)
  }

  function AllEntries(c: CacheState, n: nat): seq<Entry>
    requires n <= |c.shards|
  {
    if n == 0 then [] else AllEntries(c, n - 1) + c.shards[n - 1].entries
  }

  function FileOf(es: seq<Entry>, height: u32, crc: seq<byte> -> u32): seq<byte> {
    Framed(|es|, height, crc, EntriesBytes(es))
  }

  function Framed(count: nat, height: u32, crc: seq<byte> -> u32, body: seq<byte>): seq<byte> {
    Header(count % 0x1_0000_0000_0000_0000, height, crc(body)) + body
  }

  /** What follows the header. */
  function Body(data: seq<byte>): seq<byte>
    requires HEADER_SIZE <= |data|
  {
    data[HEADER_SIZE..]
  }

  predicate GoodHeader(data: seq<byte>) {
    |data| >= HEADER_SIZE && data[..4] == CACHE_FILE_MAGIC && From32(data[4..8]) == CACHE_FILE_VERSION
  }

  /** The entries of a file that passes every check; the checksum covers the entries read. */
  function ParseFile(data: seq<byte>, crc: seq<byte> -> u32, utf8: seq<byte> -> bool): Option<seq<Entry>> {
    if !GoodHeader(data) then None
    else
      match ParseEntries(Body(data), From64(data[8..16]), utf8)
      case None => None
      case Some(r) =>
        if crc(Body(data)[..|Body(data)| - |r.1|]) == From32(data[20..24]) then Some(r.0) else None
  }

  lemma HeaderAndBody(h: seq<byte>, body: seq<byte>)
    requires |h| == HEADER_SIZE
    ensures var data := h + body;
            && data[..4] == h[..4] && data[4..8] == h[4..8] && data[8..16] == h[8..16] && data[20..24] == h[20..24]
            && Body(data) == body
  {
  }

  lemma FieldsInFront(h: seq<byte>, body: seq<byte>)
    requires |h| == HEADER_SIZE
    ensures var data := h + body;
            && (GoodHeader(h) ==> GoodHeader(data)) && From64(data[8..16]) == From64(h[8..16])
            && From32(data[20..24]) == From32(h[20..24]) && Body(data) == body
  {
    HeaderAndBody(h, body);
  }

  lemma FiveParts(a: seq<byte>, b: seq<byte>, c: seq<byte>, d: seq<byte>, e: seq<byte>)
    requires |a| == |b| == |d| == |e| == 4 && |c| == 8
    ensures var h := a + b + c + d + e;
            h[..4] == a && h[4..8] == b && h[8..16] == c && h[16..20] == d && h[20..24] == e
  {
  }

  lemma HeaderFields(count: u64, height: u32, crc: u32)
    ensures var h := Header(count, height, crc);
            && GoodHeader(h) && From64(h[8..16]) == count && From32(h[20..24]) == crc
  {
    Widths();
    LeRoundTrip(CACHE_FILE_VERSION, 4);
    LeRoundTrip(count, 8);
    LeRoundTrip(crc, 4);
    FiveParts(CACHE_FILE_MAGIC, Le(CACHE_FILE_VERSION, 4), Le(count, 8), Le(height, 4), Le(crc, 4));
  }

  /** The header, field by field: "UTXO", version 1, entry count, height, checksum. */
  lemma HeaderLayout(count: u64, height: u32, crc: u32)
    ensures var h := Header(count, height, crc);
            && h[..4] == [0x55, 0x54, 0x58, 0x4F] && h[4..8] == [1, 0, 0, 0]
            && h[8..16] == Le(count, 8) && h[16..20] == Le(height, 4) && h[20..24] == Le(crc, 4)
  {
    FiveParts(CACHE_FILE_MAGIC, Le(CACHE_FILE_VERSION, 4), Le(count, 8), Le(height, 4), Le(crc, 4));
    assert Le(1, 4) == [1] + Le(0, 3) && Le(0, 3) == [0] + Le(0, 2) && Le(0, 2) == [0] + Le(0, 1) && Le(0, 1) == [0];
  }

  /** An entry, field by field: txid, output number, index, amount, type, and whether an address follows. */
  lemma EntryLayout(e: Entry)
    ensures var b := EntryBytes(e);
            && |b| >= 50 && b[..32] == e.key.txid
            && b[32..36] == Le(e.key.vout, 4) && b[36..40] == Le(e.value.outputIndex, 4)
            && b[40..48] == Le(e.value.amount, 8) && b[48] == TagByte(e.value.scriptType)
            && (b[49] == 1 <==> e.value.address.Some?)
  {
    FixedFields(e.key.txid, Le(e.key.vout, 4), Le(e.value.outputIndex, 4), Le(e.value.amount, 8),
                TagByte(e.value.scriptType), AddressBytes(e.value.address));
  }

  lemma FitsIn64(x: u64)
    ensures x % 0x1_0000_0000_0000_0000 == x
  {
  }

  lemma FramedFields(count: u64, height: u32, crc: seq<byte> -> u32, body: seq<byte>)
    ensures var data := Framed(count, height, crc, body);
            && GoodHeader(data) && Body(data) == body
            && From64(data[8..16]) == count && From32(data[20..24]) == crc(body)
  {
    FitsIn64(count);
    HeaderFields(count, height, crc(body));
    FieldsInFront(Header(count, height, crc(body)), body);
  }

  lemma CheckedFileParses(data: seq<byte>, es: seq<Entry>, crc: seq<byte> -> u32, utf8: seq<byte> -> bool)
    requires GoodHeader(data) && From64(data[8..16]) == |es| && From32(data[20..24]) == crc(Body(data))
    requires ParseEntries(Body(data), |es|, utf8) == Some((es, []))
    ensures ParseFile(data, crc, utf8) == Some(es)
  {
    assert Body(data)[..|Body(data)|] == Body(data);
  }

  /** A saved file parses to the saved entries, in order. */
  lemma FileRoundTrip(es: seq<Entry>, height: u32, crc: seq<byte> -> u32, utf8: seq<byte> -> bool)
    requires AllEncodable(es, utf8)
    requires |es| <= U64_MAX
    ensures ParseFile(FileOf(es, height, crc), crc, utf8) == Some(es)
  {
    var data, body := FileOf(es, height, crc), EntriesBytes(es);
    assert ParseEntries(body, |es|, utf8) == Some((es, [])) by {
      EntriesRoundTrip(es, [], utf8);
      assert body + [] == body;
    }
    FramedFields(|es|, height, crc, body);
    CheckedFileParses(data, es, crc, utf8);
  }

  // ------------------------------------------------------------------
  // What a load rejects
  // ------------------------------------------------------------------

  /**
    Well-formed entries under any header of the right kind load if and only if the header's
    checksum is that of their bytes; what follows the entries is not looked at.
    */
  lemma LoadsIffChecksumAgrees(es: seq<Entry>, height: u32, c: u32, extra: seq<byte>, crc: seq<byte> -> u32,
                               utf8: seq<byte> -> bool)
    requires AllEncodable(es, utf8) && |es| <= U64_MAX
    ensures ParseFile(Header(|es|, height, c) + (EntriesBytes(es) + extra), crc, utf8) ==
            if c == crc(EntriesBytes(es)) then Some(es) else None
  {
    var body := EntriesBytes(es);
    var h := Header(|es|, height, c);
    HeaderFields(|es|, height, c);
    FieldsInFront(h, body + extra);
    EntriesRoundTrip(es, extra, utf8);
    CheckedIff(h + (body + extra), es, body, extra, c, crc, utf8);
  }

  lemma CheckedIff(data: seq<byte>, es: seq<Entry>, body: seq<byte>, extra: seq<byte>, c: u32, crc: seq<byte> -> u32,
                   utf8: seq<byte> -> bool)
    requires GoodHeader(data) && From64(data[8..16]) == |es| && From32(data[20..24]) == c && Body(data) == body + extra
    requires ParseEntries(body + extra, |es|, utf8) == Some((es, extra))
    ensures ParseFile(data, crc, utf8) == if c == crc(body) then Some(es) else None
  {
    assert (body + extra)[..|body|] == body;
  }

  /** A file without a whole header, or with another magic or version, loads nothing. */
  lemma OtherHeadersAreRejected(data: seq<byte>, crc: seq<byte> -> u32, utf8: seq<byte> -> bool)
    requires |data| < 24 || data[..4] != [0x55, 0x54, 0x58, 0x4F] || data[4..8] != [1, 0, 0, 0]
    ensures ParseFile(data, crc, utf8) == None
  {
    if |data| >= 24 && From32(data[4..8]) == 1 {
      var v := data[4..8];
      LeInverse(v);
      HeaderLayout(0, 0, 0);
      FiveParts(CACHE_FILE_MAGIC, Le(CACHE_FILE_VERSION, 4), Le(0, 8), Le(0, 4), Le(0, 4));
      assert v == Le(1, 4) == [1, 0, 0, 0];
    }
  }

  lemma EntryCut(e: Entry, j: nat, utf8: seq<byte> -> bool)
    requires Encodable(e, utf8) && j < |EntryBytes(e)|
    ensures ParseEntry(EntryBytes(e)[..j], utf8) == None
  {
    var data, a := EntryBytes(e), AddressBytes(e.value.address);
    AddressPart(e.value.address, []);
    assert a + [] == a && data == FixedBytes(e) + a;
    if j >= 52 {
      assert data[..j][49] == a[0] && data[..j][50..52] == a[1..3];
    } else if j >= 50 {
      assert data[..j][49] == a[0];
    }
  }

  /** Well-formed entries of which the end is missing do not parse. */
  lemma {:induction false} EntriesCut(es: seq<Entry>, m: nat, utf8: seq<byte> -> bool)
    requires AllEncodable(es, utf8) && m < |EntriesBytes(es)|
    ensures ParseEntries(EntriesBytes(es)[..m], |es|, utf8) == None
  {
    var front, e := es[..|es| - 1], es[|es| - 1];
    var body := EntriesBytes(front);
    assert EntriesBytes(es) == body + EntryBytes(e);
    if m < |body| {
      assert EntriesBytes(es)[..m] == body[..m];
      EntriesCut(front, m, utf8);
    } else {
      var rest := EntryBytes(e)[..m - |body|];
      assert EntriesBytes(es)[..m] == body + rest;
      EntriesRoundTrip(front, rest, utf8);
      EntryCut(e, m - |body|, utf8);
    }
  }

  /** A saved file that is cut short anywhere loads nothing. */
  lemma CutFilesAreRejected(es: seq<Entry>, height: u32, crc: seq<byte> -> u32, n: nat, utf8: seq<byte> -> bool)
    requires AllEncodable(es, utf8) && |es| <= U64_MAX && n < |FileOf(es, height, crc)|
    ensures ParseFile(FileOf(es, height, crc)[..n], crc, utf8) == None
  {
    var body := EntriesBytes(es);
    var h := Header(|es|, height, crc(body));
    FitsIn64(|es|);
    if n >= HEADER_SIZE {
      var cut := body[..n - HEADER_SIZE];
      assert FileOf(es, height, crc)[..n] == h + cut;
      HeaderFields(|es|, height, crc(body));
      EntriesCut(es, n - HEADER_SIZE, utf8);
      NoEntriesNoFile(h, cut, |es|, crc, utf8);
    }
  }

  lemma NoEntriesNoFile(h: seq<byte>, body: seq<byte>, count: nat, crc: seq<byte> -> u32, utf8: seq<byte> -> bool)
    requires |h| == HEADER_SIZE && From64(h[8..16]) == count && ParseEntries(body, count, utf8) == None
    ensures ParseFile(h + body, crc, utf8) == None
  {
    FieldsInFront(h, body);
  }

  // ------------------------------------------------------------------
  // Reloading
  // ------------------------------------------------------------------

  function Reversed(es: seq<Entry>): seq<Entry> {
    if es == [] then [] else Reversed(es[1..]) + [es[0]]
  }

  /** Each shard receives its entries oldest first. */
  function Reloaded(c: CacheState, es: seq<Entry>): CacheState {
    c.(shards := seq(|c.shards|, t requires 0 <= t < |c.shards| => PutAll(c.shards[t], Reversed(EntriesFor(es, t)))))
  }

  /** Putting entries oldest first into an empty shard keeps the newest, in order. */
  lemma {:induction false} ReversedPutsRestore(cap: nat, es: seq<Entry>)
    requires 0 < cap && Distinct(es)
    ensures PutAll(Shard(cap, []), Reversed(es)) == Shard(cap, es[..Min(cap, |es|)])
  {
    if es != [] {
      ReversedPutsRestore(cap, es[1..]);
      assert Reversed(es)[..|Reversed(es)| - 1] == Reversed(es[1..]);
      PutInFront(cap, es);
    }
  }

  lemma PutInFront(cap: nat, es: seq<Entry>)
    requires 0 < cap && es != [] && Distinct(es)
    ensures Put(Shard(cap, es[1..][..Min(cap, |es| - 1)]), es[0].key, es[0].value) == Shard(cap, es[..Min(cap, |es|)])
  {
    var kept := es[1..][..Min(cap, |es| - 1)];
    forall e | e in kept
      ensures e.key != es[0].key
    {
      var i :| 0 <= i < |kept| && kept[i] == e;
      assert es[i + 1] == e;
    }
    assert Without(kept, es[0].key) == kept by {
      WithoutFilters(kept, es[0].key);
      assert es[0].key !in KeysOf(kept);
    }
    assert ([es[0]] + kept)[..Min(cap, |[es[0]] + kept|)] == es[..Min(cap, |es|)];
  }

  lemma {:induction false} EntriesForConcat(a: seq<Entry>, b: seq<Entry>, t: nat)
    ensures EntriesFor(a + b, t) == EntriesFor(a, t) + EntriesFor(b, t)
  {
    if b == [] {
      assert a + b == a;
    } else {
      assert (a + b)[..|a + b| - 1] == a + b[..|b| - 1];
      EntriesForConcat(a, b[..|b| - 1], t);
      Assoc(EntriesFor(a, t), EntriesFor(b[..|b| - 1], t), [b[|b| - 1]]);
    }
  }

  lemma {:induction false} EntriesForHomed(es: seq<Entry>, u: nat, t: nat)
    requires Homed(es, u)
    ensures EntriesFor(es, t) == if t == u then es else []
  {
    if es != [] {
      var before := es[..|es| - 1];
      assert forall e :: e in before ==> e in es;
      EntriesForHomed(before, u, t);
      assert es[|es| - 1] in es;
    }
  }

  lemma OneMoreShard(so: seq<Entry>, own: seq<Entry>, u: nat, t: nat)
    requires Homed(own, u) && (t >= u ==> EntriesFor(so, t) == [])
    ensures EntriesFor(so + own, t) == if t == u then own else EntriesFor(so, t)
  {
    EntriesForConcat(so, own, t);
    EntriesForHomed(own, u, t);
  }

  /** What a part of every shard's list does to the whole, if no other shard adds to it. */
  lemma {:induction false} PartOfAll(c: CacheState, n: nat, t: nat, part: seq<Entry> -> seq<Entry>)
    requires n <= |c.shards| && part([]) == []
    requires forall so, u {:trigger part(so + c.shards[u].entries)} :: 0 <= u < n && (t >= u ==> part(so) == []) ==>
               part(so + c.shards[u].entries) == if t == u then c.shards[u].entries else part(so)
    ensures part(AllEntries(c, n)) == if t < n then c.shards[t].entries else []
  {
    if n > 0 {
      PartOfAll(c, n - 1, t, part);
      assert AllEntries(c, n) == AllEntries(c, n - 1) + c.shards[n - 1].entries;
    }
  }

  lemma EntriesForAll(c: CacheState, n: nat, t: nat)
    requires n <= |c.shards|
    requires forall u :: 0 <= u < n ==> Homed(c.shards[u].entries, u)
    ensures EntriesFor(AllEntries(c, n), t) == if t < n then c.shards[t].entries else []
  {
    var part := (es: seq<Entry>) => EntriesFor(es, t);
    forall so, u | 0 <= u < n && (t >= u ==> part(so) == [])
      ensures part(so + c.shards[u].entries) == if t == u then c.shards[u].entries else part(so)
    {
      OneMoreShard(so, c.shards[u].entries, u, t);
    }
    PartOfAll(c, n, t, part);
  }

  lemma ShardRestored(c: CacheState, fresh0: CacheState, t: nat)
    requires ValidCache(c) && ValidCache(fresh0) && t < NUM_SHARDS && fresh0.shards[t].entries == []
    ensures Reloaded(fresh0, AllEntries(c, NUM_SHARDS)).shards[t] ==
            Shard(fresh0.shards[t].cap, c.shards[t].entries[..Min(fresh0.shards[t].cap, |c.shards[t].entries|)])
  {
    EntriesForAll(c, NUM_SHARDS, t);
    ReversedPutsRestore(fresh0.shards[t].cap, c.shards[t].entries);
    assert fresh0.shards[t] == Shard(fresh0.shards[t].cap, []);
  }

  /** Each shard of `d` holds the most recent entries of its counterpart in `c`, as many as fit. */
  ghost predicate MostRecent(c: CacheState, d: CacheState, caps: seq<nat>) {
    && |c.shards| == |d.shards| == |caps| == NUM_SHARDS
    && forall t :: 0 <= t < NUM_SHARDS ==>
      d.shards[t] == Shard(caps[t], c.shards[t].entries[..Min(caps[t], |c.shards[t].entries|)])
  }

  lemma ShardsRestored(c: CacheState, fresh0: CacheState)
    requires ValidCache(c) && ValidCache(fresh0)
    requires forall t :: 0 <= t < NUM_SHARDS ==> fresh0.shards[t].entries == []
    ensures MostRecent(c, Reloaded(fresh0, AllEntries(c, NUM_SHARDS)), Caps(fresh0))
  {
    var r := Reloaded(fresh0, AllEntries(c, NUM_SHARDS));
    forall t | 0 <= t < NUM_SHARDS
      ensures r.shards[t] == Shard(fresh0.shards[t].cap, c.shards[t].entries[..Min(fresh0.shards[t].cap,
                  |c.shards[t].entries|)])
    {
      ShardRestored(c, fresh0, t);
    }
  }

  lemma AllRestored(c: CacheState, d: CacheState)
    requires ValidCache(c) && MostRecent(c, d, Caps(c))
    ensures d.shards == c.shards
  {
    forall t | 0 <= t < NUM_SHARDS
      ensures d.shards[t] == c.shards[t]
    {
      assert Caps(c)[t] == c.shards[t].cap;
    }
  }

  /**
    Snapshot round trip: loading a saved file into an empty cache gives each shard
    precisely its most recent entries, as many as fit, values and order included.
    With shards as large as before that is everything.
    */
  lemma SnapshotRestores(c: CacheState, fresh0: CacheState, height: u32, crc: seq<byte> -> u32, utf8: seq<byte> -> bool)
    requires ValidCache(c) && ValidCache(fresh0)
    requires forall t :: 0 <= t < NUM_SHARDS ==> fresh0.shards[t].entries == []
    requires AllEncodable(AllEntries(c, NUM_SHARDS), utf8)
    requires |AllEntries(c, NUM_SHARDS)| <= U64_MAX
    ensures ParseFile(FileOf(AllEntries(c, NUM_SHARDS), height, crc), crc, utf8) == Some(AllEntries(c, NUM_SHARDS))
    ensures var r := Reloaded(fresh0, AllEntries(c, NUM_SHARDS));
            MostRecent(c, r, Caps(fresh0)) && (Caps(fresh0) == Caps(c) ==> r.shards == c.shards)
  {
    FileRoundTrip(AllEntries(c, NUM_SHARDS), height, crc, utf8);
    ShardsRestored(c, fresh0);
    if Caps(fresh0) == Caps(c) {
      AllRestored(c, Reloaded(fresh0, AllEntries(c, NUM_SHARDS)));
    }
  }

  // ------------------------------------------------------------------
  // What a reload puts in
  // ------------------------------------------------------------------

  lemma {:induction false} ReversedMembers(es: seq<Entry>)
    ensures forall e :: e in Reversed(es) <==> e in es
  {
    if es != [] {
      ReversedMembers(es[1..]);
      assert es == [es[0]] + es[1..];
    }
  }

  lemma {:induction false} EntriesForMembers(es: seq<Entry>, t: nat)
    ensures forall e :: e in EntriesFor(es, t) <==> e in es && ShardIndex(e.key) == t
  {
    if es != [] {
      EntriesForMembers(es[..|es| - 1], t);
      assert es == es[..|es| - 1] + [es[|es| - 1]];
    }
  }

  lemma ReloadedShard(c: CacheState, es: seq<Entry>, t: nat)
    requires ValidCache(c) && t < NUM_SHARDS
    ensures ValidShard(Reloaded(c, es).shards[t]) && Reloaded(c, es).shards[t].cap == c.shards[t].cap
    ensures Homed(Reloaded(c, es).shards[t].entries, t)
    ensures forall e :: e in Reloaded(c, es).shards[t].entries ==> e in c.shards[t].entries || e in es
  {
    EntriesForMembers(es, t);
    ReversedMembers(EntriesFor(es, t));
    PutAllEffect(c.shards[t], Reversed(EntriesFor(es, t)));
  }

  // ------------------------------------------------------------------
  // The methods
  // ------------------------------------------------------------------

  method SaveToFile(cache: UtxoCache, height: u32, crc: seq<byte> -> u32) returns (file: seq<byte>, written: nat)
    requires cache.Valid()
    ensures file == FileOf(AllEntries(cache.State(), NUM_SHARDS), height, crc)
    ensures written == |AllEntries(cache.State(), NUM_SHARDS)|
  {
    ghost var c := cache.State();
    var total := 0;
    for t := 0 to NUM_SHARDS
      invariant total == |AllEntries(c, t)|
    {
      total := total + |cache.shards[t].entries|;
    }
    var body: seq<byte> := [];
    written := 0;
    for t := 0 to NUM_SHARDS
      invariant body == EntriesBytes(AllEntries(c, t)) && written == |AllEntries(c, t)|
    {
      body, written := SaveShard(cache.shards[t].entries, body, written, AllEntries(c, t));
    }
    file := Framed(total, height, crc, body);
  }

  lemma {:induction false} EntriesBytesSnoc(so: seq<Entry>, es: seq<Entry>, i: nat)
    requires i < |es|
    ensures EntriesBytes(so + es[..i + 1]) == EntriesBytes(so + es[..i]) + EntryBytes(es[i])
  {
    var all := so + es[..i + 1];
    assert all[..|all| - 1] == so + es[..i];
  }

  /** Appends the entries of one shard, newest first. */
  method SaveShard(es: seq<Entry>, body0: seq<byte>, written0: nat, ghost so: seq<Entry>)
    returns (body: seq<byte>, written: nat)
    requires body0 == EntriesBytes(so)
    ensures body == EntriesBytes(so + es) && written == written0 + |es|
  {
    body, written := body0, written0;
    assert so + es[..0] == so;
    for i := 0 to |es|
      invariant body == EntriesBytes(so + es[..i]) && written == written0 + i
    {
      EntriesBytesSnoc(so, es, i);
      body := body + EntryBytes(es[i]);
      written := written + 1;
    }
    assert es[..|es|] == es;
  }

  /** Reads one entry with a moving cursor. */
  method ReadEntry(data: seq<byte>, utf8: seq<byte> -> bool) returns (r: Option<(Entry, seq<byte>)>)
    ensures r == ParseEntry(data, utf8)
  {
    if |data| < 50 {
      return None;
    }
    var pos := 0;
    var txid := data[pos..pos + 32];
    pos := pos + 32;
    var vout := From32(data[pos..pos + 4]);
    pos := pos + 4;
    var outputIndex := From32(data[pos..pos + 4]);
    pos := pos + 4;
    var amount := From64(data[pos..pos + 8]);
    pos := pos + 8;
    var scriptType := TagOf(data[pos]);
    pos := pos + 1;
    var hasAddress := data[pos];
    pos := pos + 1;
    var address := None;
    if hasAddress == 1 {
      if |data| < pos + 2 {
        return None;
      }
      var len := From16(data[pos..pos + 2]);
      pos := pos + 2;
      if pos + len > |data| || !utf8(data[pos..pos + len]) {
        return None;
      }
      address := Some(data[pos..pos + len]);
      pos := pos + len;
    }
    r := Some((Entry(UtxoKey(txid, vout), CachedOutput(outputIndex, amount, scriptType, address)), data[pos..]));
  }

  /** The first pass over the entries: nothing is inserted yet. */
  method ReadEntries(data: seq<byte>, count: nat, utf8: seq<byte> -> bool) returns (r: Option<(seq<Entry>, seq<byte>)>)
    ensures r == ParseEntries(data, count, utf8)
  {
    var rest, es := data, [];
    for i := 0 to count
      invariant ParseEntries(data, i, utf8) == Some((es, rest))
    {
      var e := ReadEntry(rest, utf8);
      if e.None? {
        NoParseBeyond(data, i + 1, count, utf8);
        return None;
      }
      es, rest := es + [e.value.0], e.value.1;
    }
    r := Some((es, rest));
  }

  /** Once an entry fails to parse, so does the whole. */
  lemma {:induction false} NoParseBeyond(data: seq<byte>, i: nat, n: nat, utf8: seq<byte> -> bool)
    requires i <= n && ParseEntries(data, i, utf8).None?
    ensures ParseEntries(data, n, utf8).None?
    decreases n - i
  {
    if i < n {
      NoParseBeyond(data, i, n - 1, utf8);
    }
  }

  method ReadFile(data: seq<byte>, crc: seq<byte> -> u32, utf8: seq<byte> -> bool) returns (r: Option<seq<Entry>>)
    ensures r == ParseFile(data, crc, utf8)
  {
    if |data| < HEADER_SIZE || data[..4] != CACHE_FILE_MAGIC || From32(data[4..8]) != CACHE_FILE_VERSION {
      return None;
    }
    var body := data[HEADER_SIZE..];
    var read := ReadEntries(body, From64(data[8..16]), utf8);
    if read.None? || crc(body[..|body| - |read.value.1|]) != From32(data[20..24]) {
      return None;
    }
    r := Some(read.value.0);
  }

  /**
    Reads and checks the whole file before it touches the cache. A missing file
    loads nothing; a file that fails a check is an error and changes nothing.
    */
  method LoadFromFile(cache: UtxoCache, file: Option<seq<byte>>, crc: seq<byte> -> u32, utf8: seq<byte> -> bool)
    returns (r: Option<nat>)
    requires cache.Valid()
    modifies cache`shards
    ensures cache.Valid() && cache.State() == AfterLoad(old(cache.State()), file, crc, utf8)
    ensures r == match file
                 case None => Some(0)
                 case Some(data) =>
                   match ParseFile(data, crc, utf8)
                   case None => None
                   case Some(es) => Some(|es|)
  {
    if file.None? {
      return Some(0);
    }
    var es := ReadFile(file.value, crc, utf8);
    if es.None? {
      return None;
    }
    PutBack(cache, es.value);
    r := Some(|es.value|);
  }

  /** The cache after an attempt to load. */
  function AfterLoad(c: CacheState, file: Option<seq<byte>>, crc: seq<byte> -> u32,
                     utf8: seq<byte> -> bool): CacheState {
    match file
    case None => c
    case Some(data) =>
      match ParseFile(data, crc, utf8)
      case None => c
      case Some(es) => Reloaded(c, es)
  }

  /** Hands every shard its entries, oldest first. */
  method PutBack(cache: UtxoCache, es: seq<Entry>)
    requires cache.Valid()
    modifies cache`shards
    ensures cache.Valid() && cache.State() == Reloaded(old(cache.State()), es)
  {
    ghost var c := cache.State();
    var perShard := GroupEntries(es);
    for t := 0 to NUM_SHARDS
      invariant |cache.shards| == NUM_SHARDS
      invariant forall u :: 0 <= u < t ==> cache.shards[u] == Reloaded(c, es).shards[u]
      invariant forall u :: t <= u < NUM_SHARDS ==> cache.shards[u] == c.shards[u]
    {
      var s := PutReversed(cache.shards[t], perShard[t]);
      cache.shards := cache.shards[t := s];
    }
    forall t | 0 <= t < NUM_SHARDS
      ensures ValidShard(cache.shards[t]) && Homed(cache.shards[t].entries, t)
    {
      ReloadedShard(c, es, t);
    }
    assert cache.shards == Reloaded(c, es).shards;
  }

  method GroupEntries(es: seq<Entry>) returns (perShard: seq<seq<Entry>>)
    ensures |perShard| == NUM_SHARDS
    ensures forall t :: 0 <= t < NUM_SHARDS ==> perShard[t] == EntriesFor(es, t)
  {
    perShard := seq(NUM_SHARDS, _ => []);
    for i := 0 to |es|
      invariant |perShard| == NUM_SHARDS
      invariant forall t :: 0 <= t < NUM_SHARDS ==> perShard[t] == EntriesFor(es[..i], t)
    {
      assert es[..i + 1][..i] == es[..i];
      var t := ShardIndex(es[i].key);
      perShard := perShard[t := perShard[t] + [es[i]]];
    }
    assert es[..|es|] == es;
  }

  method PutReversed(s0: Shard, es: seq<Entry>) returns (s: Shard)
    ensures s == PutAll(s0, Reversed(es))
  {
    s := s0;
    var i := |es|;
    while i > 0
      invariant 0 <= i <= |es|
      invariant s == PutAll(s0, Reversed(es[i..]))
    {
      i := i - 1;
      assert es[i..][1..] == es[i + 1..];
      var more := Reversed(es[i + 1..]);
      assert (more + [es[i]])[..|more|] == more;
      s := Put(s, es[i].key, es[i].value);
    }
    assert es[0..] == es;
  }
}
