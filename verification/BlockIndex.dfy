/** The base-128 numbers of the block index and the records made of them. */
module BlockIndex {
  import opened Types

  // ------------------------------------------------------------------
  // The code
  // ------------------------------------------------------------------

  /** Every byte but the last has its high bit set. */
  predicate Code(b: seq<byte>) {
    b != [] && b[|b| - 1] < 0x80 && Continues(b[..|b| - 1])
  }

  predicate Continues(b: seq<byte>) {
    forall i :: 0 <= i < |b| ==> b[i] >= 0x80
  }

  /** The value of a code, with no bound on its size: each continuation adds one before the next seven bits. */
  function Value(b: seq<byte>): (v: int)
    ensures v >= -1 && (b != [] ==> v >= 0)
  {
    if b == [] then -1 else (Value(b[..|b| - 1]) + 1) * 0x80 + b[|b| - 1] % 0x80
  }

  /** Bitcoin Core's encoder, least significant seven bits last. */
  function Encode(n: nat): seq<byte> {
    if n < 0x80 then [n] else Continuation(n / 0x80 - 1) + [n % 0x80]
  }

  function Continuation(n: nat): seq<byte> {
    if n < 0x80 then [n + 0x80] else Continuation(n / 0x80 - 1) + [n % 0x80 + 0x80]
  }

  lemma {:induction false} ContinuationValue(n: nat)
    ensures Continues(Continuation(n)) && Continuation(n) != [] && Value(Continuation(n)) == n
  {
    if n < 0x80 {
      assert [n + 0x80][..0] == [];
    } else {
      var front := Continuation(n / 0x80 - 1);
      ContinuationValue(n / 0x80 - 1);
      assert Continuation(n)[..|front|] == front;
    }
  }

  lemma EncodeValue(n: nat)
    ensures Code(Encode(n)) && Value(Encode(n)) == n
  {
    if n < 0x80 {
      assert [n][..0] == [];
    } else {
      var front := Continuation(n / 0x80 - 1);
      ContinuationValue(n / 0x80 - 1);
      assert Encode(n)[..|front|] == front;
    }
  }

  lemma {:induction false} OnlyContinuation(b: seq<byte>)
    requires b != [] && Continues(b)
    ensures b == Continuation(Value(b))
  {
    var front, x := b[..|b| - 1], b[|b| - 1];
    assert b == front + [x];
    if front == [] {
      assert Value(b) == x % 0x80;
    } else {
      OnlyContinuation(front);
      Digits(Value(front), x % 0x80);
    }
  }

  lemma Digits(q: nat, d: nat)
    requires d < 0x80
    ensures (q + 1) * 0x80 + d >= 0x80 && ((q + 1) * 0x80 + d) / 0x80 == q + 1 && ((q + 1) * 0x80 + d) % 0x80 == d
  {
  }

  lemma EncodeOf(q: nat, d: nat)
    requires d < 0x80
    ensures Encode((q + 1) * 0x80 + d) == Continuation(q) + [d]
  {
    Digits(q, d);
  }

  lemma ValueSnoc(front: seq<byte>, x: byte)
    requires x < 0x80
    ensures Value(front + [x]) == (Value(front) + 1) * 0x80 + x
  {
    assert (front + [x])[..|front|] == front;
  }

  lemma OnlyEncode(b: seq<byte>)
    requires Code(b)
    ensures b == Encode(Value(b))
  {
    var front, x := b[..|b| - 1], b[|b| - 1];
    assert b == front + [x];
    ValueSnoc(front, x);
    if front != [] {
      OnlyContinuation(front);
      EncodeOf(Value(front), x);
    }
  }

  /** Bijection: a number has exactly one code, and a code exactly one number. */
  lemma CodesAreUnique(b: seq<byte>, n: nat)
    ensures Code(b) && Value(b) == n <==> b == Encode(n)
  {
    EncodeValue(n);
    if Code(b) {
      OnlyEncode(b);
    }
  }

  /** The least value of a code of `k` bytes. */
  function Least(k: nat): nat {
    if k <= 1 then 0 else (Least(k - 1) + 1) * 0x80
  }

  lemma {:induction false} LongerIsLarger(b: seq<byte>)
    requires b != []
    ensures Value(b) >= Least(|b|)
  {
    if |b| > 1 {
      LongerIsLarger(b[..|b| - 1]);
    }
  }

  lemma {:induction false} LeastGrows(j: nat, k: nat)
    requires j <= k
    ensures Least(j) <= Least(k)
  {
    if j < k {
      LeastGrows(j, k - 1);
    }
  }

  /** The low seven bits of each byte, read as the digits of a number to base 128, most significant first. */
  function Base128(b: seq<byte>): nat {
    if b == [] then 0 else 0x80 * Base128(b[..|b| - 1]) + b[|b| - 1] % 0x80
  }

  /** How many codes have fewer than `k` bytes: 128 of one, 128 squared of two, and so on. */
  function ShorterCodes(k: nat): nat {
    if k <= 1 then 0 else ShorterCodes(k - 1) + CodesOf(k - 1)
  }

  function CodesOf(k: nat): nat {
    if k == 0 then 1 else 0x80 * CodesOf(k - 1)
  }

  lemma {:induction false} LeastIsShorterCodes(k: nat)
    requires k >= 1
    ensures Least(k) == ShorterCodes(k) && CodesOf(k) == Least(k + 1) - Least(k)
  {
    if k > 1 {
      LeastIsShorterCodes(k - 1);
    }
  }

  /** A code stands for its number to base 128 plus the number of shorter codes. */
  lemma {:induction false} ValueCountsCodes(b: seq<byte>)
    requires b != []
    ensures Value(b) == Base128(b) + ShorterCodes(|b|)
  {
    LeastIsShorterCodes(|b|);
    var front := b[..|b| - 1];
    if front == [] {
      assert Base128(front) == 0;
    } else {
      ValueCountsCodes(front);
      LeastIsShorterCodes(|front|);
    }
  }

  /** Two codes of the source's own tests. */
  lemma KnownCodes()
    ensures Encode(128) == [0x80, 0x00] && Encode(259900) == [0x8E, 0xED, 0x3C]
  {
    assert Continuation(14) == [0x8E] && Continuation(2029) == [0x8E, 0xED];
  }

  /** A 64-bit value takes at most ten bytes. */
  lemma TenBytes(n: u64)
    ensures 1 <= |Encode(n)| <= 10
  {
    var k := |Encode(n)|;
    EncodeValue(n);
    LongerIsLarger(Encode(n));
    assert Least(4) == 0x20_4080;
    assert Least(7) == 0x408_1020_4080;
    assert Least(9) == 0x102_0408_1020_4080;
    assert Least(11) > U64_MAX;
    if k > 10 {
      LeastGrows(11, k);
    }
  }

  // ------------------------------------------------------------------
  // Decoding
  // ------------------------------------------------------------------

  /** The position of the first byte that ends a code, or the length. */
  function End(data: seq<byte>): (k: nat)
    ensures k <= |data| && (k < |data| ==> data[k] < 0x80)
    ensures Continues(data[..k])
  {
    if data == [] || data[0] < 0x80 then 0
    else
      var k := End(data[1..]);
      assert forall i :: 0 < i < k + 1 ==> data[i] == data[1..][..k][i - 1];
      k + 1
  }

  /** The value at the front of `data` and the bytes it takes. */
  function Decoded(data: seq<byte>): (r: Option<(u64, nat)>)
    ensures r.Some? ==> 0 < r.value.1 <= |data|
  {
    var k := End(data);
    if k < |data| && Value(data[..k + 1]) <= U64_MAX then Some((Value(data[..k + 1]), k + 1)) else None
  }

  /** Decoding succeeds precisely on a terminated code whose value fits in 64 bits, and gives that value. */
  lemma DecodedIff(data: seq<byte>, v: nat, k: nat)
    requires k <= |data|
    ensures Decoded(data) == Some((v, k)) <==> Code(data[..k]) && Value(data[..k]) == v && v <= U64_MAX
  {
    var e := End(data);
    if Code(data[..k]) {
      assert data[..k][..k - 1] == data[..k - 1];
      CodeEndsHere(data, k, e);
    }
    if Decoded(data) == Some((v, k)) {
      assert data[..k][..k - 1] == data[..e];
    }
  }

  lemma CodeEndsHere(data: seq<byte>, k: nat, e: nat)
    requires 0 < k <= |data| && e <= |data| && data[k - 1] < 0x80 && Continues(data[..k - 1])
    requires (e < |data| ==> data[e] < 0x80) && Continues(data[..e])
    ensures e == k - 1
  {
    assert forall i :: 0 <= i < k - 1 ==> data[i] == data[..k - 1][i];
    assert forall i :: 0 <= i < e ==> data[i] == data[..e][i];
  }

  /** Decoding inverts the encoder, whatever follows. */
  lemma DecodeInvertsEncode(n: u64, rest: seq<byte>)
    ensures Decoded(Encode(n) + rest) == Some((n, |Encode(n)|)) && (Encode(n) + rest)[|Encode(n)|..] == rest
  {
    EncodeValue(n);
    assert (Encode(n) + rest)[..|Encode(n)|] == Encode(n);
    DecodedIff(Encode(n) + rest, n, |Encode(n)|);
  }

  /** And there is nothing else that decodes. */
  lemma OnlyEncodedDecodes(data: seq<byte>)
    requires Decoded(data).Some?
    ensures var (v, k) := Decoded(data).value;
            data == Encode(v) + data[k..] && k == |Encode(v)| <= 10
  {
    var (v, k) := Decoded(data).value;
    DecodedIff(data, v, k);
    CodesAreUnique(data[..k], v);
    TenBytes(v);
    assert data == data[..k] + data[k..];
  }

  lemma ValueGrows(data: seq<byte>, j: nat, k: nat)
    requires 0 < j <= k <= |data|
    ensures Value(data[..j]) <= Value(data[..k])
  {
    if j < k {
      assert data[..k][..k - 1] == data[..k - 1];
      ValueGrows(data, j, k - 1);
    }
  }

  lemma EndBeyond(data: seq<byte>, j: nat)
    requires j <= |data| && Continues(data[..j])
    ensures j <= End(data)
  {
    assert forall i :: 0 <= i < j ==> data[i] == data[..j][i];
  }

  /** A value that is too large already stays too large. */
  lemma TooLarge(data: seq<byte>, j: nat)
    requires 0 < j <= |data| && Continues(data[..j - 1]) && Value(data[..j]) > U64_MAX
    ensures Decoded(data).None?
  {
    EndBeyond(data, j - 1);
    if End(data) < |data| {
      ValueGrows(data, j, End(data) + 1);
    }
  }

  method DecodeVarint(data: seq<byte>) returns (r: Result<(u64, nat), string>)
    ensures r.Success? <==> Decoded(data).Some?
    ensures r.Success? ==> r.value == Decoded(data).value
  {
    var n := 0;
    var bytesRead := 0;
    while true
      invariant bytesRead <= |data| && 0 <= n <= U64_MAX
      invariant Continues(data[..bytesRead]) && n == Value(data[..bytesRead]) + 1
      decreases |data| - bytesRead
    {
      if bytesRead >= |data| {
        EndBeyond(data, bytesRead);
        return Failure("Unexpected end of varint data");
      }
      var ch := data[bytesRead];
      bytesRead := bytesRead + 1;
      assert data[..bytesRead][..bytesRead - 1] == data[..bytesRead - 1];
      if n > U64_MAX / 0x80 {
        TooLarge(data, bytesRead);
        return Failure("Varint size too large");
      }
      n := n * 0x80 + ch % 0x80;
      if ch >= 0x80 {
        if n == U64_MAX {
          MoreIsTooLarge(data, bytesRead);
          return Failure("Varint overflow");
        }
        n := n + 1;
      } else {
        break;
      }
    }
    CodeEndsHere(data, bytesRead, End(data));
    r := Success((n, bytesRead));
  }

  lemma MoreIsTooLarge(data: seq<byte>, j: nat)
    requires 0 < j <= |data| && Continues(data[..j]) && Value(data[..j]) >= U64_MAX
    ensures Decoded(data).None?
  {
    EndBeyond(data, j);
    if End(data) < |data| {
      assert data[..j + 1][..j] == data[..j];
      ValueGrows(data, j + 1, End(data) + 1);
    }
  }

  // ------------------------------------------------------------------
  // Block records
  // ------------------------------------------------------------------

  datatype BlockIndexEntry = BlockIndexEntry(height: u32, hash: string, prevHash: string, fileNumber: u32,
                                             fileOffset: u64,
                                             blockSize: nat, txCount: u32, status: u64)

  const BLOCK_VALID_CHAIN: nat := 4
  const BLOCK_HAVE_DATA: nat := 8

  /** Whether the bit with weight `bit` is set. */
  predicate HasBit(x: nat, bit: nat)
    requires bit > 0
  {
    x / bit % 2 == 1
  }

  /** The first `n` numbers in `data` and what follows them. */
  function Numbers(data: seq<byte>, n: nat): (r: Option<(seq<u64>, seq<byte>)>)
    ensures r.Some? ==> |r.value.0| == n
  {
    if n == 0 then Some(([], data))
    else
      match Numbers(data, n - 1)
      case None => None
      case Some(p) =>
        match Decoded(p.1)
        case None => None
        case Some(d) => Some((p.0 + [d.0], p.1[d.1..]))
  }

  function Encoded(ns: seq<u64>): seq<byte> {
    if ns == [] then [] else Encoded(ns[..|ns| - 1]) + Encode(ns[|ns| - 1])
  }

  lemma OneMoreNumber(front: seq<u64>, n: u64, body: seq<byte>, rest: seq<byte>)
    requires Numbers(body + (Encode(n) + rest), |front|) == Some((front, Encode(n) + rest))
    ensures Numbers(body + Encode(n) + rest, |front| + 1) == Some((front + [n], rest))
  {
    Assoc(body, Encode(n), rest);
    DecodeInvertsEncode(n, rest);
  }

  /** Concatenated codes are read back in order, up to exactly where they end. */
  lemma {:induction false} NumbersInvertEncoded(ns: seq<u64>, rest: seq<byte>)
    ensures Numbers(Encoded(ns) + rest, |ns|) == Some((ns, rest))
  {
    if ns == [] {
      assert Encoded(ns) + rest == rest;
    } else {
      var front, n := ns[..|ns| - 1], ns[|ns| - 1];
      var body := Encoded(front);
      assert ns == front + [n] && Encoded(ns) == body + Encode(n);
      NumbersInvertEncoded(front, Encode(n) + rest);
      OneMoreNumber(front, n, body, rest);
    }
  }

  /** The converse: numbers can be read only where their codes stand one after the other. */
  lemma {:induction false} NumbersAreEncoded(data: seq<byte>, n: nat)
    requires Numbers(data, n).Some?
    ensures data == Encoded(Numbers(data, n).value.0) + Numbers(data, n).value.1
  {
    if n > 0 {
      var (front, tail) := Numbers(data, n - 1).value;
      NumbersAreEncoded(data, n - 1);
      OnlyEncodedDecodes(tail);
      var (v, w) := Decoded(tail).value;
      assert (front + [v])[..|front|] == front;
      Assoc(Encoded(front), Encode(v), tail[w..]);
    }
  }

  /** Version, height, status, transaction count, file number and offset. */
  const FIELDS: nat := 6

  /** The entry that six numbers stand for; heights, counts and file numbers are cut to 32 bits. */
  function EntryOf(hash: string, ns: seq<u64>): BlockIndexEntry
    requires |ns| == FIELDS
  {
    BlockIndexEntry(ns[1] % 0x1_0000_0000, hash, "", ns[4] % 0x1_0000_0000, ns[5], 0, ns[3] % 0x1_0000_0000, ns[2])
  }

  predicate Accepted(status: u64) {
    HasBit(status, BLOCK_VALID_CHAIN) || HasBit(status, BLOCK_HAVE_DATA)
  }

  /** What a record stands for: nothing unless it begins with six numbers and one of the two status bits is set. */
  function Record(hash: string, data: seq<byte>): Option<BlockIndexEntry> {
    match Numbers(data, FIELDS)
    case None => None
    case Some(p) => if Accepted(p.0[2]) then Some(EntryOf(hash, p.0)) else None
  }

  /** The cursor stands just after the numbers `ns`. */
  ghost predicate Past(data: seq<byte>, ns: seq<u64>, cursor: nat) {
    cursor <= |data| && Numbers(data, |ns|) == Some((ns, data[cursor..]))
  }

  /** Reads the number at the cursor and moves on. */
  method ReadVarint(data: seq<byte>, cursor: nat, ghost before: seq<u64>) returns (r: Result<(u64, nat), string>)
    requires |before| < FIELDS && Past(data, before, cursor)
    ensures r.Success? ==> cursor < r.value.1 && Past(data, before + [r.value.0], r.value.1)
    ensures r.Failure? ==> Numbers(data, FIELDS).None?
  {
    var d := DecodeVarint(data[cursor..]);
    if d.Failure? {
      StuckNumbers(data, |before| + 1, FIELDS);
      return Failure(d.error);
    }
    assert data[cursor..][d.value.1..] == data[cursor + d.value.1..];
    r := Success((d.value.0, cursor + d.value.1));
  }

  lemma {:induction false} StuckNumbers(data: seq<byte>, i: nat, n: nat)
    requires i <= n && Numbers(data, i).None?
    ensures Numbers(data, n).None?
    decreases n - i
  {
    if i < n {
      StuckNumbers(data, i, n - 1);
    }
  }

  method ParseBlockRecord(hash: string, data: seq<byte>) returns (r: Result<BlockIndexEntry, string>)
    ensures r.Success? <==> Record(hash, data).Some?
    ensures r.Success? ==> r.value == Record(hash, data).value
  {
    var head :- ReadHead(data);
    var ns := head.0;
    if ns[2] / BLOCK_VALID_CHAIN % 2 == 0 && ns[2] / BLOCK_HAVE_DATA % 2 == 0 {
      StatusIsThird(data, ns);
      return Failure("Block not on main chain or no data");
    }
    r := ReadLocation(hash, data, head.1, ns);
  }

  /** Reads version, height, status and transaction count. */
  method ReadHead(data: seq<byte>) returns (r: Result<(seq<u64>, nat), string>)
    ensures r.Success? ==> |r.value.0| == 4 && Past(data, r.value.0, r.value.1)
    ensures r.Failure? ==> Numbers(data, FIELDS).None?
  {
    assert data[0..] == data;
    var version :- ReadVarint(data, 0, []);
    var ns := [] + [version.0];
    var height :- ReadVarint(data, version.1, ns);
    ns := ns + [height.0];
    var status :- ReadVarint(data, height.1, ns);
    ns := ns + [status.0];
    var txCount :- ReadVarint(data, status.1, ns);
    r := Success((ns + [txCount.0], txCount.1));
  }

  lemma StatusIsThird(data: seq<byte>, head: seq<u64>)
    requires |head| == 4 && Numbers(data, 4).Some? && Numbers(data, 4).value.0 == head
    ensures Numbers(data, FIELDS).Some? ==> Numbers(data, FIELDS).value.0[2] == head[2]
  {
    if Numbers(data, FIELDS).Some? {
      FirstNumbers(data, 4, FIELDS, 2);
    }
  }

  /** Reads file number and offset, after the four numbers `head`. */
  method ReadLocation(hash: string, data: seq<byte>, cursor: nat, head: seq<u64>)
    returns (r: Result<BlockIndexEntry, string>)
    requires |head| == 4 && Past(data, head, cursor)
    ensures r.Success? <==> Numbers(data, FIELDS).Some?
    ensures r.Success? ==> r.value == EntryOf(hash, Numbers(data, FIELDS).value.0)
    ensures r.Success? ==> Numbers(data, FIELDS).value.0[2] == head[2]
  {
    var fileNumber :- ReadVarint(data, cursor, head);
    var fileOffset :- ReadVarint(data, fileNumber.1, head + [fileNumber.0]);
    ghost var ns := head + [fileNumber.0] + [fileOffset.0];
    assert ns[..4] == head && ns[4] == fileNumber.0 && ns[5] == fileOffset.0;
    r := Success(BlockIndexEntry(head[1] % 0x1_0000_0000, hash, "", fileNumber.0 % 0x1_0000_0000, fileOffset.0, 0,
                                 head[3] % 0x1_0000_0000, head[2]));
  }

  /** Reading more numbers does not change those before. */
  lemma {:induction false} FirstNumbers(data: seq<byte>, m: nat, n: nat, i: nat)
    requires i < m <= n && Numbers(data, n).Some?
    ensures Numbers(data, m).Some? && Numbers(data, n).value.0[i] == Numbers(data, m).value.0[i]
    decreases n - m
  {
    if m < n {
      FirstNumbers(data, m, n - 1, i);
    }
  }

  /**
    Record round trip: six numbers written one after the other parse to their
    entry, whatever follows, and nothing else parses.
    */
  lemma RecordRoundTrip(hash: string, ns: seq<u64>, rest: seq<byte>)
    requires |ns| == FIELDS
    ensures Record(hash, Encoded(ns) + rest) == if Accepted(ns[2]) then Some(EntryOf(hash, ns)) else None
    ensures |Encoded(ns)| <= 60
  {
    NumbersInvertEncoded(ns, rest);
    EncodedLength(ns);
  }

  lemma OnlyEncodedRecordsParse(hash: string, data: seq<byte>)
    requires Record(hash, data).Some?
    ensures exists ns, rest :: && |ns| == FIELDS && data == Encoded(ns) + rest && Accepted(ns[2])
                               && Record(hash, data).value == EntryOf(hash, ns)
  {
    var (ns, rest) := Numbers(data, FIELDS).value;
    NumbersAreEncoded(data, FIELDS);
    assert data == Encoded(ns) + rest;
  }

  /** The data flag alone is not required: a record that has only the chain flag parses too. */
  lemma DataFlagIsNotRequired(hash: string, height: u32, txCount: u32, file: u32, offset: u64, rest: seq<byte>)
    ensures Record(hash, Encoded([1, height, BLOCK_VALID_CHAIN, txCount, file, offset]) + rest) ==
            Some(BlockIndexEntry(height, hash, "", file, offset, 0, txCount, BLOCK_VALID_CHAIN))
    ensures !HasBit(BLOCK_VALID_CHAIN, BLOCK_HAVE_DATA)
  {
    RecordRoundTrip(hash, [1, height, BLOCK_VALID_CHAIN, txCount, file, offset], rest);
  }

  lemma {:induction false} EncodedLength(ns: seq<u64>)
    ensures |ns| <= |Encoded(ns)| <= 10 * |ns|
  {
    if ns != [] {
      EncodedLength(ns[..|ns| - 1]);
      TenBytes(ns[|ns| - 1]);
    }
  }
}
