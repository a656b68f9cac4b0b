/** The frames of a block file, read one after the other, at an offset, or at an indexed position. */
module Framing {
  import opened Types
  import opened LittleEndian
  import opened Chain

  const MAX_BLOCK: nat := 4_000_000

  type Deserializer = seq<byte> -> Option<Block>

  datatype Frame =
    | AtEnd
    | Padding
    | InvalidMagic
    | InvalidSize(size: nat)
    | Truncated
    | Undecodable
    | Framed(block: Block, next: nat)

  predicate Zeros(b: seq<byte>) {
    forall i :: 0 <= i < |b| ==> b[i] == 0
  }

  /** What stands at `pos`. */
  function FrameAt(data: seq<byte>, magic: seq<byte>, pos: nat, decode: Deserializer): Frame {
    if pos + 8 > |data| then AtEnd
    else if data[pos..pos + 4] != magic then
      if Zeros(data[pos..pos + 4]) then Padding else InvalidMagic
    else
      var size := From32(data[pos + 4..pos + 8]);
      if size == 0 || size > MAX_BLOCK then InvalidSize(size)
      else if pos + 8 + size > |data| then Truncated
      else
        match decode(data[pos + 8..pos + 8 + size])
        case None => Undecodable
        case Some(b) => Framed(b, pos + 8 + size)
  }

  /** Where the cursor goes: past the header before the size is checked, past the block once it is decoded. */
  function Advanced(pos: nat, f: Frame): nat {
    match f
    case Framed(_, next) => next
    case InvalidSize(_) => pos + 8
    case Truncated => pos + 8
    case Undecodable => pos + 8
    case _ => pos
  }

  function Answer(f: Frame): Result<Option<Block>, Frame> {
    match f
    case Framed(b, _) => Success(Some(b))
    case AtEnd => Success(None)
    case Padding => Success(None)
    case _ => Failure(f)
  }

  /** Random access does not take padding for the end of the file. */
  function AnswerAt(f: Frame): Result<Option<Block>, Frame> {
    if f.Padding? then Failure(InvalidMagic) else Answer(f)
  }

  class BlockFileReader {
    const data: seq<byte>
    const magic: seq<byte>
    var cursor: nat
    var blocksRead: nat

    constructor (data: seq<byte>, magic: seq<byte>)
      ensures this.data == data && this.magic == magic && cursor == 0 && blocksRead == 0
    {
      this.data, this.magic, cursor, blocksRead := data, magic, 0, 0;
    }

    method NextBlock(decode: Deserializer) returns (r: Result<Option<Block>, Frame>)
      modifies this
      ensures r == Answer(FrameAt(data, magic, old(cursor), decode))
      ensures cursor == Advanced(old(cursor), FrameAt(data, magic, old(cursor), decode))
      ensures blocksRead == old(blocksRead) + if r.Success? && r.value.Some? then 1 else 0
    {
      if cursor >= |data| {
        return Success(None);
      }
      if cursor + 8 > |data| {
        return Success(None);
      }
      if data[cursor..cursor + 4] != magic {
        if Zeros(data[cursor..cursor + 4]) {
          return Success(None);
        }
        return Failure(InvalidMagic);
      }
      cursor := cursor + 4;
      var size := From32(data[cursor..cursor + 4]);
      cursor := cursor + 4;
      if size == 0 || size > MAX_BLOCK {
        return Failure(InvalidSize(size));
      }
      if cursor + size > |data| {
        return Failure(Truncated);
      }
      var b := decode(data[cursor..cursor + size]);
      if b.None? {
        return Failure(Undecodable);
      }
      cursor := cursor + size;
      blocksRead := blocksRead + 1;
      r := Success(b);
    }

    method ReadBlockAt(offset: u64, decode: Deserializer) returns (r: Result<Option<Block>, Frame>)
      ensures r == AnswerAt(FrameAt(data, magic, offset, decode))
    {
      if offset >= |data| {
        return Success(None);
      }
      if offset + 8 > |data| {
        return Success(None);
      }
      if data[offset..offset + 4] != magic {
        return Failure(InvalidMagic);
      }
      var size := From32(data[offset + 4..offset + 8]);
      if size == 0 || size > MAX_BLOCK {
        return Failure(InvalidSize(size));
      }
      if offset + 8 + size > |data| {
        return Failure(Truncated);
      }
      var b := decode(data[offset + 8..offset + 8 + size]);
      if b.None? {
        return Failure(Undecodable);
      }
      r := Success(b);
    }
  }

  /** Where the header of a block lies whose data starts at `offset`; the subtraction saturates. */
  function HeaderOf(offset: nat): nat {
    if offset < 8 then 0 else offset - 8
  }

  /** The block an index entry points to: the size in the file is trusted. */
  function LoadAt(data: seq<byte>, magic: seq<byte>, offset: nat, decode: Deserializer): Option<Block> {
    var h := HeaderOf(offset);
    if h + 8 > |data| || data[h..h + 4] != magic then None
    else
      var size := From32(data[h + 4..h + 8]);
      if h + 8 + size > |data| then None else decode(data[h + 8..h + 8 + size])
  }

  method LoadBlock(data: seq<byte>, magic: seq<byte>, offset: u64, decode: Deserializer)
    returns (r: Result<Block, Frame>)
    ensures r.Success? <==> LoadAt(data, magic, offset, decode).Some?
    ensures r.Success? ==> r.value == LoadAt(data, magic, offset, decode).value
  {
    var pos := if offset < 8 then 0 else offset - 8;
    if pos + 4 > |data| {
      return Failure(Truncated);
    }
    if data[pos..pos + 4] != magic {
      return Failure(InvalidMagic);
    }
    pos := pos + 4;
    if pos + 4 > |data| {
      return Failure(Truncated);
    }
    var size := From32(data[pos..pos + 4]);
    pos := pos + 4;
    if pos + size > |data| {
      return Failure(Truncated);
    }
    var b := decode(data[pos..pos + size]);
    if b.None? {
      return Failure(Undecodable);
    }
    r := Success(b.value);
  }

  // ------------------------------------------------------------------
  // Files of frames
  // ------------------------------------------------------------------

  /** A block that the reader takes: 1 to 4,000,000 bytes that decode. */
  predicate Readable(raw: seq<byte>, decode: Deserializer) {
    1 <= |raw| <= MAX_BLOCK && decode(raw).Some?
  }

  function FrameBytes(magic: seq<byte>, raw: seq<byte>): seq<byte> {
    magic + Le(|raw|, 4) + raw
  }

  function FileBytes(magic: seq<byte>, raws: seq<seq<byte>>): seq<byte> {
    if raws == [] then [] else FileBytes(magic, raws[..|raws| - 1]) + FrameBytes(magic, raws[|raws| - 1])
  }

  lemma FrameFields(magic: seq<byte>, size: seq<byte>, raw: seq<byte>, before: seq<byte>, after: seq<byte>)
    requires |magic| == 4 && |size| == 4
    ensures var data, pos := before + (magic + size + raw) + after, |before|;
            && pos + 8 + |raw| <= |data|
            && data[pos..pos + 4] == magic && data[pos + 4..pos + 8] == size && data[pos + 8..pos + 8 + |raw|] == raw
  {
  }

  /** A frame is read back whatever stands before and after it. */
  lemma FrameRoundTrip(magic: seq<byte>, raw: seq<byte>, before: seq<byte>, after: seq<byte>, decode: Deserializer)
    requires |magic| == 4 && Readable(raw, decode)
    ensures FrameAt(before + FrameBytes(magic, raw) + after, magic, |before|, decode) ==
            Framed(decode(raw).value, |before| + 8 + |raw|)
  {
    Widths();
    LeRoundTrip(|raw|, 4);
    FrameFields(magic, Le(|raw|, 4), raw, before, after);
  }

  /** The converse: only the frame of a readable block is read as a block. */
  lemma OnlyFramesAreRead(data: seq<byte>, magic: seq<byte>, pos: nat, decode: Deserializer)
    requires FrameAt(data, magic, pos, decode).Framed?
    ensures var next := FrameAt(data, magic, pos, decode).next;
            && pos + 8 < next <= |data|
            && data[pos..next] == FrameBytes(magic, data[pos + 8..next])
            && Readable(data[pos + 8..next], decode)
            && FrameAt(data, magic, pos, decode).block == decode(data[pos + 8..next]).value
  {
    var next := FrameAt(data, magic, pos, decode).next;
    LeInverse(data[pos + 4..pos + 8]);
    assert data[pos..next] == data[pos..pos + 4] + data[pos + 4..pos + 8] + data[pos + 8..next];
  }

  /**
    A frame of the right size whose block does not decode is an error that takes the cursor
    past the header only: the next call looks for a frame inside the block.
    */
  lemma BadBlockIsNotSkipped(magic: seq<byte>, raw: seq<byte>, before: seq<byte>, after: seq<byte>,
                             decode: Deserializer)
    requires |magic| == 4 && 1 <= |raw| <= MAX_BLOCK && decode(raw).None?
    ensures var f := FrameAt(before + FrameBytes(magic, raw) + after, magic, |before|, decode);
            && Answer(f).Failure? && Advanced(|before|, f) == |before + magic + Le(|raw|, 4)|
  {
    Widths();
    LeRoundTrip(|raw|, 4);
    FrameFields(magic, Le(|raw|, 4), raw, before, after);
  }

  /** A size of zero or above the limit is an error that takes the cursor past the header, whatever follows. */
  lemma BadSizeIsSkipped(magic: seq<byte>, size: u32, before: seq<byte>, after: seq<byte>, decode: Deserializer)
    requires |magic| == 4 && (size == 0 || size > 4_000_000)
    ensures var f := FrameAt(before + (magic + Le(size, 4)) + after, magic, |before|, decode);
            && Answer(f) == Failure(InvalidSize(size)) && Advanced(|before|, f) == |before + magic + Le(size, 4)|
  {
    Widths();
    LeRoundTrip(size, 4);
    FrameFields(magic, Le(size, 4), [], before, after);
    assert magic + Le(size, 4) + [] == magic + Le(size, 4);
  }

  ghost predicate AllReadable(raws: seq<seq<byte>>, decode: Deserializer) {
    forall i :: 0 <= i < |raws| ==> Readable(raws[i], decode)
  }

  lemma {:induction false} FileSplits(magic: seq<byte>, raws: seq<seq<byte>>, i: nat, padding: seq<byte>)
    returns (after: seq<byte>)
    requires i < |raws|
    ensures FileBytes(magic, raws) + padding == FileBytes(magic, raws[..i]) + FrameBytes(magic, raws[i]) + after
    ensures FileBytes(magic, raws[..i + 1]) == FileBytes(magic, raws[..i]) + FrameBytes(magic, raws[i])
    decreases |raws|
  {
    assert raws[..i + 1][..i] == raws[..i];
    if i == |raws| - 1 {
      after := padding;
    } else {
      var front, last := raws[..|raws| - 1], raws[|raws| - 1];
      assert front[..i] == raws[..i];
      after := FileSplits(magic, front, i, FrameBytes(magic, last) + padding);
      Assoc(FileBytes(magic, front), FrameBytes(magic, last), padding);
    }
  }

  /** Where frame `i` starts. */
  function Boundary(magic: seq<byte>, raws: seq<seq<byte>>, i: nat): nat
    requires i <= |raws|
  {
    |FileBytes(magic, raws[..i])|
  }

  lemma FrameAtBoundary(magic: seq<byte>, raws: seq<seq<byte>>, padding: seq<byte>, i: nat, decode: Deserializer)
    requires |magic| == 4 && AllReadable(raws, decode) && i < |raws|
    ensures FrameAt(FileBytes(magic, raws) + padding, magic, Boundary(magic, raws, i), decode) ==
            Framed(decode(raws[i]).value, Boundary(magic, raws, i + 1))
  {
    var after := FileSplits(magic, raws, i, padding);
    FrameRoundTrip(magic, raws[i], FileBytes(magic, raws[..i]), after, decode);
  }

  lemma PaddingIsTheEnd(magic: seq<byte>, raws: seq<seq<byte>>, padding: seq<byte>, decode: Deserializer)
    requires |magic| == 4 && !Zeros(magic) && Zeros(padding)
    ensures var f := FrameAt(FileBytes(magic, raws) + padding, magic, Boundary(magic, raws, |raws|), decode);
            f.AtEnd? || f.Padding?
  {
    var body := FileBytes(magic, raws);
    assert raws[..|raws|] == raws;
    if 8 <= |padding| {
      assert (body + padding)[|body|..|body| + 4] == padding[..4];
    }
  }

  /** The cursor after `n` calls and the answers they gave. */
  function Calls(data: seq<byte>, magic: seq<byte>, n: nat, decode: Deserializer)
    : (nat, seq<Result<Option<Block>, Frame>>)
  {
    if n == 0 then (0, [])
    else
      var (cursor, answers) := Calls(data, magic, n - 1, decode);
      var f := FrameAt(data, magic, cursor, decode);
      (Advanced(cursor, f), answers + [Answer(f)])
  }

  /** The `i`th answer: the `i`th block, and after the last the end of the file. */
  function Expected(raws: seq<seq<byte>>, i: nat, decode: Deserializer): Result<Option<Block>, Frame> {
    Success(if i < |raws| then decode(raws[i]) else None)
  }

  function ExpectedAll(raws: seq<seq<byte>>, n: nat, decode: Deserializer): seq<Result<Option<Block>, Frame>> {
    if n == 0 then [] else ExpectedAll(raws, n - 1, decode) + [Expected(raws, n - 1, decode)]
  }

  /** What one call does to the cursor and answers. */
  ghost predicate CallIs(data: seq<byte>, magic: seq<byte>, decode: Deserializer, cursor: nat, next: nat,
                         answer: Result<Option<Block>, Frame>) {
    Advanced(cursor, FrameAt(data, magic, cursor, decode)) == next
      && Answer(FrameAt(data, magic, cursor, decode)) == answer
  }

  lemma CallMeetsFrame(data: seq<byte>, magic: seq<byte>, cursor: nat, block: Block, next: nat, decode: Deserializer)
    requires FrameAt(data, magic, cursor, decode) == Framed(block, next)
    ensures CallIs(data, magic, decode, cursor, next, Success(Some(block)))
  {
  }

  lemma CallMeetsEnd(data: seq<byte>, magic: seq<byte>, cursor: nat, decode: Deserializer)
    requires FrameAt(data, magic, cursor, decode).AtEnd? || FrameAt(data, magic, cursor, decode).Padding?
    ensures CallIs(data, magic, decode, cursor, cursor, Success(None))
  {
  }

  lemma CallAt(magic: seq<byte>, raws: seq<seq<byte>>, padding: seq<byte>, n: nat, decode: Deserializer)
    requires |magic| == 4 && !Zeros(magic) && Zeros(padding) && AllReadable(raws, decode)
    ensures CallIs(FileBytes(magic, raws) + padding, magic, decode, Boundary(magic, raws, Min(n, |raws|)),
                   Boundary(magic, raws, Min(n + 1, |raws|)), Expected(raws, n, decode))
  {
    var data := FileBytes(magic, raws) + padding;
    if n < |raws| {
      FrameAtBoundary(magic, raws, padding, n, decode);
      CallMeetsFrame(data, magic, Boundary(magic, raws, n), decode(raws[n]).value, Boundary(magic, raws, n + 1),
                     decode);
    } else {
      PaddingIsTheEnd(magic, raws, padding, decode);
      CallMeetsEnd(data, magic, Boundary(magic, raws, |raws|), decode);
    }
  }

  /** Calls of which each is known by itself. */
  lemma {:induction false} CallsFollow(data: seq<byte>, magic: seq<byte>, n: nat, raws: seq<seq<byte>>,
                                       cursor: nat -> nat, decode: Deserializer)
    requires cursor(0) == 0
    requires forall m: nat {:trigger Expected(raws, m, decode)} :: m < n ==>
               CallIs(data, magic, decode, cursor(m), cursor(m + 1), Expected(raws, m, decode))
    ensures Calls(data, magic, n, decode) == (cursor(n), ExpectedAll(raws, n, decode))
  {
    if n > 0 {
      CallsFollow(data, magic, n - 1, raws, cursor, decode);
      assert CallIs(data, magic, decode, cursor(n - 1), cursor(n), Expected(raws, n - 1, decode));
    }
  }

  /**
    Framing round trip: on a file of frames followed by zeros, the calls give
    exactly the blocks, in order, and from then on the end of the file, with the
    cursor always on a frame boundary.
    */
  lemma CallsReadTheFile(magic: seq<byte>, raws: seq<seq<byte>>, padding: seq<byte>, n: nat, decode: Deserializer)
    requires |magic| == 4 && !Zeros(magic) && Zeros(padding) && AllReadable(raws, decode)
    ensures Calls(FileBytes(magic, raws) + padding, magic, n, decode) ==
            (Boundary(magic, raws, Min(n, |raws|)), ExpectedAll(raws, n, decode))
  {
    var data := FileBytes(magic, raws) + padding;
    var cursor: nat -> nat := (m: nat) => Boundary(magic, raws, Min(m, |raws|));
    assert raws[..0] == [] && cursor(0) == 0;
    forall m: nat {:trigger Expected(raws, m, decode)} | m < n
      ensures CallIs(data, magic, decode, cursor(m), cursor(m + 1), Expected(raws, m, decode))
    {
      CallAt(magic, raws, padding, m, decode);
    }
    CallsFollow(data, magic, n, raws, cursor, decode);
  }

  /**
    Random access at a boundary, and loading at the offset the index keeps, give the block that
    reading in order gives.
    */
  lemma EveryWayGivesTheBlock(magic: seq<byte>, raws: seq<seq<byte>>, padding: seq<byte>, i: nat, decode: Deserializer)
    requires |magic| == 4 && AllReadable(raws, decode) && i < |raws|
    ensures var data := FileBytes(magic, raws) + padding;
            var at := Boundary(magic, raws, i);
            && Answer(FrameAt(data, magic, at, decode)) == Success(decode(raws[i]))
            && AnswerAt(FrameAt(data, magic, at, decode)) == Success(decode(raws[i]))
            && LoadAt(data, magic, at + 8, decode) == decode(raws[i])
  {
    FrameAtBoundary(magic, raws, padding, i, decode);
    FrameGivesTheBlock(FileBytes(magic, raws) + padding, magic, Boundary(magic, raws, i), decode(raws[i]).value,
                       Boundary(magic, raws, i + 1), decode);
  }

  lemma FrameGivesTheBlock(data: seq<byte>, magic: seq<byte>, pos: nat, block: Block, next: nat, decode: Deserializer)
    requires FrameAt(data, magic, pos, decode) == Framed(block, next)
    ensures Answer(FrameAt(data, magic, pos, decode)) == AnswerAt(FrameAt(data, magic, pos, decode)) ==
              Success(Some(block))
    ensures LoadAt(data, magic, pos + 8, decode) == Some(block)
  {
    LoadAgrees(data, magic, pos, decode);
  }

  /** Loading agrees with random access wherever the size is one that random access takes. */
  lemma LoadAgrees(data: seq<byte>, magic: seq<byte>, pos: nat, decode: Deserializer)
    ensures FrameAt(data, magic, pos, decode).InvalidSize? ||
            LoadAt(data, magic, pos + 8, decode) ==
            match AnswerAt(FrameAt(data, magic, pos, decode))
            case Success(b) => b
            case Failure(_) => None
  {
  }
}
