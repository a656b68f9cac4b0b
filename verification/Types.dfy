/** Values shared by every layer: machine-width integers, outpoints and cached outputs. */
module Types {
  type byte = x: int | 0 <= x < 0x100
  type u32 = x: int | 0 <= x < 0x1_0000_0000
  type u64 = x: int | 0 <= x < 0x1_0000_0000_0000_0000

  const U64_MAX: int := 0xFFFF_FFFF_FFFF_FFFF

  datatype Option<+T> = None | Some(value: T)

  datatype Result<+T, +E> = Success(value: T) | Failure(error: E) {
    predicate IsFailure() {
      Failure?
    }

    function PropagateFailure<U>(): Result<U, E>
      requires Failure?
    {
      Failure(error)
    }

    function Extract(): T
      requires Success?
    {
      value
    }
  }

  datatype Outcome<+E> = Pass | Fail(error: E) {
    predicate IsFailure() {
      Fail?
    }

    function PropagateFailure(): Outcome<E>
      requires Fail?
    {
      this
    }
  }

  /** Raw 32-byte transaction hash. */
  type Txid = t: seq<byte> | |t| == 32 witness seq(32, _ => 0)

  /** A Rust string slice, as the UTF-8 bytes that `as_bytes` exposes. */
  type Address = seq<byte>

  datatype UtxoKey = UtxoKey(txid: Txid, vout: u32)

  datatype ScriptTypeTag = P2PKH | P2SH | P2WPKH | P2WSH | P2TR | P2PK | NullData | Unknown

  datatype CachedOutput = CachedOutput(outputIndex: u32, amount: u64, scriptType: ScriptTypeTag,
                                       address: Option<Address>)

  function Min(a: int, b: int): int {
    if a <= b then a else b
  }

  lemma Assoc<T>(x: seq<T>, y: seq<T>, z: seq<T>)
    ensures x + (y + z) == (x + y) + z
  {
  }

  lemma BagAssoc<T>(a: multiset<T>, b: multiset<T>, c: multiset<T>)
    ensures a + (b + c) == (a + b) + c
  {
  }

  /** Bitwise exclusive or of two naturals. */
  function Xor(a: nat, b: nat): nat
    decreases a + b
  {
    if a == 0 then b
    else if b == 0 then a
    else (a + b) % 2 + 2 * Xor(a / 2, b / 2)
  }
}
