/** Failure-compatible wrappers shared by every module of the model. */
module Wrappers {

  datatype Option<+T> = None | Some(value: T) {
    predicate IsFailure() { None? }
    function PropagateFailure<U>(): Option<U> requires None? { None }
    function Extract(): T requires Some? { value }
  }

  /** Why an operation did not produce a value.  The first three are panics of
      the Rust program (U256 arithmetic, slice indexing, `unwrap`); the others
      are `Err` values travelling through `?`. */
  datatype Error =
    | ArithmeticOverflow
    | ArithmeticUnderflow
    | IndexOutOfBounds
    | ProviderFailure
    | LookupFailure
    | BundleSubmissionFailed
  {
    predicate IsPanic() {
      ArithmeticOverflow? || ArithmeticUnderflow? || IndexOutOfBounds?
    }
  }

  datatype Result<+T> = Ok(value: T) | Err(error: Error) {
    predicate IsFailure() { Err? }
    function PropagateFailure<U>(): Result<U> requires Err? { Err(error) }
    function Extract(): T requires Ok? { value }
  }

  /** The outcome of a call the model does not look inside (a node query, a
      lookup, the relay): a value, or an error it returns, never a panic. */
  type Answer<T> = r: Result<T> | r.Err? ==> !r.error.IsPanic() witness Err(ProviderFailure)
}

/** Ethereum value types: 256-bit words, 160-bit addresses, bytes and the
    pending-transaction record observed in the mempool. */
module Eth {
  import opened Wrappers

  const U256_LIMIT: nat := 0x1_0000_0000_0000_0000_0000_0000_0000_0000_0000_0000_0000_0000_0000_0000_0000_0000
  const U64_LIMIT: nat := 0x1_0000_0000_0000_0000
  const ADDRESS_LIMIT: nat := 0x1_0000_0000_0000_0000_0000_0000_0000_0000_0000_0000

  type U256 = x: nat | x < U256_LIMIT
  type U64 = x: nat | x < U64_LIMIT
  type Address = x: nat | x < ADDRESS_LIMIT
  /** An H256 transaction or bundle hash. */
  type Hash = x: nat | x < U256_LIMIT
  type byte = x: nat | x < 256

  function Pow(b: nat, e: nat): nat {
    if e == 0 then 1 else b * Pow(b, e - 1)
  }

  lemma {:induction false} PowAdd(b: nat, m: nat, n: nat)
    ensures Pow(b, m + n) == Pow(b, m) * Pow(b, n)
  {
    if m > 0 {
      PowAdd(b, m - 1, n);
      assert Pow(b, m + n) == b * Pow(b, m - 1 + n);
    }
  }

  /** U256 `a - b`; ethers panics when `b > a`. */
  function CheckedSub(a: U256, b: U256): Result<U256> {
    if b <= a then Ok(a - b) else Err(ArithmeticUnderflow)
  }

  /** U256 `a * b`; ethers panics when the product does not fit in 256 bits. */
  function CheckedMul(a: U256, b: U256): Result<U256> {
    if a * b < U256_LIMIT then Ok(a * b) else Err(ArithmeticOverflow)
  }

  /** The bytes of an ASCII string literal, as `Bytes::from("...")` stores them. */
  function Ascii(s: string): (b: seq<byte>)
    requires forall i :: 0 <= i < |s| ==> s[i] as int < 128
    ensures |b| == |s|
  {
    seq(|s|, i requires 0 <= i < |s| => s[i] as int)
  }

  /** The fields of an ethers `Transaction` that the core reads or writes. */
  datatype Transaction = Transaction(
    hash: Hash,
    from: Address,
    to: Option<Address>,
    value: U256,
    gasPrice: U256,
    gas: U256,
    input: seq<byte>)
}
