/**
 The vocabulary shared by the contract models: addresses, pool ids, 256-bit amounts,
 and the result of a contract call.
 */
module Base {

  /** A Starknet contract or account address; 0 is the zero address. */
  type Address = nat

  /** The felt252 that numbers a pool. */
  type PoolId = nat

  const ZERO: Address := 0

  const U256_MAX: nat := 0xFFFF_FFFF_FFFF_FFFF_FFFF_FFFF_FFFF_FFFF_FFFF_FFFF_FFFF_FFFF_FFFF_FFFF_FFFF_FFFF

  const U64_MAX: nat := 0xFFFF_FFFF_FFFF_FFFF

  type u256 = x: nat | x <= U256_MAX

  /** One hundred percent, in the contracts' unit of a thousandth of a percent. */
  const FULL_WEIGHT: nat := 100_000

  /** What a contract call comes to: a value, or a revert with the asserted message. */
  datatype Outcome<+T> = Ok(value: T) | Revert(reason: string) {

    predicate IsFailure() {
      Revert?
    }

    function PropagateFailure<U>(): Outcome<U>
      requires Revert?
    {
      Revert(reason)
    }

    function Extract(): T
      requires Ok?
    {
      value
    }
  }

  /** What a call that returns nothing comes to. */
  type Status = Outcome<()>

  /** The message of a revert, and no text for a call that goes through. */
  function Why<T>(r: Outcome<T>): string {
    if r.Revert? then r.reason else ""
  }

  /** An object ended as the storage function says: in the new storage, or with the same message. */
  ghost predicate Follows<T>(spec: Outcome<T>, status: Status, after: T) {
    match spec
    case Ok(s) => status.Ok? && after == s
    case Revert(reason) => status == Revert(reason)
  }

  /** An assertion of a contract. */
  function Assert(condition: bool, message: string): Outcome<()> {
    if condition then Ok(()) else Revert(message)
  }

  /** Cairo's u256 addition, which panics when the sum does not fit. */
  function Add256(a: nat, b: nat): Outcome<nat> {
    if a + b <= U256_MAX then Ok(a + b) else Revert("u256_add Overflow")
  }

  /** Cairo's u256 subtraction, which panics below zero. */
  function Sub256(a: nat, b: nat): Outcome<nat> {
    if b <= a then Ok(a - b) else Revert("u256_sub Overflow")
  }

  /** The panics are those of 256-bit words: four words of 64 bits each. */
  lemma WordsAre256Bits(a: nat, b: nat)
    ensures U64_MAX + 1 == 0x1_0000_0000_0000_0000
    ensures U256_MAX + 1 == (U64_MAX + 1) * (U64_MAX + 1) * (U64_MAX + 1) * (U64_MAX + 1)
    ensures Add256(a, b) == if a + b < U256_MAX + 1 then Ok(a + b) else Revert("u256_add Overflow")
    ensures Sub256(a, b).Ok? <==> a - b >= 0
    ensures Sub256(a, b).Ok? ==> Sub256(a, b).value + b == a
  {
  }
}
