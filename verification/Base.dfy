/** Machine integers, error codes and the result type shared by every module. */
module Base {

  const I128_MAX: int := 0x7FFF_FFFF_FFFF_FFFF_FFFF_FFFF_FFFF_FFFF
  const I128_MIN: int := -0x8000_0000_0000_0000_0000_0000_0000_0000
  const U64_MAX: int := 0xFFFF_FFFF_FFFF_FFFF
  const U32_MAX: int := 0xFFFF_FFFF

  type i128 = x: int | I128_MIN <= x <= I128_MAX
  type u64 = x: int | 0 <= x <= U64_MAX
  type u32 = x: int | 0 <= x <= U32_MAX

  const SECONDS_PER_DAY := 86_400

  /** Account and token-contract addresses. */
  type Address = nat

  /** Identifiers, read as big-endian numbers. */
  type InvoiceId = nat
  type BidId = nat
  type EscrowId = nat
  type InvestmentId = nat

  /** The address of the contract itself (`current_contract_address`). */
  const SELF: Address := 0

  datatype Option<+T> = None | Some(value: T)

  datatype Error =
    | InvalidAmount
    | InvalidStatus
    | InvalidTimestamp
    | InvalidCoveragePercentage
    | InvalidFeeConfiguration
    | InvalidFeeBasisPoints
    | InvoiceNotFound
    | InvoiceAmountInvalid
    | InvoiceDueDateInvalid
    | InvoiceAlreadyFunded
    | InvoiceAlreadyDefaulted
    | InvoiceNotAvailableForFunding
    | StorageKeyNotFound
    | OperationNotAllowed
    | MaxBidsPerInvoiceExceeded
    | DuplicateDefaultTransition
    | PaymentTooLow
    | Unauthorized
    | InsufficientFunds
    | Rejected(code: nat)  // raised by a check that is a parameter of the model (KYC, whitelist, limits)

  datatype Result<+T> = Ok(value: T) | Err(error: Error) {
    predicate IsFailure() { Err? }
    function PropagateFailure<U>(): Result<U> requires Err? { Err(error) }
    function Extract(): T requires Ok? { value }

    /** The same outcome with another value. */
    function With<U>(u: U): Result<U> {
      match this
      case Ok(_) => Ok(u)
      case Err(e) => Err(e)
    }
  }

  function Min(x: int, y: int): int { if x < y then x else y }

  function Max(x: int, y: int): int { if x < y then y else x }

  /** Saturating `i128` arithmetic. */
  function Saturate(x: int): i128 {
    if x > I128_MAX then I128_MAX else if x < I128_MIN then I128_MIN else x
  }

  function SatAdd(x: int, y: int): i128 { Saturate(x + y) }

  function SatSub(x: int, y: int): i128 { Saturate(x - y) }

  function SatMul(x: int, y: int): i128 { Saturate(x * y) }

  /** `u64::saturating_add`. */
  function SatAdd64(x: nat, y: nat): nat { Min(x + y, U64_MAX) }

  lemma MulLe(x: nat, a: int, b: int)
    requires a <= b
    ensures x * a <= x * b
  {
  }
}
