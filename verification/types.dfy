/**
 The primitive vocabulary of the agriculture tokenization program: the
 fixed-width integers of the Solana runtime, account addresses, the
 program's own error codes and the failures it can inherit from the token
 program and from Rust's checked arithmetic, and the events it emits.
 */
module Types {

  const U64_MAX: int := 0xFFFF_FFFF_FFFF_FFFF
  const I64_MIN: int := -0x8000_0000_0000_0000
  const I64_MAX: int := 0x7FFF_FFFF_FFFF_FFFF

  /** Rust `u64`: token amounts, supply, revenue, yield estimate. */
  type U64 = x: int | 0 <= x <= U64_MAX

  /** Rust `i64`: Unix timestamps (`harvest_time`, the clock reading). */
  type I64 = x: int | I64_MIN <= x <= I64_MAX

  /** A 32-byte account address, abstracted to its identity. */
  type Pubkey = nat

  /** The program's own error codes (`AgricultureError`). */
  datatype AgricultureError =
    | InsufficientYield
    | InvalidHarvestTime
    | InvalidRevenueAmount
    | InvalidOwner

  /** Every way an instruction of the program can end without success. */
  datatype ProgramError =
    | Custom(code: AgricultureError)
      // the lot address derived from the farmer already holds an account
    | AccountAlreadyInUse
      // a listed holder does not deserialize as a token account
    | AccountNotTokenAccount
      // token program: the source balance is below the amount
    | InsufficientFunds
      // token program: the destination balance would exceed u64
    | TokenOverflow
      // Rust panic: `u64` multiplication overflowed
    | MultiplyOverflow
      // Rust panic: `u64` division by zero
    | DivideByZero

  datatype Option<+T> = None | Some(value: T)

  datatype Result<+T> = Ok(value: T) | Err(error: ProgramError)

  /** Notifications emitted for external observers. */
  datatype Event =
    | LotInitialized(lotName: string, owner: Pubkey, yieldEstimate: U64, harvestTime: I64)
    | RevenueDistributed(lot: Pubkey, totalRevenue: U64, timestamp: I64)
}
