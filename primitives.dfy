/** Rust primitive integers, Solana host types and the error taxonomy the
    three programs return. */
module Primitives {

  /** Rust's `u8`. */
  type u8 = x: int | 0 <= x < 0x100

  /** An unsigned 8-bit value, as found in instruction data. */
  type byte = u8

  /** 2^64, the number of values of a Rust `u64`. */
  const U64_MODULUS: int := 0x1_0000_0000_0000_0000

  /** Rust's `u64`. */
  type u64 = x: int | 0 <= x < 0x1_0000_0000_0000_0000

  /** A public key; only its identity (equality) matters to the programs. */
  type Pubkey = nat

  datatype Option<T> = None | Some(value: T)

  /** The errors a program hands back to the runtime. `ArithmeticOverflow`
      stands for the abort of an overflow-checked integer operation. */
  datatype ProgramError =
    | InvalidArgument
    | InvalidInstructionData
    | InvalidAccountData
    | UninitializedAccount
    | ArithmeticOverflow
    | Custom(code: nat)

  /** The spl-token errors the ledger raises. */
  datatype TokenError = NotRentExempt | InsufficientFunds | MintMismatch

  /** A token error's number: its position in spl-token's `TokenError`
      enumeration. */
  function TokenErrorCode(e: TokenError): (code: nat)
    ensures e.NotRentExempt? <==> code == 0
    ensures e.InsufficientFunds? <==> code == 1
    ensures e.MintMismatch? <==> code == 3
  {
    match e
    case NotRentExempt => 0
    case InsufficientFunds => 1
    case MintMismatch => 3
  }

  /** `TokenError::into()`: a token error reaches the runtime as a custom
      program error carrying its number, and nothing else of it. */
  function FromTokenError(e: TokenError): (r: ProgramError)
    ensures r.Custom? && r.code == TokenErrorCode(e)
  {
    Custom(TokenErrorCode(e))
  }

  datatype Result<T> = Ok(value: T) | Err(error: ProgramError)

  /** Solana's `ProgramResult`: success carries no value. */
  type ProgramResult = Result<()>
}
