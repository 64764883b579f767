# Token ledger, liquidity-pool decoder and swap entry point

This project models the parts of a small Solana program suite that hold real,
deterministic logic. The suite is a token ledger, a liquidity pool and a swap
program.

- **Token ledger** (`token.rs`, module `Token`). The handlers are
  `initialize_mint`, `initialize_account` and `transfer`, and there is an entry
  point that routes a deserialised `Instruction` to them. Each handler reads a
  record (a mint or a token account) out of an account, updates fields of a
  local copy, and writes the copy back. Accounts are objects (`MintInfo`,
  `TokenAccountInfo`) whose record field the handler methods update in place.
  Each method's contract ties the new record to a value-level function, and
  that function's contract states what changes and what stays.
- **Pool instruction decoder** (`lp.rs`, module `LiquidityPool`).
  `PoolOperation::unpack` is a tag byte followed by one or two little-endian
  u64 fields. It is modelled as `Unpack`, with an encoder `Pack` and round
  trips in both directions.
- **Swap instruction decoder and entry point** (`swap.rs`, module `Swap`).
  `SwapInstruction::unpack` takes a swap-type tag and one u64. The entry point
  checks the number of accounts the swap type needs and then routes to the
  handler for that swap type.
- Shared pieces: module `Primitives` holds the Rust integer widths, `Pubkey`,
  `Option`/`Result` and the program errors. Module `LittleEndian` holds
  `from_le_bytes`/`to_le_bytes` and their round trips.

Where the source text does not compile, the model follows what the visible
statements evidently mean:
- `source` and `destination` are updated although they are not declared `mut`
  (token.rs:105, 110).
- `mint_data_len` is undefined (token.rs:74). It is read as the rent-exempt
  minimum for the mint account's own size, which is passed in as
  `rentExemptMinimum`.
- `?` is applied to an `Option` inside a function returning `ProgramResult`
  (swap.rs:23). A failed decode ends the entry point with
  `InvalidInstructionData`; the source names no error for it.

The code does not do the following, and the model follows the code:
- `initialize_account` does not set the initialised flag. It does not zero the
  balance or check the mint either.
- `initialize_mint` does not reject a mint that is already initialised.
- The ownership check in `transfer` does not use a signer. It compares the
  record's owner with the account's owning program (`AccountInfo::owner`).
- Token errors do not keep their own kind. `.into()` turns each one into
  `Custom` with its number in spl-token's `TokenError` enumeration:
  `NotRentExempt` is 0, `InsufficientFunds` is 1 and `MintMismatch` is 3.
  Owner mismatch is returned as `Custom(1)` (token.rs:120), so a caller
  cannot tell it from insufficient funds (token.rs:124).

The transfer handler reads both records before writing either one, and it
writes the destination last. The model reproduces this order. When the source
and the destination are the same account, the final balance is the original
balance plus the amount (`Token.Transferred`, `aliased` case).

## Model

| member | source | states |
|---|---|---|
| `LittleEndian.FromLe` | lp.rs:58-59 | a little-endian byte string of length n denotes a value below 256^n, so every eight-byte field read by `from_le_bytes` fits in a u64 |
| `LittleEndian.FromLeToLe` | lp.rs:58-59 | a value that fits in n bytes, written as n little-endian bytes, reads back unchanged |
| `LittleEndian.ToLeFromLe` | swap.rs:73 | n bytes read as a little-endian value and written back over n bytes give the same bytes |
| `LittleEndian.U64ToLe` | lp.rs:58-59 | `to_le_bytes` gives eight bytes that `from_le_bytes` reads back as the same u64 |
| `LittleEndian.U64FromLe` | lp.rs:58-59 | `from_le_bytes` on eight bytes always yields a u64, and those bytes are exactly its encoding (the `unwrap`s on eight-byte slices cannot fail) |
| `LiquidityPool.Unpack` | lp.rs:46-71 | empty input gives `None`; decoding succeeds exactly when the input is tag 0 with 16 payload bytes (length 17) or tag 1 with 8 payload bytes (length 9); any other tag or length gives `None`; `AddLiquidity` carries the LE values of bytes 1..9 and 9..17, and `RemoveLiquidity` the LE value of bytes 1..9 |
| `LiquidityPool.Pack` | lp.rs:35-43 | the wire form of an operation is 17 bytes for `AddLiquidity` and 9 for `RemoveLiquidity` |
| `LiquidityPool.UnpackPack` | lp.rs:54-67 | round trip: every operation, encoded as its tag and LE u64 fields, decodes to itself |
| `LiquidityPool.PackUnpack` | lp.rs:46-71 | the decoder accepts only canonical input: any accepted input is the encoding of the operation it yields |
| `Swap.Tag` | swap.rs:66-71 | each swap type has a tag of at most 2 |
| `Swap.SwapTypeOfTag` | swap.rs:66-71 | bytes 0, 1 and 2 name SOLToToken, TokenToSOL and TokenToToken (the inverse of `Tag`); every other byte names nothing |
| `Swap.Unpack` | swap.rs:64-75 | decoding succeeds exactly when the input has length 9 and its first byte is at most 2; the swap type is the one the first byte names and the amount is the LE value of bytes 1..9; empty input or an unknown tag gives `None`, and the slice after the tag is only taken once the tag exists |
| `Swap.Pack` | swap.rs:58-61 | an instruction's wire form is nine bytes |
| `Swap.UnpackPack` | swap.rs:64-75 | round trip: (swap type, amount) encoded as a tag plus eight LE bytes decodes to the same instruction |
| `Swap.PackUnpack` | swap.rs:64-75 | any accepted input is exactly the encoding of the instruction it yields |
| `Swap.RequiredAccounts` | swap.rs:26-29 | a SOL-to-token or token-to-SOL swap needs 4 accounts; a token-to-token swap needs 5 |
| `Swap.Process` | swap.rs:15-50 | a decode failure is an error; after decoding, an account count other than 4 (SOLToToken, TokenToSOL) or 5 (TokenToToken) gives `InvalidArgument` and no handler runs; otherwise the handler for the decoded swap type runs with the decoded amount |
| `Swap.ProcessAccepts` | swap.rs:26-32 | on raw bytes, the entry point goes ahead exactly when the input is nine bytes with a tag of at most 2 and the account count is 5 for tag 2 and 4 otherwise |
| `Swap.ProcessPacked` | swap.rs:23-47 | an encoded instruction given the right number of accounts reaches its own handler with its own amount |
| `Primitives.TokenErrorCode` | token.rs:77 | the numbers spl-token gives the token errors the ledger raises: `NotRentExempt` 0, `InsufficientFunds` 1, `MintMismatch` 3 |
| `Primitives.FromTokenError` | token.rs:124 | `TokenError::into()` gives `Custom` carrying the error's number, and nothing else of it |
| `Token.InitializeMintStatus` | token.rs:63-78 | `initialize_mint` fails with `InvalidAccountData` exactly when the data length is not `Mint::LEN`, and with `NotRentExempt` (`Custom(0)`) exactly when the length is right but the lamports are below the rent-exempt minimum; otherwise it succeeds, whatever the prior state of the mint |
| `Token.InitializedMint` | token.rs:69-72 | the mint written back is initialised, has the given decimals and `Some(authority)`, and keeps its supply |
| `Token.ProcessInitializeMint` | token.rs:59-83 | the result is `InitializeMintStatus`; on success the stored mint becomes `InitializedMint` of the old one; on either failure the stored mint is untouched |
| `Token.InitializedAccount` | token.rs:92-94 | the account written back has the given mint and owner and keeps its balance and its initialised flag |
| `Token.ProcessInitializeAccount` | token.rs:85-99 | fails with `InvalidAccountData` exactly when the data length is not `Account::LEN`, leaving the record untouched; otherwise the stored record becomes `InitializedAccount` of the old one |
| `Token.TransferStatus` | token.rs:105-128 | transfer reports the first failing check in this order: source data length (`InvalidAccountData`), source uninitialised (`UninitializedAccount`), destination data length, destination uninitialised, mint mismatch (`Custom(3)`), owner mismatch (`Custom(1)`), insufficient funds (also `Custom(1)`), then the destination balance overflowing u64; it succeeds exactly when all checks pass |
| `Token.OwnerMismatchLooksLikeInsufficientFunds` | token.rs:119-125 | a transfer that fails for lack of funds returns the same error whether or not the owner matches, so the two failures are indistinguishable to the caller |
| `Token.Transferred` | token.rs:127-131 | for distinct accounts the source loses exactly the amount (no underflow) and the destination gains it, so their total balance is conserved; for one account given twice the destination's write wins, and the balance grows by the amount; mint, owner and initialised flag never change |
| `Token.ProcessTransfer` | token.rs:101-134 | the result is `TransferStatus` of the two data lengths and the records as read; a failure leaves both records unchanged; success stores `Transferred` of the old records, with aliasing decided by object identity |
| `Token.Process` | token.rs:23-43 | each instruction variant runs exactly its own handler with its own fields, and the accounts that handler does not touch keep their records |

## Left out

- `Token.ProcessTransfer`: `destination.amount += amount` (token.rs:128) is not an explicitly checked add. The model treats the overflow as the abort of Rust's overflow check, `ArithmeticOverflow`, with no record written. A build without overflow checks would instead wrap the balance modulo 2^64, and that is not modelled.
- `limited_deserialize` (token.rs:26) is a foreign bincode deserialiser. `Token.Process` starts from an instruction that is already decoded.
- SPL `Pack`/`unpack`/`unpack_unchecked` are treated as an abstract read and write of a typed record. The only failure of theirs that is modelled is `Account::unpack` rejecting a wrong data length in `transfer` (token.rs:105, 110). Their byte layouts and their other failures (malformed optional fields, for one) are not modelled. `Account::unpack` also rejects an uninitialised record, and that gives the same error as the explicit checks that follow it. `Mint::LEN` (82) and `Account::LEN` (165) are spl-token's packed sizes.
- The record types have only the fields the handlers read or write. Delegate, freeze authority, close authority and the other spl-token fields are not modelled.
- `Rent::from_account_info`, `minimum_balance` and `checked_balance` (token.rs:67, 74-75) read a sysvar or call foreign code. Their result enters as the parameter `rentExemptMinimum`, and their own failures are not modelled.
- `next_account_info` account iteration and its missing-account error are not modelled. Accounts are bound by position as parameters, and the swap entry point sees only the number of accounts.
- `msg!` logging and the `entrypoint!` macros are host I/O.
- `PoolOperation`'s entry point (lp.rs:14-33) only forwards the decoded fields to `add_liquidity` and `remove_liquidity`, so it is not modelled apart from `LiquidityPool.Unpack`.
- `add_liquidity` (lp.rs:74-90) issues one spl-token transfer through a cross-program invocation, and `remove_liquidity` (lp.rs:92-99) is empty. Both are left out. Cross-program invocation is a foreign call, and there is no pool accounting in the code.
- The three swap handlers (swap.rs:78-91) are empty. `Swap.Process` models which handler is reached and with what amount, but not what a handler does.
- Constant-product pricing, fees, share issuance, minting and burning, and supply conservation across all accounts of a mint are not implemented by the code, so they are not modelled.
- Concurrency and the runtime's account locking are not modelled. Each handler is modelled as one sequential call.
