/** The token-ledger program (token.rs). Each handler reads a record out of
    an account's data, changes some of its fields, and writes it back into
    that account. An account is an object whose record field the handlers
    update in place; the packed byte layout of the records is not modelled. */
module Token {
  import opened Primitives

  /** Packed size of a mint record (`Mint::LEN` in spl-token). */
  const MINT_LEN: nat := 82

  /** Packed size of a token-account record (`Account::LEN` in spl-token). */
  const ACCOUNT_LEN: nat := 165

  /** The fields of a mint record the ledger reads or writes. */
  datatype Mint = Mint(
    mintAuthority: Option<Pubkey>,
    supply: u64,
    decimals: u8,
    isInitialized: bool)

  /** The fields of a token-account record the ledger reads or writes. */
  datatype Account = Account(
    mint: Pubkey,
    owner: Pubkey,
    amount: u64,
    isInitialized: bool)

  /** `Instruction`, already deserialised. */
  datatype Instruction =
    | InitializeMint(decimals: u8, mintAuthority: Pubkey)
    | InitializeAccount(mint: Pubkey, owner: Pubkey)
    | Transfer(amount: u64)

  /** An account holding a mint record: its data length, its lamport
      balance, and the record stored in its data. */
  class MintInfo {
    const dataLen: nat
    const lamports: u64
    var mint: Mint

    constructor (dataLen: nat, lamports: u64, mint: Mint)
      ensures this.dataLen == dataLen && this.lamports == lamports && this.mint == mint
    {
      this.dataLen := dataLen;
      this.lamports := lamports;
      this.mint := mint;
    }
  }

  /** An account holding a token-account record: the program that owns the
      account (`AccountInfo::owner`), its data length, and the record stored
      in its data. */
  class TokenAccountInfo {
    const owner: Pubkey
    const dataLen: nat
    var account: Account

    constructor (owner: Pubkey, dataLen: nat, account: Account)
      ensures this.owner == owner && this.dataLen == dataLen && this.account == account
    {
      this.owner := owner;
      this.dataLen := dataLen;
      this.account := account;
    }
  }

  // ---------------------------------------------------------------------
  // InitializeMint

  /** How `initialize_mint` ends, given the account's data length, its
      lamports and the rent-exempt minimum for that length. The prior
      content of the mint record plays no part: an initialised mint is
      initialised again. */
  function InitializeMintStatus(dataLen: nat, lamports: u64, rentExemptMinimum: nat): (r: ProgramResult)
    ensures r == Err(InvalidAccountData) <==> dataLen != MINT_LEN
    ensures r == Err(FromTokenError(NotRentExempt)) <==> dataLen == MINT_LEN && lamports < rentExemptMinimum
    ensures r.Ok? <==> dataLen == MINT_LEN && lamports >= rentExemptMinimum
  {
    if dataLen != MINT_LEN then Err(InvalidAccountData)
    else if lamports < rentExemptMinimum then Err(FromTokenError(NotRentExempt))
    else Ok(())
  }

  /** The mint record `initialize_mint` writes back: initialised, with the
      given decimals and authority; the supply is left as it was. */
  function InitializedMint(m: Mint, decimals: u8, mintAuthority: Pubkey): (r: Mint)
    ensures r.isInitialized && r.decimals == decimals && r.mintAuthority == Some(mintAuthority)
    ensures r.supply == m.supply
  {
    m.(isInitialized := true, decimals := decimals, mintAuthority := Some(mintAuthority))
  }

  /** `initialize_mint`. The rent sysvar is represented by the minimum
      balance it demands for an account of the mint's size. */
  method ProcessInitializeMint(mintInfo: MintInfo, rentExemptMinimum: nat, decimals: u8, mintAuthority: Pubkey)
    returns (r: ProgramResult)
    modifies mintInfo
    ensures r == InitializeMintStatus(mintInfo.dataLen, mintInfo.lamports, rentExemptMinimum)
    ensures r.Ok? ==> mintInfo.mint == InitializedMint(old(mintInfo.mint), decimals, mintAuthority)
    ensures r.Err? ==> mintInfo.mint == old(mintInfo.mint)
  {
    if mintInfo.dataLen != MINT_LEN {
      return Err(InvalidAccountData);
    }
    var mint := mintInfo.mint;
    mint := mint.(isInitialized := true);
    mint := mint.(decimals := decimals);
    mint := mint.(mintAuthority := Some(mintAuthority));
    // the rent check comes after the local copy is updated but before it is written back
    if mintInfo.lamports < rentExemptMinimum {
      return Err(FromTokenError(NotRentExempt));
    }
    mintInfo.mint := mint;
    return Ok(());
  }

  // ---------------------------------------------------------------------
  // InitializeAccount

  /** The token-account record `initialize_account` writes back: mint and
      owner replaced, balance and initialised flag kept. */
  function InitializedAccount(a: Account, mint: Pubkey, owner: Pubkey): (r: Account)
    ensures r.mint == mint && r.owner == owner
    ensures r.amount == a.amount && r.isInitialized == a.isInitialized
  {
    a.(mint := mint, owner := owner)
  }

  /** `initialize_account`: only the data length is checked. */
  method ProcessInitializeAccount(accountInfo: TokenAccountInfo, mint: Pubkey, owner: Pubkey)
    returns (r: ProgramResult)
    modifies accountInfo
    ensures r == (if accountInfo.dataLen == ACCOUNT_LEN then Ok(()) else Err(InvalidAccountData))
    ensures r.Ok? ==> accountInfo.account == InitializedAccount(old(accountInfo.account), mint, owner)
    ensures r.Err? ==> accountInfo.account == old(accountInfo.account)
  {
    if accountInfo.dataLen != ACCOUNT_LEN {
      return Err(InvalidAccountData);
    }
    var account := accountInfo.account;
    account := account.(mint := mint);
    account := account.(owner := owner);
    accountInfo.account := account;
    return Ok(());
  }

  // ---------------------------------------------------------------------
  // Transfer

  /** How `transfer` ends, given each account's data length, the two
      records as read, the owner of the source account and the amount: the
      first failing check, in the order the handler makes them, or success.
      Reading a record (`Account::unpack`) rejects a wrong data length. The
      last check stands for the overflow of the destination's balance, which
      aborts the instruction. Owner mismatch and insufficient funds both
      reach the caller as `Custom(1)`. */
  function TransferStatus(sourceLen: nat, destinationLen: nat, source: Account, destination: Account,
                          sourceInfoOwner: Pubkey, amount: u64): (r: ProgramResult)
    ensures sourceLen != ACCOUNT_LEN ==> r == Err(InvalidAccountData)
    ensures (sourceLen == ACCOUNT_LEN && !source.isInitialized) ==> r == Err(UninitializedAccount)
    ensures (sourceLen == ACCOUNT_LEN && source.isInitialized && destinationLen != ACCOUNT_LEN)
            ==> r == Err(InvalidAccountData)
    ensures (sourceLen == ACCOUNT_LEN && source.isInitialized && destinationLen == ACCOUNT_LEN
             && !destination.isInitialized) ==> r == Err(UninitializedAccount)
    ensures (ReadableAndInitialized(sourceLen, destinationLen, source, destination)
             && source.mint != destination.mint) ==> r == Err(Custom(3))
    ensures (ReadableAndInitialized(sourceLen, destinationLen, source, destination)
             && source.mint == destination.mint && source.owner != sourceInfoOwner) ==> r == Err(Custom(1))
    ensures (ReadableAndInitialized(sourceLen, destinationLen, source, destination)
             && source.mint == destination.mint && source.owner == sourceInfoOwner
             && source.amount < amount) ==> r == Err(Custom(1))
    ensures (ReadableAndInitialized(sourceLen, destinationLen, source, destination)
             && source.mint == destination.mint && source.owner == sourceInfoOwner
             && amount <= source.amount && destination.amount + amount >= U64_MODULUS)
            ==> r == Err(ArithmeticOverflow)
    ensures r.Ok? <==>
      ReadableAndInitialized(sourceLen, destinationLen, source, destination)
      && source.mint == destination.mint && source.owner == sourceInfoOwner
      && amount <= source.amount && destination.amount + amount < U64_MODULUS
  {
    if sourceLen != ACCOUNT_LEN then Err(InvalidAccountData)
    else if !source.isInitialized then Err(UninitializedAccount)
    else if destinationLen != ACCOUNT_LEN then Err(InvalidAccountData)
    else if !destination.isInitialized then Err(UninitializedAccount)
    else if source.mint != destination.mint then Err(FromTokenError(MintMismatch))
    else if source.owner != sourceInfoOwner then Err(Custom(1))
    else if source.amount < amount then Err(FromTokenError(InsufficientFunds))
    else if destination.amount + amount >= U64_MODULUS then Err(ArithmeticOverflow)
    else Ok(())
  }

  /** Both records can be read and both are initialised. */
  predicate ReadableAndInitialized(sourceLen: nat, destinationLen: nat, source: Account, destination: Account) {
    sourceLen == ACCOUNT_LEN && destinationLen == ACCOUNT_LEN && source.isInitialized && destination.isInitialized
  }

  /** The caller cannot tell a source with too few tokens from a source whose
      owner does not match: with everything else equal, a transfer that
      fails for lack of funds fails with the same error under any other
      owner. */
  lemma OwnerMismatchLooksLikeInsufficientFunds(sourceLen: nat, destinationLen: nat, source: Account,
                                                destination: Account, otherOwner: Pubkey, amount: u64)
    requires ReadableAndInitialized(sourceLen, destinationLen, source, destination)
    requires source.mint == destination.mint && source.amount < amount
    ensures TransferStatus(sourceLen, destinationLen, source, destination, source.owner, amount)
         == TransferStatus(sourceLen, destinationLen, source, destination, otherOwner, amount)
  {
  }

  /** The records `transfer` leaves behind after its checks pass. `aliased`
      says whether source and destination are one account: both records are
      read before either is written and the destination is written last, so
      then the credit overwrites the debit. Distinct accounts conserve their
      total balance; a transfer to oneself adds the amount. Only balances
      change. */
  function Transferred(source: Account, destination: Account, amount: u64, aliased: bool): (r: (Account, Account))
    requires amount <= source.amount && destination.amount + amount < U64_MODULUS
    requires aliased ==> source == destination
    ensures !aliased ==> r.0.amount == source.amount - amount && r.1.amount == destination.amount + amount
    ensures !aliased ==> r.0.amount + r.1.amount == source.amount + destination.amount
    ensures aliased ==> r.0 == r.1 && r.0.amount == source.amount + amount
    ensures r.0.mint == source.mint && r.0.owner == source.owner && r.0.isInitialized == source.isInitialized
    ensures r.1.mint == destination.mint && r.1.owner == destination.owner
      && r.1.isInitialized == destination.isInitialized
  {
    var debited := source.(amount := source.amount - amount);
    var credited := destination.(amount := destination.amount + amount);
    if aliased then (credited, credited) else (debited, credited)
  }

  /** `transfer`. The source account's program owner stands in for the
      authority that may move its tokens. */
  method ProcessTransfer(sourceInfo: TokenAccountInfo, destinationInfo: TokenAccountInfo, amount: u64)
    returns (r: ProgramResult)
    modifies sourceInfo, destinationInfo
    ensures r == TransferStatus(sourceInfo.dataLen, destinationInfo.dataLen, old(sourceInfo.account),
                                old(destinationInfo.account), sourceInfo.owner, amount)
    ensures r.Err? ==>
      sourceInfo.account == old(sourceInfo.account) && destinationInfo.account == old(destinationInfo.account)
    ensures r.Ok? ==>
      (sourceInfo.account, destinationInfo.account)
      == Transferred(old(sourceInfo.account), old(destinationInfo.account), amount, sourceInfo == destinationInfo)
  {
    if sourceInfo.dataLen != ACCOUNT_LEN {
      return Err(InvalidAccountData);
    }
    var source := sourceInfo.account;
    if !source.isInitialized {
      return Err(UninitializedAccount);
    }
    if destinationInfo.dataLen != ACCOUNT_LEN {
      return Err(InvalidAccountData);
    }
    var destination := destinationInfo.account;
    if !destination.isInitialized {
      return Err(UninitializedAccount);
    }
    if source.mint != destination.mint {
      return Err(FromTokenError(MintMismatch));
    }
    if source.owner != sourceInfo.owner {
      return Err(Custom(1));
    }
    if source.amount < amount {
      return Err(FromTokenError(InsufficientFunds));
    }
    source := source.(amount := source.amount - amount);
    if destination.amount + amount >= U64_MODULUS {
      return Err(ArithmeticOverflow);
    }
    destination := destination.(amount := destination.amount + amount);
    sourceInfo.account := source;
    destinationInfo.account := destination;
    return Ok(());
  }

  // ---------------------------------------------------------------------
  // Entry point

  /** The entry point's routing of a deserialised instruction. The accounts
      are bound by position: `InitializeMint` uses the mint account and the
      rent sysvar (here its minimum balance), `InitializeAccount` the first
      token account, `Transfer` the first as source and the second as
      destination. Each variant runs exactly its handler, with its own
      fields, and touches no other account. */
  method Process(instruction: Instruction, mintInfo: MintInfo, rentExemptMinimum: nat,
                 first: TokenAccountInfo, second: TokenAccountInfo)
    returns (r: ProgramResult)
    modifies mintInfo, first, second
    ensures instruction.InitializeMint? ==>
      && r == InitializeMintStatus(mintInfo.dataLen, mintInfo.lamports, rentExemptMinimum)
      && mintInfo.mint == (if r.Ok? then InitializedMint(old(mintInfo.mint), instruction.decimals, instruction.mintAuthority)
                           else old(mintInfo.mint))
      && first.account == old(first.account) && second.account == old(second.account)
    ensures instruction.InitializeAccount? ==>
      && r == (if first.dataLen == ACCOUNT_LEN then Ok(()) else Err(InvalidAccountData))
      && first.account == (if r.Ok? then InitializedAccount(old(first.account), instruction.mint, instruction.owner)
                           else old(first.account))
      && mintInfo.mint == old(mintInfo.mint)
      && (first != second ==> second.account == old(second.account))
    ensures instruction.Transfer? ==>
      && r == TransferStatus(first.dataLen, second.dataLen, old(first.account), old(second.account),
                             first.owner, instruction.amount)
      && (r.Err? ==> first.account == old(first.account) && second.account == old(second.account))
      && (r.Ok? ==> (first.account, second.account)
                    == Transferred(old(first.account), old(second.account), instruction.amount, first == second))
      && mintInfo.mint == old(mintInfo.mint)
  {
    match instruction
    case InitializeMint(decimals, mintAuthority) =>
      r := ProcessInitializeMint(mintInfo, rentExemptMinimum, decimals, mintAuthority);
    case InitializeAccount(mint, owner) =>
      r := ProcessInitializeAccount(first, mint, owner);
    case Transfer(amount) =>
      r := ProcessTransfer(first, second, amount);
  }
}
