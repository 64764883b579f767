/** The swap program's instruction decoder and entry point (swap.rs): a
    swap-type tag byte and one little-endian u64 amount, then a check of the
    number of accounts before the matching handler runs. */
module Swap {
  import opened Primitives
  import opened LittleEndian

  /** `SwapType`. */
  datatype SwapType = SolToToken | TokenToSol | TokenToToken

  /** `SwapInstruction`. */
  datatype SwapInstruction = SwapInstruction(swapType: SwapType, amount: u64)

  /** The handler `Process` hands control to, with the amount it passes.
      The handlers themselves are empty. */
  datatype SwapCall =
    | SolToTokenSwap(amount: u64)
    | TokenToSolSwap(amount: u64)
    | TokenToTokenSwap(amount: u64)
  {
    /** The swap type this handler serves. */
    function Serves(): SwapType {
      match this
      case SolToTokenSwap(_) => SolToToken
      case TokenToSolSwap(_) => TokenToSol
      case TokenToTokenSwap(_) => TokenToToken
    }
  }

  /** The tag byte of each swap type. */
  function Tag(t: SwapType): (b: byte)
    ensures b <= 2
  {
    match t
    case SolToToken => 0
    case TokenToSol => 1
    case TokenToToken => 2
  }

  /** The swap type a leading byte names, if any. */
  function SwapTypeOfTag(b: byte): (r: Option<SwapType>)
    ensures r.Some? <==> b <= 2
    ensures r.Some? ==> Tag(r.value) == b
  {
    match b
    case 0 => Some(SolToToken)
    case 1 => Some(TokenToSol)
    case 2 => Some(TokenToToken)
    case _ => None
  }

  /** `SwapInstruction::unpack`: a known tag and exactly eight more bytes. */
  function Unpack(input: seq<byte>): (r: Option<SwapInstruction>)
    ensures r.Some? <==> |input| == 9 && input[0] <= 2
    ensures r.Some? ==> Tag(r.value.swapType) == input[0] && r.value.amount == FromLe(input[1..])
  {
    var swapType := if |input| == 0 then None else SwapTypeOfTag(input[0]);
    if swapType.None? then None
    else
      // reached only when the tag byte exists, so input[1..] is in range
      var data := input[1..];
      if |data| != 8 then None
      else Some(SwapInstruction(swapType.value, U64FromLe(data)))
  }

  /** The wire form `Unpack` reads. */
  function Pack(instruction: SwapInstruction): (s: seq<byte>)
    ensures |s| == 9
  {
    [Tag(instruction.swapType)] + U64ToLe(instruction.amount)
  }

  /** Every instruction survives encoding and decoding unchanged. */
  lemma UnpackPack(instruction: SwapInstruction)
    ensures Unpack(Pack(instruction)) == Some(instruction)
  {
  }

  /** Whatever the decoder accepts is exactly the encoding of what it returns. */
  lemma PackUnpack(input: seq<byte>)
    requires Unpack(input).Some?
    ensures Pack(Unpack(input).value) == input
  {
  }

  /** The number of accounts each swap type must be given. */
  function RequiredAccounts(t: SwapType): (n: nat)
    ensures (t.SolToToken? || t.TokenToSol?) ==> n == 4
    ensures t.TokenToToken? ==> n == 5
  {
    match t
    case SolToToken | TokenToSol => 4
    case TokenToToken => 5
  }

  /** The entry point: decode, check the account count, then route to the
      handler of the decoded swap type with the decoded amount. */
  function Process(input: seq<byte>, accountCount: nat): (r: Result<SwapCall>)
    ensures Unpack(input).None? ==> r == Err(InvalidInstructionData)
    ensures Unpack(input).Some? && accountCount != RequiredAccounts(Unpack(input).value.swapType) ==>
      r == Err(InvalidArgument)
    ensures r.Ok? <==> Unpack(input).Some? && accountCount == RequiredAccounts(Unpack(input).value.swapType)
    ensures r.Ok? ==> r.value.Serves() == Unpack(input).value.swapType && r.value.amount == Unpack(input).value.amount
  {
    match Unpack(input)
    case None => Err(InvalidInstructionData)
    case Some(instruction) =>
      if accountCount != RequiredAccounts(instruction.swapType) then Err(InvalidArgument)
      else
        match instruction.swapType
        case SolToToken => Ok(SolToTokenSwap(instruction.amount))
        case TokenToSol => Ok(TokenToSolSwap(instruction.amount))
        case TokenToToken => Ok(TokenToTokenSwap(instruction.amount))
  }

  /** What the entry point accepts, stated on the raw bytes: nine bytes, a
      known tag, and four accounts (five for a token-to-token swap). */
  lemma ProcessAccepts(input: seq<byte>, accountCount: nat)
    ensures Process(input, accountCount).Ok? <==>
      |input| == 9 && input[0] <= 2 && accountCount == (if input[0] == 2 then 5 else 4)
  {
  }

  /** Encoding an instruction and handing it over with the right number of
      accounts reaches that instruction's handler with its amount. */
  lemma ProcessPacked(instruction: SwapInstruction)
    ensures var r := Process(Pack(instruction), RequiredAccounts(instruction.swapType));
      r.Ok? && r.value.Serves() == instruction.swapType && r.value.amount == instruction.amount
  {
  }
}
