/** The instruction decoder of the liquidity-pool program (lp.rs): one tag
    byte followed by fixed-width little-endian u64 fields. */
module LiquidityPool {
  import opened Primitives
  import opened LittleEndian

  /** `PoolOperation`. */
  datatype PoolOperation =
    | AddLiquidity(amount0: u64, amount1: u64)
    | RemoveLiquidity(liquidityAmount: u64)

  /** `PoolOperation::unpack`. Tag 0 takes exactly sixteen payload bytes,
      tag 1 exactly eight; everything else is rejected. */
  function Unpack(input: seq<byte>): (r: Option<PoolOperation>)
    ensures r.Some? <==> (|input| == 17 && input[0] == 0) || (|input| == 9 && input[0] == 1)
    ensures r.Some? && r.value.AddLiquidity? ==>
      input[0] == 0 && r.value.amount0 == FromLe(input[1..9]) && r.value.amount1 == FromLe(input[9..17])
    ensures r.Some? && r.value.RemoveLiquidity? ==>
      input[0] == 1 && r.value.liquidityAmount == FromLe(input[1..9])
  {
    if |input| < 1 then None
    else
      var operationType := input[0];
      var data := input[1..];
      match operationType
      case 0 =>
        if |data| != 16 then None
        else
          assert data[..8] == input[1..9] && data[8..] == input[9..17];
          Some(AddLiquidity(U64FromLe(data[..8]), U64FromLe(data[8..])))
      case 1 =>
        if |data| != 8 then None
        else
          assert data == input[1..9];
          Some(RemoveLiquidity(U64FromLe(data)))
      case _ => None
  }

  /** The wire form `Unpack` reads: the tag byte, then each field as eight
      little-endian bytes. */
  function Pack(op: PoolOperation): (s: seq<byte>)
    ensures |s| == (if op.AddLiquidity? then 17 else 9)
  {
    match op
    case AddLiquidity(amount0, amount1) => [0] + U64ToLe(amount0) + U64ToLe(amount1)
    case RemoveLiquidity(liquidityAmount) => [1] + U64ToLe(liquidityAmount)
  }

  /** Every operation survives encoding and decoding unchanged. */
  lemma UnpackPack(op: PoolOperation)
    ensures Unpack(Pack(op)) == Some(op)
  {
  }

  /** The decoder accepts only canonical encodings: whatever it accepts is
      exactly the encoding of what it returns. */
  lemma PackUnpack(input: seq<byte>)
    requires Unpack(input).Some?
    ensures Pack(Unpack(input).value) == input
  {
  }
}
