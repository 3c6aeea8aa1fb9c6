/** torch's split and chunk along the rows of a tensor, which is the sequence of its rows. */
module TorchRows {
  import Division

  /** tensor.split(size): consecutive pieces of `size` rows, the last one possibly shorter. */
  function Pieces<R>(t: seq<R>, size: nat): seq<seq<R>>
    requires size > 0
    decreases |t|
  {
    if |t| <= size then [t] else [t[..size]] + Pieces(t[size..], size)
  }

  /** tensor.chunk(n): pieces of the rounded-up size; of no rows, n empty pieces. */
  function ChunkRows<R>(t: seq<R>, n: nat): seq<seq<R>>
    requires n > 0
  {
    if t == [] then seq(n, _ => []) else Pieces(t, Division.CeilDiv(|t|, n))
  }
}
