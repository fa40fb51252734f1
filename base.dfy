/** Small shared vocabulary: optional values, results, and the batch threshold. */
module Base {

  datatype Option<+T> = None | Some(value: T)

  datatype Result<+T, +E> = Ok(value: T) | Err(error: E)

  /** The length at which a growing, non-empty batch first satisfies `len(batch) >= batch_size`.
      For a positive batch size that is the batch size itself; for zero or a negative size a
      single element already reaches it. The length just before it, if any, does not. */
  function Threshold(batchSize: int): (t: nat)
    ensures t >= 1 && t >= batchSize
    ensures t == 1 || t - 1 < batchSize
    ensures batchSize >= 1 ==> t == batchSize
  {
    if batchSize < 1 then 1 else batchSize
  }
}
