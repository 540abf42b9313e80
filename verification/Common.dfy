/** Vocabulary shared by the models: optional values and results, and the few
    facts about finite sets and sequences that several proofs need. */
module Common {

  datatype Option<+T> = None | Some(value: T)

  datatype Result<+T, +E> = Ok(value: T) | Err(error: E)

  function Min(a: int, b: int): int { if a < b then a else b }

  function Max(a: int, b: int): int { if a < b then b else a }

  /** How a call to a store or a queue ends: done, failed without effect, or failed
      although it took effect. */
  datatype Outcome = Applied | LostBefore | LostAfter
}
