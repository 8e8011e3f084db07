// Names shared by every part of the model.
module Types {
  // Row identifiers are positions in their table, so two rows never share one.
  type UserId = nat
  type RoundId = nat
  type BetId = nat

  datatype Color = Red | Green | Violet

  datatype Option<+T> = None | Some(value: T)

  // Number.MAX_SAFE_INTEGER
  const MAX_SAFE_INTEGER: int := 0x1F_FFFF_FFFF_FFFF
}
