/** Small things shared by the models. */
module Basics {

  datatype Maybe<T> = Nothing | Just(value: T)

  /** A slot of a circular array: cleared, or holding an item. Integers stand for the items. */
  datatype Cell = Cleared | Holding(item: int)

  function Min(a: int, b: int): int { if a < b then a else b }

  function Max(a: int, b: int): int { if a > b then a else b }

  /** What a history has gained since it read `before`. */
  function Gained<T>(before: seq<T>, after: seq<T>): seq<T> {
    if |before| <= |after| then after[|before|..] else []
  }
}
