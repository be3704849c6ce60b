/** Small definitions shared by every component of the model. */
module Basics {

  datatype Option<+T> = None | Some(value: T)

  /** A reading of the monotonic clock, or a duration, in nanoseconds. */
  type Time = int

  const SECOND: Time := 1_000_000_000

  function Max(a: int, b: int): int { if a < b then b else a }

  function One(b: bool): nat { if b then 1 else 0 }

  function Lookup<V>(m: map<string, V>, key: string): Option<V> { if key in m then Some(m[key]) else None }

  function Min(a: int, b: int): int { if a < b then a else b }
}
