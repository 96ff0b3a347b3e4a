// Instants in nanoseconds, and the whole Unix second one falls in.
module Clock {
  const SECOND := 1_000_000_000
  const MINUTE := 60 * SECOND

  // The instant of Go's zero time.Time.
  const ZERO_TIME := -62_135_596_800 * SECOND

  // Dafny's division by a positive number is the floor.
  function Unix(now: int): (second: int) { now / SECOND }
}
