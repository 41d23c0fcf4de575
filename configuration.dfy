/**
 * `ControlSettings`: the configuration record the view-model reads its speed
 * default and its speed bounds from.
 */
module Configuration {
  import opened Primitives

  datatype ControlSettings = ControlSettings(
    defaultSpeed: Int32,
    minSpeed: Int32,
    maxSpeed: Int32,
    defaultState: string)
  {
    /** A speed the view-model accepts under these bounds. */
    predicate InRange(v: int) {
      minSpeed <= v <= maxSpeed
    }

    /** The default speed lies within the bounds. */
    predicate Consistent() {
      InRange(defaultSpeed)
    }
  }

  /** `new ControlSettings()`: every property at its initialiser. */
  function Defaults(): (s: ControlSettings)
    ensures s.Consistent()
    ensures s.minSpeed <= s.maxSpeed
    ensures KnownState(s.defaultState) && s.defaultState == Idle
  {
    ControlSettings(defaultSpeed := 100, minSpeed := 1, maxSpeed := 1000, defaultState := "Idle")
  }
}
