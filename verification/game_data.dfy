/** The settings classifiers exported as `GameProps` (utils/gamedata.js):
    each maps one numeric game setting to the label shown for it. JavaScript
    numbers are modelled as exact reals. */
module GameData {

  /** `gravity`: exact matches on 0.3 and 0.5, everything else is normal. */
  function Gravity(value: real): (name: string)
    ensures name == "low" <==> value == 0.3
    ensures name == "high" <==> value == 0.5
    ensures name == "normal" <==> value != 0.3 && value != 0.5
  {
    if value == 0.3 then "low"
    else if value == 0.5 then "high"
    else "normal"
  }

  /** `jump`: an upward impulse, so more negative means a higher jump. */
  function Jump(value: real): (name: string)
    ensures name == "high" <==> value <= -9.0
    ensures name == "low" <==> value >= -7.0
    ensures name == "normal" <==> -9.0 < value < -7.0
  {
    if value <= -9.0 then "high"
    else if value >= -7.0 then "low"
    else "normal"
  }

  /** `speed`: the four leftward speeds -1..-4 have their own labels; any
      other value falls back to normal. */
  function Speed(value: real): (name: string)
    ensures name == "slow" <==> value == -1.0
    ensures name == "fast" <==> value == -3.0
    ensures name == "very fast" <==> value == -4.0
    ensures name == "normal" <==> value !in {-1.0, -3.0, -4.0}
  {
    if value == -1.0 then "slow"
    else if value == -2.0 then "normal"
    else if value == -3.0 then "fast"
    else if value == -4.0 then "very fast"
    else "normal"
  }

  /** `pipes`: the pipe gap, in four bands. */
  function Pipes(value: real): (name: string)
    ensures name == "very close" <==> value < 75.0
    ensures name == "close" <==> 75.0 <= value < 125.0
    ensures name == "normal" <==> 125.0 <= value < 175.0
    ensures name == "far" <==> 175.0 <= value
  {
    if value < 75.0 then "very close"
    else if value < 125.0 then "close"
    else if value < 175.0 then "normal"
    else "far"
  }

  /** Strength of a jump label: high > normal > low. */
  function JumpStrength(name: string): int
  {
    if name == "high" then 2 else if name == "normal" then 1 else 0
  }

  /** Closeness of a pipe label: very close > close > normal > far. */
  function PipeCloseness(name: string): int
  {
    if name == "very close" then 3
    else if name == "close" then 2
    else if name == "normal" then 1
    else 0
  }

  /** Every classifier is total and answers with one of its own labels. */
  lemma LabelsAreClosed(value: real)
    ensures Gravity(value) in {"low", "normal", "high"}
    ensures Jump(value) in {"low", "normal", "high"}
    ensures Speed(value) in {"slow", "normal", "fast", "very fast"}
    ensures Pipes(value) in {"very close", "close", "normal", "far"}
  {
  }

  /** The jump boundaries: -9 is already high, -7 is already low. */
  lemma JumpBoundaries()
    ensures Jump(-9.0) == "high" && Jump(-7.0) == "low" && Jump(-8.0) == "normal"
  {
  }

  /** A more negative jump value never yields a weaker category. */
  lemma JumpMonotone(a: real, b: real)
    requires a <= b
    ensures JumpStrength(Jump(a)) >= JumpStrength(Jump(b))
  {
  }

  /** A larger pipe gap never yields a closer category. */
  lemma PipesMonotone(a: real, b: real)
    requires a <= b
    ensures PipeCloseness(Pipes(a)) >= PipeCloseness(Pipes(b))
  {
  }

  /** The four speeds a start event can carry map to distinct labels, and
      the default game speed -2 is normal. */
  lemma SpeedTable()
    ensures Speed(-1.0) == "slow" && Speed(-2.0) == "normal"
    ensures Speed(-3.0) == "fast" && Speed(-4.0) == "very fast"
  {
  }
}
