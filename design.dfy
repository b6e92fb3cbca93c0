/**
  The generation inputs of a saved design, as the generator and the stores read
  them (`GeneratedDesign` and its `GenerationParameters`), and Swift's conversion
  of a `Double` to `Int`.
 */
module Design {
  import opened Patterns

  /** The parameters the procedural generator reads. */
  datatype GenerationParameters = GenerationParameters(
    randomSeed: int,
    density: real,
    scale: real,
    iterations: int)

  /** A saved design: its identity, its pattern and the parameters it was generated from. */
  datatype GeneratedDesign = GeneratedDesign(
    id: string,
    pattern: BiomimicryPattern,
    parameters: GenerationParameters)

  /** Swift's `Int(x)` for a finite `Double`: the integer part, rounding toward zero. */
  function TruncToInt(x: real): (n: int)
    ensures x >= 0.0 ==> 0 <= n && n as real <= x < n as real + 1.0
    ensures x < 0.0 ==> n <= 0 && n as real - 1.0 < x <= n as real
  {
    if x >= 0.0 then x.Floor else -((-x).Floor)
  }

  lemma TruncToIntMonotone(x: real, y: real)
    requires x <= y
    ensures TruncToInt(x) <= TruncToInt(y)
  {
  }

  /**
    `lo <= x <= hi`. A value drawn from a closed range (`Float.random(in:)`,
    `Int.random(in:)`) is any x with Between(lo, x, hi).
   */
  predicate Between(lo: real, x: real, hi: real) {
    lo <= x <= hi
  }

  /**
    Division as the model evaluates it: a zero divisor gives 0. The generators
    divide by a count or a turn number that is zero only for some negative
    densities, where the floating-point result is NaN or infinite.
   */
  function SafeDiv(a: real, b: real): real {
    if b == 0.0 then 0.0 else a / b
  }
}
