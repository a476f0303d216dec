/** The mm:ss split of the elapsed time that the running screen shows. */
module Timer {

  /** JavaScript's `%`: truncating, so the remainder takes the sign of the
      dividend (-1 % 60 is -1), unlike Dafny's Euclidean `%`. */
  function JsRemainder(a: int, b: int): (r: int)
    requires b > 0
    ensures a >= 0 ==> 0 <= r < b
    ensures a < 0 ==> -b < r <= 0
    ensures a - r == b * JsQuotient(a, b)
  {
    if a >= 0 then a % b else -((-a) % b)
  }

  /** JavaScript's truncating integer quotient, `Math.trunc(a / b)`. */
  function JsQuotient(a: int, b: int): int
    requires b > 0
  {
    if a >= 0 then a / b else -((-a) / b)
  }

  /** Flooring a quotient by a positive integer is Dafny's Euclidean division. */
  lemma FloorOfQuotient(n: int, d: int)
    requires d > 0
    ensures (n as real / d as real).Floor == n / d
  {
    var q, r := n / d, n % d;
    assert n == q * d + r && 0 <= r < d;
    assert n as real / d as real == q as real + r as real / d as real;
    assert 0.0 <= r as real / d as real < 1.0;
  }

  datatype ClockReading = ClockReading(minutes: int, seconds: int)

  /** Whole seconds, then whole minutes and the seconds left over, from an
      elapsed time in milliseconds. For a non-negative elapsed time the
      reading is exact: minutes and seconds recombine to the whole seconds
      elapsed, and the seconds are below a minute. */
  function Clock(elapsedTime: real): (c: ClockReading)
    ensures elapsedTime >= 0.0 ==>
      c.minutes >= 0 && 0 <= c.seconds < 60 &&
      c.minutes * 60 + c.seconds == (elapsedTime / 1000.0).Floor
  {
    var seconds := (elapsedTime / 1000.0).Floor;
    var minutes := (seconds as real / 60.0).Floor;
    FloorOfQuotient(seconds, 60);
    ClockReading(minutes, JsRemainder(seconds, 60))
  }

  /** Before zero the reading does not recombine: 5 ms before zero reads as
      minute -1 and second -1, because the minutes are floored while the
      remainder truncates. */
  lemma ClockBeforeZero()
    ensures Clock(-5.0) == ClockReading(-1, -1)
    ensures Clock(-5.0).minutes * 60 + Clock(-5.0).seconds != (-5.0 / 1000.0).Floor
  {
    FloorOfQuotient(-1, 60);
  }
}
