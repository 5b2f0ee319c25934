/** Shared value types and the rounding used by the drivers. */
module Common {
  datatype Option<+T> = None | Some(value: T) {
    function GetOr(default: T): T {
      if None? then default else value
    }
  }

  datatype Result<+T, +E> = Ok(value: T) | Err(error: E)

  type byte = x: int | 0 <= x < 256

  function Abs(x: real): real {
    if x < 0.0 then -x else x
  }

  /** Nearest integer, ties to the even neighbour: Python's `round` on exact reals. */
  function RoundHalfEven(x: real): (n: int)
    ensures Abs(x - n as real) <= 0.5
  {
    var low := x.Floor;
    var frac := x - low as real;
    if frac < 0.5 then low
    else if frac > 0.5 then low + 1
    else if low % 2 == 0 then low
    else low + 1
  }

  /** Nearest integer, ties away from zero: `ROUND_HALF_UP` of Python's decimal module. */
  function RoundHalfAway(x: real): (n: int)
    ensures Abs(x - n as real) <= 0.5
  {
    if x < 0.0 then -((-x + 0.5).Floor) else (x + 0.5).Floor
  }

  /** The nearest integer is one only, but for the two of a tie. */
  lemma RoundHalfEvenIs(x: real, n: int)
    ensures RoundHalfEven(x) == n
      <==> -0.5 <= x - n as real <= 0.5 && (x - n as real == 0.5 || x - n as real == -0.5 ==> n % 2 == 0)
  {
  }

  lemma RoundHalfAwayIs(x: real, n: int)
    ensures RoundHalfAway(x) == n
      <==> -0.5 <= x - n as real <= 0.5 && (x - n as real == 0.5 ==> n < 0) && (x - n as real == -0.5 ==> n > 0)
  {
  }

  /** True when `small` can be read inside `large` starting at `at`. */
  ghost predicate OccursAt<T>(large: seq<T>, small: seq<T>, at: nat) {
    at + |small| <= |large| && large[at..at + |small|] == small
  }
}
