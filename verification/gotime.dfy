/**
  The slice of Go's `time` package used by the refresh policy. An instant is a number of
  nanoseconds on one common time line; a `Duration` is Go's signed 64-bit nanosecond count.
 */
module GoTime {

  const MinDuration: int := -0x8000_0000_0000_0000
  const MaxDuration: int := 0x7FFF_FFFF_FFFF_FFFF

  type Duration = d: int | MinDuration <= d <= MaxDuration

  /** `t.Sub(u)`: the elapsed time from `u` to `t`, saturated at the ends of the Duration range. */
  function Sub(t: int, u: int): (d: Duration)
    ensures MinDuration <= t - u <= MaxDuration ==> d == t - u
    ensures t - u > MaxDuration ==> d == MaxDuration
    ensures t - u < MinDuration ==> d == MinDuration
  {
    if t - u > MaxDuration then MaxDuration
    else if t - u < MinDuration then MinDuration
    else t - u
  }

  /** `d / 2` on a Duration: Go's integer division truncates toward zero. */
  function Half(d: Duration): (h: Duration)
    ensures d >= 0 ==> 0 <= d - 2 * h <= 1
    ensures d < 0 ==> -1 <= d - 2 * h <= 0
  {
    if d >= 0 then d / 2 else var m: int := (d as int); -((-m) / 2)
  }

  /** `t.After(u)`: strictly later. */
  predicate After(t: int, u: int) {
    t > u
  }
}
