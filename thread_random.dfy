/** The calls the generator makes on `ThreadLocalRandom.current()`, as oracles:
    each call may return any value of its range and nothing is assumed about how
    values are distributed or how one call relates to another. An empty range is
    refused with an IllegalArgumentException, as the library does. */
module ThreadRandom {
  import opened Wrappers
  import opened JavaNumbers
  import opened Faults

  predicate InHalfOpen(x: real, lo: real, hi: real) {
    lo <= x < hi
  }

  /** `nextInt(origin, bound)`: an `int` in `[origin, bound)`. */
  method NextInt(origin: Int32, bound: Int32) returns (r: Result<Int32, Fault>)
    ensures r.Success? <==> origin < bound
    ensures r.Success? ==> origin <= r.value < bound
    ensures r.Failure? ==> r.error == BadRange
  {
    if origin >= bound {
      return Failure(BadRange);
    }
    var x: Int32 :| origin <= x < bound;
    return Success(x);
  }

  /** `nextInt(bound)`: an `int` in `[0, bound)`. */
  method NextIntBelow(bound: Int32) returns (r: Result<Int32, Fault>)
    ensures r.Success? <==> 0 < bound
    ensures r.Success? ==> 0 <= r.value < bound
    ensures r.Failure? ==> r.error == IllegalArgument(Some("bound must be positive"))
  {
    if bound <= 0 {
      return Failure(IllegalArgument(Some("bound must be positive")));
    }
    var x: Int32 :| 0 <= x < bound;
    return Success(x);
  }

  /** `nextDouble(origin, bound)`: a real in `[origin, bound)`. */
  method NextDouble(origin: real, bound: real) returns (r: Result<real, Fault>)
    ensures r.Success? <==> origin < bound
    ensures r.Success? ==> origin <= r.value < bound
    ensures r.Failure? ==> r.error == BadRange
  {
    if !(origin < bound) {
      return Failure(BadRange);
    }
    assert InHalfOpen(origin, origin, bound);
    var x: real :| InHalfOpen(x, origin, bound);
    assert InHalfOpen(x, origin, bound);
    return Success(x);
  }
}
