/**
 The per-session count of model calls and the guard that stops the page
 before a request would take the count past the configured ceiling.
 */
module Budget {

  /** The session's call counter together with its ceiling MAX_CALLS. */
  class ApiBudget {
    /** Calls made in this session (st.session_state.api_calls). */
    var used: int
    /** The ceiling read from the configuration. */
    const max: int

    /** The counter never goes below zero and, under a non-negative ceiling, never above it. */
    predicate Valid()
      reads this
    {
      0 <= used && (0 <= max ==> used <= max)
    }

    /** A new session starts with no calls made. */
    constructor (max: int)
      ensures Valid()
      ensures used == 0 && this.max == max
    {
      used := 0;
      this.max := max;
    }

    /** check_api_limit: the page goes on exactly when calls more calls still fit under the ceiling. */
    function CheckApiLimit(calls: int := 1): (goOn: bool)
      reads this
      ensures goOn <==> !(used + calls > max)
      ensures goOn && calls >= 1 ==> used + 1 <= max
    {
      used + calls <= max
    }

    /** One completed request to the model: the counter goes up by one. */
    method RecordCall()
      requires Valid() && CheckApiLimit(1)
      modifies this`used
      ensures Valid()
      ensures used == old(used) + 1
    {
      used := used + 1;
    }
  }

  /**
   How many scoring presses whose request returns a session can still make
   from a count of used calls: each press needs room for 3 calls but uses 1.
   */
  function PermittedPresses(used: int, max: int): nat
    decreases max - used
  {
    if used + 3 > max then 0 else 1 + PermittedPresses(used + 1, max)
  }

  /** Presses stop when the count reaches max - 2: the last two calls under the ceiling are never made. */
  lemma {:induction false} PermittedPressesCount(used: int, max: int)
    ensures PermittedPresses(used, max) == if used + 3 > max then 0 else max - 2 - used
    decreases max - used
  {
    if used + 3 <= max {
      PermittedPressesCount(used + 1, max);
    }
  }
}
