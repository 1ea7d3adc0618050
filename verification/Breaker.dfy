/**
 The circuit breaker, under an explicit clock.
 */
module Breaker {
  import opened Options

  datatype State = Closed | Open | HalfOpen

  /** An error as `isFailure` looks at it: what it wraps, and its status if it is an `AuthError`. */
  datatype Error = Error(wraps: set<int>, authStatus: Option<int>)

  /** `threshold` is the configured number of failures N; `budget` counts down from it. */
  datatype Circuit = Circuit(threshold: int, timeout: int, budget: int, lastFailure: int, state: State)

  // ---------------------------------------------------------------- specification

  function Threshold(configured: int): (n: int)
    ensures n > 0
  {
    if configured <= 0 then 5 else configured
  }

  function New(configured: int, timeout: int): Circuit {
    Circuit(Threshold(configured), timeout, Threshold(configured), 0, Closed)
  }

  datatype Outcome = Outcome(next: Circuit, allowed: bool)

  /** `Check` at time `now`, with an error or without. */
  function Checked(c: Circuit, failed: bool, now: int): Outcome {
    match c.state
    case Closed =>
      if !failed then Outcome(c, true)
      else if c.budget - 1 <= 0 then Outcome(c.(budget := c.budget - 1, state := Open, lastFailure := now), false)
      else Outcome(c.(budget := c.budget - 1), true)
    case Open =>
      if now - c.lastFailure >= c.timeout then Outcome(c.(state := HalfOpen), true) else Outcome(c, false)
    case HalfOpen =>
      if failed then Outcome(c.(state := Open, lastFailure := now), false) else Outcome(c, true)
  }

  function Succeeded(c: Circuit): Circuit {
    if c.state == Open then c else c.(budget := c.threshold, state := Closed)
  }

  // ---------------------------------------------------------------- the object

  class CircuitBreaker {
    const threshold: int
    const timeout: int
    const checkErrors: seq<int>
    const checkCodes: seq<int>
    var budget: int
    var lastFailure: int
    var state: State

    function Now(): Circuit
      reads this
    {
      Circuit(threshold, timeout, budget, lastFailure, state)
    }

    constructor (configured: int, timeout: int, checkErrors: seq<int>, checkCodes: seq<int>)
      ensures Now() == New(configured, timeout)
    {
      this.threshold := Threshold(configured);
      this.timeout := timeout;
      this.checkErrors, this.checkCodes := checkErrors, checkCodes;
      budget, lastFailure, state := Threshold(configured), 0, Closed;
    }

    /** The lists of checked errors and codes make no difference: any error is a failure. */
    method IsFailure(err: Option<Error>) returns (b: bool)
      ensures b == err.Some?
    {
      if err.None? {
        return false;
      }
      for i := 0 to |checkErrors| {
        if checkErrors[i] in err.value.wraps {
          return true;
        }
      }
      if |checkCodes| > 0 && err.value.authStatus.Some? {
        for i := 0 to |checkCodes| {
          if err.value.authStatus.value == checkCodes[i] {
            return true;
          }
        }
      }
      return true;
    }

    method Check(err: Option<Error>, now: int) returns (allowed: bool)
      modifies this
      ensures Checked(old(Now()), err.Some?, now) == Outcome(Now(), allowed)
    {
      var failed := IsFailure(err);
      if state == Closed {
        if failed {
          budget := budget - 1;
          if budget <= 0 {
            state := Open;
            lastFailure := now;
            return false;
          }
        }
        return true;
      }
      if state == Open {
        if now - lastFailure >= timeout {
          state := HalfOpen;
          return true;
        }
        return false;
      }
      if failed {
        state := Open;
        lastFailure := now;
        return false;
      }
      return true;
    }

    method Success()
      modifies this
      ensures Now() == Succeeded(old(Now()))
    {
      if state == HalfOpen {
        budget := threshold;
        state := Closed;
      }
      if state == Closed {
        budget := threshold;
      }
    }
  }

  // ---------------------------------------------------------------- whole runs

  datatype Op = Check(failed: bool, now: int) | Success(now: int)

  function Apply(c: Circuit, op: Op): Circuit {
    match op
    case Check(failed, now) => Checked(c, failed, now).next
    case Success(_) => Succeeded(c)
  }

  function After(c: Circuit, ops: seq<Op>): Circuit {
    if ops == [] then c else Apply(After(c, ops[..|ops| - 1]), ops[|ops| - 1])
  }

  /**
   The failures reported since the breaker last closed or succeeded, read off the history:
   a success counts only when the breaker is not open.
   */
  function Failures(c: Circuit, ops: seq<Op>): nat {
    if ops == [] then 0
    else
      var p, op := ops[..|ops| - 1], ops[|ops| - 1];
      match op
      case Success(_) => if After(c, p).state == Open then Failures(c, p) else 0
      case Check(failed, _) => Failures(c, p) + (if failed && After(c, p).state == Closed then 1 else 0)
  }

  /** When the breaker last opened. */
  function OpenedAt(c: Circuit, ops: seq<Op>): int {
    if ops == [] then 0
    else
      var p, op := ops[..|ops| - 1], ops[|ops| - 1];
      if After(c, p).state != Open && After(c, ops).state == Open then op.now else OpenedAt(c, p)
  }

  /**
   In every run of a breaker with threshold N: it is closed exactly while its budget is in
   1..N, and the budget is then N minus the failures since it last closed or succeeded, which
   are fewer than N; open or half-open, the budget is 0; it remembers when it opened.
   */
  lemma {:induction false} BudgetCounts(configured: int, timeout: int, ops: seq<Op>)
    ensures var c0 := New(configured, timeout);
            var c, n := After(c0, ops), if configured <= 0 then 5 else configured;
            && c.threshold == n && c.timeout == timeout
            && (c.state == Closed <==> 1 <= c.budget <= n)
            && (c.state == Closed ==> c.budget == n - Failures(c0, ops))
            && (c.state != Closed ==> c.budget == 0 && Failures(c0, ops) == n)
            && (c.state == Open ==> c.lastFailure == OpenedAt(c0, ops))
    decreases ops
  {
    if ops != [] {
      BudgetCounts(configured, timeout, ops[..|ops| - 1]);
    }
  }

  /** A check is allowed if and only if it does not leave the breaker open. */
  lemma {:induction false} AllowedUnlessOpen(c: Circuit, failed: bool, now: int)
    ensures Checked(c, failed, now).allowed <==> Checked(c, failed, now).next.state != Open
  {
  }

  /** It opens exactly on the N-th such failure, or on a failure while half-open. */
  lemma {:induction false} OpensOnNth(configured: int, timeout: int, ops: seq<Op>, op: Op)
    ensures var c0 := New(configured, timeout);
            var c, d := After(c0, ops), After(c0, ops + [op]);
            c.state != Open ==>
              (d.state == Open <==>
                op.Check? && op.failed && (c.state == HalfOpen || Failures(c0, ops) == Threshold(configured) - 1))
  {
    assert (ops + [op])[..|ops|] == ops;
    BudgetCounts(configured, timeout, ops);
  }

  /**
   An open breaker stays open and refuses every check, failing or not, whatever successes are
   reported, until the timeout since it opened has passed; the first check after that is let through.
   */
  lemma {:induction false} OpenHolds(c: Circuit, ops: seq<Op>, failed: bool, now: int)
    requires c.state == Open && forall i :: 0 <= i < |ops| ==> ops[i].now < c.lastFailure + c.timeout
    ensures After(c, ops) == c
    ensures Checked(After(c, ops), failed, now).allowed <==> now >= c.lastFailure + c.timeout
    decreases ops
  {
    if ops != [] {
      OpenHolds(c, ops[..|ops| - 1], failed, now);
    }
  }

  /** Half-open lets any number of calls through: only a failure or a success ends it. */
  lemma {:induction false} HalfOpenUnlimited(c: Circuit, ops: seq<Op>)
    requires c.state == HalfOpen && forall i :: 0 <= i < |ops| ==> ops[i].Check? && !ops[i].failed
    ensures After(c, ops) == c && forall now :: Checked(After(c, ops), false, now).allowed
    decreases ops
  {
    if ops != [] {
      HalfOpenUnlimited(c, ops[..|ops| - 1]);
    }
  }

  /** In every run: from the opening of the breaker to the end of its timeout, no check is allowed. */
  lemma {:induction false} NoCallWhileOpen(configured: int, timeout: int, ops: seq<Op>, failed: bool, now: int)
    ensures var c0 := New(configured, timeout);
            After(c0, ops).state == Open ==>
              (Checked(After(c0, ops), failed, now).allowed <==> now >= OpenedAt(c0, ops) + timeout)
  {
    BudgetCounts(configured, timeout, ops);
  }
}
