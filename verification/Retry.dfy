/**
 `SendWithRetry`: one request, retried with backoff behind a circuit breaker.  Durations are
 in nanoseconds, as 64-bit integers that wrap around; everything the outside world decides in
 an attempt is a `Turn`.
 */
module Retry {
  import opened Options
  import opened Breaker

  const MAX_RETRIES := 10
  const MILLI := 1_000_000
  const SECOND := 1_000_000_000
  const MAX_BACKOFF := 15 * SECOND
  const WORD := 0x1_0000_0000_0000_0000

  // ---------------------------------------------------------------- backoff

  function Wrap64(x: int): int {
    var m := x % WORD;
    if m < WORD / 2 then m else m - WORD
  }

  function Pow2(n: nat): (p: nat)
    ensures p > 0
  {
    if n == 0 then 1 else 2 * Pow2(n - 1)
  }

  /** `time.Duration(1<<(attempt-1)) * 500 * time.Millisecond` */
  function Doubled(attempt: nat): int
    requires attempt >= 1
  {
    Wrap64(Pow2(attempt - 1) * (500 * MILLI))
  }

  /** `rand.Intn(250)` gives the jitter. */
  function BackoffDelay(attempt: nat, retryAfter: int, jitter: nat): int
    requires attempt >= 1
  {
    if retryAfter > 0 then
      if retryAfter > MAX_BACKOFF then MAX_BACKOFF else retryAfter
    else
      var d := Doubled(attempt);
      (if d > MAX_BACKOFF then MAX_BACKOFF else d) + jitter * MILLI
  }

  /** The `Retry-After` header in seconds, when it is a whole number. */
  function ParseRetryAfter(header: Option<int>): int {
    if header.Some? && header.value >= 0 then Wrap64(header.value * SECOND) else 0
  }

  /** 500 milliseconds are 256 times this many nanoseconds, 5 to the power of 9. */
  const ODD := 1953125

  /** Bit 63 of the product, which is its sign. */
  predicate SignBit(attempt: nat)
    requires 1 <= attempt <= 56
  {
    OddAt(Pow2(56 - attempt))
  }

  predicate OddAt(k: nat)
    requires k > 0
  {
    (ODD / k) % 2 == 1
  }

  lemma {:induction false} Pow2Sum(a: nat, b: nat)
    ensures Pow2(a) * Pow2(b) == Pow2(a + b)
    decreases a
  {
    if a > 0 {
      Pow2Sum(a - 1, b);
      assert Pow2(a) * Pow2(b) == 2 * (Pow2(a - 1) * Pow2(b));
    }
  }

  lemma {:induction false} Pow2Grows(a: nat, b: nat)
    requires a <= b
    ensures Pow2(a) <= Pow2(b)
    decreases b
  {
    if a < b {
      Pow2Grows(a, b - 1);
    }
  }

  lemma {:induction false} Pow2Values(n: nat)
    requires n == 8
    ensures Pow2(n) == 256 && Pow2(2 * n + 5) == 0x20_0000 && Pow2(5 * n + 3) == 0x800_0000_0000 && Pow2(8 * n - 1) == WORD / 2
  {
    assert Pow2(2) == 4 && Pow2(3) == 8 && Pow2(4) == 16 && Pow2(5) == 32;
    Pow2Sum(4, 4);
    Pow2Sum(n, n);
    Pow2Sum(2 * n, 5);
    Pow2Sum(2 * n, 2 * n);
    Pow2Sum(4 * n, n + 3);
    Pow2Sum(n, 3);
    Pow2Sum(5 * n + 3, 2 * n + 4);
    Pow2Sum(2 * n, 4);
  }

  /** The product is an odd number shifted left. */
  lemma {:induction false} Shifted(attempt: nat)
    requires attempt >= 1
    ensures Pow2(attempt - 1) * (500 * MILLI) == Pow2(attempt + 7) * ODD
  {
    Pow2Values(8);
    Pow2Sum(attempt - 1, 8);
  }

  lemma {:induction false} WrapUnique(q: int, r: int)
    requires 0 <= r < WORD
    ensures Wrap64(q * WORD + r) == if r < WORD / 2 then r else r - WORD
  {
  }

  /** Cutting `ODD` at bit `k`, where the product has its sign bit. */
  lemma {:induction false} Cut(p: nat, k: nat, d: nat, r: nat)
    requires p * k == WORD / 2 && d * k + r == ODD && r < k
    ensures 0 <= p * r < WORD / 2
    ensures Wrap64(p * ODD) == if d % 2 == 1 then p * r - WORD / 2 else p * r
    ensures d % 2 == 0 ==> r > 0
  {
    MulLess(p, r, k);
    Distribute(p, d, k, r);
    WrapHalves(d, p * r);
    EvenProduct(d, k);
  }

  lemma {:induction false} WrapHalves(d: nat, e: nat)
    requires e < WORD / 2
    ensures Wrap64(d * (WORD / 2) + e) == if d % 2 == 1 then e - WORD / 2 else e
  {
    var q := d / 2;
    if d % 2 == 1 {
      WrapUnique(q, WORD / 2 + e);
    } else {
      WrapUnique(q, e);
    }
  }

  lemma {:induction false} EvenProduct(d: nat, k: nat)
    ensures d % 2 == 0 ==> (d * k) % 2 == 0
  {
    if d % 2 == 0 {
      var q := d / 2;
      assert d * k == 2 * (q * k);
    }
  }

  lemma {:induction false} MulLess(p: nat, r: nat, k: nat)
    requires r < k && p * k > 0
    ensures 0 <= p * r < p * k
  {
    assert p > 0;
  }

  lemma {:induction false} Distribute(p: nat, d: nat, k: nat, r: nat)
    ensures p * (d * k + r) == d * (p * k) + p * r
  {
    assert p * (d * k) == d * (p * k);
  }

  lemma {:induction false} CutAt(p: nat, k: nat)
    requires k > 0 && p * k == WORD / 2
    ensures if OddAt(k) then Wrap64(p * ODD) < 0 else Wrap64(p * ODD) >= p
    ensures k > ODD ==> !OddAt(k) && Wrap64(p * ODD) == p * ODD
  {
    var d, r := ODD / k, ODD % k;
    DivMod(ODD, k);
    Cut(p, k, d, r);
    if r > 0 {
      MulOne(p, r);
    }
  }

  lemma {:induction false} DivMod(x: nat, k: nat)
    requires k > 0
    ensures (x / k) * k + x % k == x && 0 <= x % k < k && x / k >= 0
    ensures k > x ==> x / k == 0 && x % k == x
  {
  }

  /** The wrapped product up to attempt 56, by its sign bit. */
  lemma {:induction false} DoubledBySign(attempt: nat)
    requires 1 <= attempt <= 56
    ensures if SignBit(attempt) then Doubled(attempt) < 0 else Doubled(attempt) >= 500 * MILLI
    ensures attempt <= 35 ==> !SignBit(attempt) && Doubled(attempt) == Pow2(attempt - 1) * (500 * MILLI)
  {
    var p, k := Pow2(attempt + 7), Pow2(56 - attempt);
    assert p * k == WORD / 2 by {
      Pow2Sum(attempt + 7, 56 - attempt);
      Pow2Values(8);
    }
    Shifted(attempt);
    CutAt(p, k);
    Extremes(attempt);
    if attempt <= 35 {
      MulMono(256, p, ODD);
    }
  }

  lemma {:induction false} Extremes(attempt: nat)
    requires 1 <= attempt <= 56
    ensures Pow2(attempt + 7) >= 256
    ensures attempt <= 35 ==> Pow2(56 - attempt) > ODD
    ensures attempt >= 36 ==> Pow2(attempt + 7) >= 500 * MILLI
  {
    Pow2Values(8);
    Pow2Grows(8, attempt + 7);
    if attempt <= 35 {
      Pow2Grows(21, 56 - attempt);
    } else {
      Pow2Grows(43, attempt + 7);
    }
  }

  lemma {:induction false} MulMono(a: nat, b: nat, c: nat)
    requires a <= b
    ensures a * c <= b * c
  {
  }

  lemma {:induction false} MulOne(p: nat, r: nat)
    requires r > 0
    ensures p <= p * r
  {
  }

  lemma {:induction false} DoubledZero(attempt: nat)
    requires attempt >= 57
    ensures Doubled(attempt) == 0
  {
    Shifted(attempt);
    Pow2Values(8);
    Pow2Sum(63, attempt - 56);
    var q := Pow2(attempt - 57);
    assert Pow2(attempt + 7) == (WORD / 2) * (2 * q);
    assert Pow2(attempt + 7) * ODD == (q * ODD) * WORD;
    WrapUnique(q * ODD, 0);
  }

  /** What a delay without `Retry-After` should be. */
  predicate Sensible(delay: int) {
    500 * MILLI <= delay < 15 * SECOND + 250 * MILLI
  }

  /**
   Without `Retry-After` the delay lies between half a second and the cap plus jitter exactly
   when the product has not been shifted out of 64 bits and its sign bit is clear: for the
   first 35 attempts always.
   */
  lemma {:induction false} BackoffSensible(attempt: nat, retryAfter: int, jitter: nat)
    requires attempt >= 1 && retryAfter <= 0 && jitter < 250
    ensures Sensible(BackoffDelay(attempt, retryAfter, jitter)) <==> attempt <= 56 && !SignBit(attempt)
    ensures attempt <= 35 ==> Sensible(BackoffDelay(attempt, retryAfter, jitter))
  {
    if attempt <= 56 {
      DoubledBySign(attempt);
    } else {
      DoubledZero(attempt);
    }
  }

  /** Attempt 36 is the first that goes wrong. */
  lemma {:induction false} BackoffFails(jitter: nat)
    requires jitter < 250
    ensures !Sensible(BackoffDelay(36, 0, jitter))
  {
    var n := 16;
    Pow2Values(8);
    Pow2Sum(n, 4);
    Pow2Sum(n, 5);
    assert Pow2(4) == 16 && Pow2(5) == 32;
    assert Pow2(n + 4) == 0x10_0000;
    assert SignBit(n + 20);
    BackoffSensible(n + 20, 0, jitter);
  }

  /** The longest delay attempt `k` can ask for. */
  function LongestWait(k: nat): int {
    if k <= 5 then MAX_BACKOFF else MAX_BACKOFF + 249 * MILLI
  }

  lemma {:induction false} BackoffBounded(attempt: nat, retryAfter: int, jitter: nat)
    requires 1 <= attempt <= MAX_RETRIES && jitter < 250
    ensures 0 <= BackoffDelay(attempt, retryAfter, jitter) <= LongestWait(attempt)
  {
    DoubledBySign(attempt);
    if attempt <= 5 {
      Pow2Grows(attempt - 1, 4);
      assert Pow2(4) == 16;
    }
  }

  // ---------------------------------------------------------------- one attempt

  datatype Reply = NoReply(transient: bool) | Status(code: int, retryAfter: Option<int>)

  /** What the world does in one attempt; `t0`, `t1`, `t2` are the breaker's clock readings. */
  datatype Turn = Turn(cancelled: bool, jitter: nat, unhealthy: bool, buildFails: bool, reply: Reply, t0: int, t1: int, t2: int)

  datatype Entry = Waited(ns: int) | HealthAsked(allowed: bool) | Asked(allowed: bool) | Posted | Reported | Praised

  datatype End =
    | Answered | Cancelled | VendorOpen | BreakerOpen | BuildFailed
    | Fatal | Denied(code: int) | Refused(code: int) | GaveUp(last: Option<Reply>)

  predicate RetryableStatus(s: int) {
    s == 408 || s == 429 || 500 <= s <= 599
  }

  predicate Retryable(r: Reply) {
    if r.NoReply? then r.transient else RetryableStatus(r.code)
  }

  datatype Step =
    | Again(log: seq<Entry>, b: Option<Circuit>, retryAfter: int)
    | Stop(log: seq<Entry>, b: Option<Circuit>, end: End)

  function Praise(b: Option<Circuit>): Option<Circuit> {
    if b.Some? then Some(Succeeded(b.value)) else None
  }

  function PraiseLog(b: Option<Circuit>): seq<Entry> {
    if b.Some? then [Praised] else []
  }

  function Report(b: Option<Circuit>, now: int): Option<Circuit> {
    if b.Some? then Some(Checked(b.value, true, now).next) else None
  }

  function ReportLog(b: Option<Circuit>): seq<Entry> {
    if b.Some? then [Reported] else []
  }

  /** After the request has gone out. */
  function Replied(log: seq<Entry>, b: Option<Circuit>, t: Turn): Step {
    match t.reply
    case NoReply(transient) =>
      if !transient then Stop(log, b, Fatal) else Again(log + ReportLog(b), Report(b, t.t2), 0)
    case Status(code, retryAfter) =>
      if code == 200 then Stop(log + PraiseLog(b), Praise(b), Answered)
      else if code == 401 || code == 403 then Stop(log + PraiseLog(b), Praise(b), Denied(code))
      else if !RetryableStatus(code) then Stop(log, b, Refused(code))
      else Again(log + ReportLog(b), Report(b, t.t2), ParseRetryAfter(retryAfter))
  }

  /** From the vendor's breaker on. */
  function Guarded(log: seq<Entry>, b: Option<Circuit>, t: Turn): Step {
    if b.Some? then
      var o := Checked(b.value, false, t.t1);
      var log1 := log + [Asked(o.allowed)];
      if !o.allowed then Stop(log1, Some(o.next), BreakerOpen)
      else if t.buildFails then Stop(log1, Some(o.next), BuildFailed)
      else Replied(log1 + [Posted], Some(o.next), t)
    else if t.buildFails then Stop(log, b, BuildFailed)
    else Replied(log + [Posted], b, t)
  }

  /** From the health manager on, which asks the same breaker if it holds it. */
  function Healthy(log: seq<Entry>, b: Option<Circuit>, managed: bool, t: Turn): Step {
    if t.unhealthy && managed && b.Some? then
      var o := Checked(b.value, false, t.t0);
      var log1 := log + [HealthAsked(o.allowed)];
      if !o.allowed then Stop(log1, Some(o.next), VendorOpen) else Guarded(log1, Some(o.next), t)
    else Guarded(log, b, t)
  }

  function OneTry(attempt: nat, retryAfter: int, b: Option<Circuit>, managed: bool, t: Turn): Step {
    if attempt == 0 then Healthy([], b, managed, t)
    else
      var log := [Waited(BackoffDelay(attempt, retryAfter, t.jitter))];
      if t.cancelled then Stop(log, b, Cancelled) else Healthy(log, b, managed, t)
  }

  datatype Finish = Finish(log: seq<Entry>, b: Option<Circuit>, end: End)

  function Then(log: seq<Entry>, rest: Finish): Finish {
    rest.(log := log + rest.log)
  }

  /** What one attempt does, given its number, the last `Retry-After` and the breaker. */
  type Once = (nat, int, Option<Circuit>) -> Step

  /** All attempts from `attempt` on; `last` is the reply of the one before. */
  function Tries(attempt: nat, retryAfter: int, last: Option<Reply>, b: Option<Circuit>, one: Once, replies: nat -> Reply): Finish
    decreases MAX_RETRIES + 1 - attempt
  {
    if attempt > MAX_RETRIES then Finish([], b, GaveUp(last))
    else
      match one(attempt, retryAfter, b)
      case Stop(log, b1, end) => Finish(log, b1, end)
      case Again(log, b1, ra) => Then(log, Tries(attempt + 1, ra, Some(replies(attempt)), b1, one, replies))
  }

  function Trying(managed: bool, env: nat -> Turn): Once {
    (attempt: nat, retryAfter: int, b: Option<Circuit>) => OneTry(attempt, retryAfter, b, managed, env(attempt))
  }

  function Replies(env: nat -> Turn): nat -> Reply {
    (k: nat) => env(k).reply
  }

  /** The whole call. */
  function Send(b: Option<Circuit>, managed: bool, env: nat -> Turn): Finish {
    Tries(0, 0, None, b, Trying(managed, env), Replies(env))
  }

  // ---------------------------------------------------------------- the operation

  function Value(cb: CircuitBreaker?): Option<Circuit>
    reads cb
  {
    if cb == null then None else Some(cb.Now())
  }

  method ReportFailure(cb: CircuitBreaker?, now: int) returns (log: seq<Entry>)
    modifies cb
    ensures Value(cb) == Report(old(Value(cb)), now) && log == ReportLog(old(Value(cb)))
  {
    log := [];
    if cb != null {
      var _ := cb.Check(Some(Error({}, None)), now);
      log := [Reported];
    }
  }

  method ReportSuccess(cb: CircuitBreaker?) returns (log: seq<Entry>)
    modifies cb
    ensures Value(cb) == Praise(old(Value(cb))) && log == PraiseLog(old(Value(cb)))
  {
    log := [];
    if cb != null {
      cb.Success();
      log := [Praised];
    }
  }

  method Post(log0: seq<Entry>, cb: CircuitBreaker?, t: Turn) returns (log: seq<Entry>, end: Option<End>, retryAfter: int)
    modifies cb
    ensures Replied(log0, old(Value(cb)), t)
         == if end.Some? then Stop(log, Value(cb), end.value) else Again(log, Value(cb), retryAfter)
  {
    log, end, retryAfter := log0, None, 0;
    var more := [];
    if t.reply.NoReply? {
      if !t.reply.transient {
        end := Some(Fatal);
        return;
      }
      more := ReportFailure(cb, t.t2);
      log := log + more;
      return;
    }
    var code := t.reply.code;
    if code == 200 {
      more := ReportSuccess(cb);
      return log + more, Some(Answered), 0;
    }
    retryAfter := ParseRetryAfter(t.reply.retryAfter);
    if code == 401 || code == 403 {
      more := ReportSuccess(cb);
      return log + more, Some(Denied(code)), 0;
    }
    if !RetryableStatus(code) {
      return log, Some(Refused(code)), 0;
    }
    more := ReportFailure(cb, t.t2);
    log := log + more;
  }

  method Attempt(log0: seq<Entry>, cb: CircuitBreaker?, managed: bool, t: Turn)
    returns (log: seq<Entry>, end: Option<End>, retryAfter: int)
    modifies cb
    ensures Healthy(log0, old(Value(cb)), managed, t)
         == if end.Some? then Stop(log, Value(cb), end.value) else Again(log, Value(cb), retryAfter)
  {
    log, end, retryAfter := log0, None, 0;
    if t.unhealthy && managed && cb != null {
      var allowed := cb.Check(None, t.t0);
      log := log + [HealthAsked(allowed)];
      if !allowed {
        return log, Some(VendorOpen), 0;
      }
    }
    if cb != null {
      var allowed := cb.Check(None, t.t1);
      log := log + [Asked(allowed)];
      if !allowed {
        return log, Some(BreakerOpen), 0;
      }
    }
    if t.buildFails {
      return log, Some(BuildFailed), 0;
    }
    log, end, retryAfter := Post(log + [Posted], cb, t);
  }

  method Try(attempt: nat, retryAfter: int, cb: CircuitBreaker?, managed: bool, t: Turn)
    returns (log: seq<Entry>, end: Option<End>, after: int)
    modifies cb
    ensures OneTry(attempt, retryAfter, old(Value(cb)), managed, t)
         == if end.Some? then Stop(log, Value(cb), end.value) else Again(log, Value(cb), after)
  {
    log := [];
    if attempt > 0 {
      log := [Waited(BackoffDelay(attempt, retryAfter, t.jitter))];
      if t.cancelled {
        return log, Some(Cancelled), 0;
      }
    }
    log, end, after := Attempt(log, cb, managed, t);
  }

  method SendWithRetry(cb: CircuitBreaker?, managed: bool, env: nat -> Turn) returns (log: seq<Entry>, end: End)
    modifies cb
    ensures Send(old(Value(cb)), managed, env) == Finish(log, Value(cb), end)
  {
    log := [];
    var lastErr: Option<Reply> := None;
    var retryAfter := 0;
    ghost var one, replies := Trying(managed, env), Replies(env);
    ghost var all := Send(Value(cb), managed, env);
    for attempt := 0 to MAX_RETRIES + 1
      invariant all == Then(log, Tries(attempt, retryAfter, lastErr, Value(cb), one, replies))
    {
      ghost var was := Value(cb);
      var more, stop, after := Try(attempt, retryAfter, cb, managed, env(attempt));
      assert one(attempt, retryAfter, was) == if stop.Some? then Stop(more, Value(cb), stop.value) else Again(more, Value(cb), after);
      if stop.Some? {
        return log + more, stop.value;
      }
      ThenThen(log, more, Tries(attempt + 1, after, Some(replies(attempt)), Value(cb), one, replies));
      log := log + more;
      lastErr, retryAfter := Some(env(attempt).reply), after;
    }
    end := GaveUp(lastErr);
  }

  lemma {:induction false} ThenThen(a: seq<Entry>, b: seq<Entry>, rest: Finish)
    ensures Then(a, Then(b, rest)) == Then(a + b, rest)
  {
    assert a + (b + rest.log) == a + b + rest.log;
  }

  // ---------------------------------------------------------------- what every run keeps

  function Posts(log: seq<Entry>): nat {
    if log == [] then 0 else Posts(log[..|log| - 1]) + (if log[|log| - 1].Posted? then 1 else 0)
  }

  function TotalWait(log: seq<Entry>): int {
    if log == [] then 0 else TotalWait(log[..|log| - 1]) + (if log[|log| - 1].Waited? then log[|log| - 1].ns else 0)
  }

  lemma {:induction false} LogCat(a: seq<Entry>, b: seq<Entry>)
    ensures Posts(a + b) == Posts(a) + Posts(b) && TotalWait(a + b) == TotalWait(a) + TotalWait(b)
    decreases b
  {
    if b == [] {
      assert a + b == a;
    } else {
      assert (a + b)[..|a + b| - 1] == a + b[..|b| - 1];
      LogCat(a, b[..|b| - 1]);
    }
  }

  /** Every request is immediately preceded by a breaker check that let it through. */
  ghost predicate Guards(log: seq<Entry>) {
    forall i :: 0 <= i < |log| && log[i].Posted? ==> i > 0 && log[i - 1] == Asked(true)
  }

  lemma {:induction false} ReplyKeeps(log: seq<Entry>, b: Option<Circuit>, t: Turn)
    ensures var s := Replied(log, b, t);
            && Posts(s.log) == Posts(log) && TotalWait(s.log) == TotalWait(log)
            && (s.Again? <==> Retryable(t.reply) && !(t.reply.Status? && (t.reply.code == 200 || t.reply.code == 401 || t.reply.code == 403)))
            && (Guards(log) ==> Guards(s.log))
            && (s.b.Some? <==> b.Some?)
  {
    assert log + [] == log;
    Snoc(log, Reported);
    Snoc(log, Praised);
  }

  lemma {:induction false} Snoc(log: seq<Entry>, e: Entry)
    ensures Posts(log + [e]) == Posts(log) + (if e.Posted? then 1 else 0)
    ensures TotalWait(log + [e]) == TotalWait(log) + (if e.Waited? then e.ns else 0)
    ensures Guards(log) && (e.Posted? ==> log != [] && log[|log| - 1] == Asked(true)) ==> Guards(log + [e])
  {
    assert (log + [e])[..|log|] == log;
  }

  /** A step posts at most once; if it goes on to another attempt, it posted and got a retryable reply. */
  ghost predicate StepKeeps(log: seq<Entry>, b: Option<Circuit>, t: Turn, s: Step) {
    && Posts(s.log) <= Posts(log) + 1 && TotalWait(s.log) == TotalWait(log)
    && (s.b.Some? <==> b.Some?)
    && (b.Some? && Guards(log) ==> Guards(s.log))
    && (s.Again? ==> Posts(s.log) == Posts(log) + 1 && Retryable(t.reply))
    && (s.Stop? ==> if Posts(s.log) == Posts(log) then Unsent(s.end) else s.end == Verdict(t.reply) && !Retryable(t.reply))
  }

  /** An attempt can also end before its request is sent. */
  predicate Unsent(end: End) {
    end.Cancelled? || end.VendorOpen? || end.BreakerOpen? || end.BuildFailed?
  }

  /** The verdict on a reply that is not retried. */
  function Verdict(r: Reply): End {
    match r
    case NoReply(_) => Fatal
    case Status(code, _) =>
      if code == 200 then Answered else if code == 401 || code == 403 then Denied(code) else Refused(code)
  }

  lemma {:induction false} BareKeeps(log: seq<Entry>, t: Turn)
    ensures StepKeeps(log, None, t, Guarded(log, None, t))
  {
    Snoc(log, Posted);
    ReplyKeeps(log + [Posted], None, t);
  }

  lemma {:induction false} GuardedKeeps(log: seq<Entry>, c: Circuit, t: Turn)
    ensures StepKeeps(log, Some(c), t, Guarded(log, Some(c), t))
  {
    var o := Checked(c, false, t.t1);
    var log1 := log + [Asked(o.allowed)];
    Snoc(log, Asked(o.allowed));
    if o.allowed {
      Snoc(log1, Posted);
      ReplyKeeps(log1 + [Posted], Some(o.next), t);
    }
  }

  lemma {:induction false} HealthyKeeps(log: seq<Entry>, b: Option<Circuit>, managed: bool, t: Turn)
    ensures StepKeeps(log, b, t, Healthy(log, b, managed, t))
  {
    if t.unhealthy && managed && b.Some? {
      var o := Checked(b.value, false, t.t0);
      var log1 := log + [HealthAsked(o.allowed)];
      Snoc(log, HealthAsked(o.allowed));
      GuardedKeeps(log1, o.next, t);
    } else if b.Some? {
      GuardedKeeps(log, b.value, t);
    } else {
      BareKeeps(log, t);
    }
  }

  /** The most that attempts `attempt` to 10 can ask to wait. */
  function WaitBudget(attempt: nat): (ns: int)
    ensures ns >= 0
    decreases MAX_RETRIES + 1 - attempt
  {
    if attempt > MAX_RETRIES then 0
    else (if attempt == 0 then 0 else LongestWait(attempt)) + WaitBudget(attempt + 1)
  }

  /** What one attempt keeps; if it goes on to another, it posted and got a retryable reply. */
  ghost predicate Fair(attempt: nat, b: Option<Circuit>, reply: Reply, s: Step) {
    && Posts(s.log) <= 1 && (b.Some? ==> Guards(s.log)) && (s.b.Some? <==> b.Some?)
    && 0 <= TotalWait(s.log) <= (if attempt == 0 then 0 else LongestWait(attempt))
    && (s.Again? ==> Posts(s.log) == 1 && Retryable(reply))
    && (s.Stop? ==> if Posts(s.log) == 1 then s.end == Verdict(reply) && !Retryable(reply) else Unsent(s.end))
  }

  lemma {:induction false} OneTryKeeps(attempt: nat, retryAfter: int, b: Option<Circuit>, managed: bool, t: Turn)
    requires attempt <= MAX_RETRIES && t.jitter < 250
    ensures Fair(attempt, b, t.reply, OneTry(attempt, retryAfter, b, managed, t))
  {
    if attempt == 0 {
      HealthyKeeps([], b, managed, t);
    } else {
      BackoffBounded(attempt, retryAfter, t.jitter);
      var w := Waited(BackoffDelay(attempt, retryAfter, t.jitter));
      Snoc([], w);
      assert [] + [w] == [w];
      HealthyKeeps([w], b, managed, t);
    }
  }

  /** What the run from `attempt` on keeps. */
  ghost predicate RunKeeps(attempt: nat, b: Option<Circuit>, replies: nat -> Reply, r: Finish) {
    && attempt + Posts(r.log) <= MAX_RETRIES + 1
    && (b.Some? ==> Guards(r.log))
    && 0 <= TotalWait(r.log) <= WaitBudget(attempt)
    && RunEnds(attempt, Posts(r.log), replies, r.end)
  }

  /**
   Of `n` requests from `attempt` on, only those with a retryable reply are followed by
   another, and the end is the verdict on the last reply.
   */
  ghost predicate RunEnds(attempt: nat, n: nat, replies: nat -> Reply, end: End) {
    && (n > 0 ==> RetriedAll(attempt, n - 1, replies))
    && if Unsent(end) then RetriedAll(attempt, n, replies)
       else if end.GaveUp? then attempt + n == MAX_RETRIES + 1 && RetriedAll(attempt, n, replies)
       else n > 0 && !Retryable(replies(attempt + n - 1)) && end == Verdict(replies(attempt + n - 1))
  }

  ghost predicate RetriedAll(attempt: nat, n: nat, replies: nat -> Reply) {
    forall k :: attempt <= k < attempt + n ==> Retryable(replies(k))
  }

  lemma {:induction false} RunEndsNext(attempt: nat, n: nat, replies: nat -> Reply, end: End)
    requires RunEnds(attempt + 1, n, replies, end) && Retryable(replies(attempt))
    ensures RunEnds(attempt, n + 1, replies, end)
  {
  }

  lemma {:induction false} GuardsCat(a: seq<Entry>, b: seq<Entry>)
    requires Guards(a) && Guards(b)
    ensures Guards(a + b)
  {
    forall i | 0 <= i < |a + b| && (a + b)[i].Posted?
      ensures i > 0 && (a + b)[i - 1] == Asked(true)
    {
      if i >= |a| {
        assert b[i - |a|].Posted?;
      }
    }
  }

  lemma {:induction false} TriesKeep(attempt: nat, retryAfter: int, last: Option<Reply>, b: Option<Circuit>, one: Once, replies: nat -> Reply)
    requires attempt <= MAX_RETRIES + 1
    requires forall k: nat, ra, c :: k <= MAX_RETRIES ==> Fair(k, c, replies(k), one(k, ra, c))
    ensures RunKeeps(attempt, b, replies, Tries(attempt, retryAfter, last, b, one, replies))
    decreases MAX_RETRIES + 1 - attempt
  {
    if attempt <= MAX_RETRIES {
      var s := one(attempt, retryAfter, b);
      assert Fair(attempt, b, replies(attempt), s);
      if s.Again? {
        TriesKeep(attempt + 1, s.retryAfter, Some(replies(attempt)), s.b, one, replies);
        Extend(attempt, b, replies, s, Tries(attempt + 1, s.retryAfter, Some(replies(attempt)), s.b, one, replies));
      } else {
        Halt(attempt, b, replies, s);
      }
    } else {
      assert RunEnds(attempt, 0, replies, GaveUp(last));
    }
  }

  lemma {:induction false} Halt(attempt: nat, b: Option<Circuit>, replies: nat -> Reply, s: Step)
    requires attempt <= MAX_RETRIES && s.Stop? && Fair(attempt, b, replies(attempt), s)
    ensures RunKeeps(attempt, b, replies, Finish(s.log, s.b, s.end))
  {
  }

  lemma {:induction false} Extend(attempt: nat, b: Option<Circuit>, replies: nat -> Reply, s: Step, rest: Finish)
    requires attempt <= MAX_RETRIES && s.Again? && Fair(attempt, b, replies(attempt), s) && RunKeeps(attempt + 1, s.b, replies, rest)
    ensures RunKeeps(attempt, b, replies, Then(s.log, rest))
  {
    LogCat(s.log, rest.log);
    RunEndsNext(attempt, Posts(rest.log), replies, rest.end);
    if b.Some? {
      GuardsCat(s.log, rest.log);
    }
  }

  /**
   Every run sends at most 11 requests, each right after a check of the vendor's breaker, if
   there is one, that let it through; it asks to wait at most 151.245 seconds in all; it
   retries only retryable replies, and ends with the verdict on the last reply, or gives up
   after 11 retryable ones.
   */
  lemma {:induction false} RetryTheorem(b: Option<Circuit>, managed: bool, env: nat -> Turn)
    requires forall k :: env(k).jitter < 250
    ensures var r := Send(b, managed, env);
            && Posts(r.log) <= 11
            && (b.Some? ==> Guards(r.log))
            && TotalWait(r.log) <= 151_245 * MILLI
            && RunEnds(0, Posts(r.log), Replies(env), r.end)
  {
    var one, replies := Trying(managed, env), Replies(env);
    forall k: nat, ra, c | k <= MAX_RETRIES
      ensures Fair(k, c, replies(k), one(k, ra, c))
    {
      OneTryKeeps(k, ra, c, managed, env(k));
    }
    TriesKeep(0, 0, None, b, one, replies);
    BudgetTotal();
  }

  lemma {:induction false} BudgetTotal()
    ensures WaitBudget(0) == 151_245 * MILLI
  {
    assert WaitBudget(9) == 2 * LongestWait(10) by { assert WaitBudget(11) == 0; assert WaitBudget(10) == LongestWait(10); }
    assert WaitBudget(7) == LongestWait(7) + LongestWait(8) + WaitBudget(9);
    assert WaitBudget(5) == LongestWait(5) + LongestWait(6) + WaitBudget(7);
    assert WaitBudget(3) == LongestWait(3) + LongestWait(4) + WaitBudget(5);
    assert WaitBudget(1) == LongestWait(1) + LongestWait(2) + WaitBudget(3);
    assert WaitBudget(0) == WaitBudget(1);
  }

  // ---------------------------------------------------------------- the breaker's budget

  /** The attempt `k` gets as far as a retryable reply, if the breaker lets it. */
  predicate Pressed(k: nat, t: Turn) {
    Retryable(t.reply) && !t.buildFails && (k > 0 ==> !t.cancelled)
  }

  /** An open breaker, and no check of this attempt comes late enough to half-open it. */
  predicate Shut(c: Circuit, t: Turn) {
    c.state == Open && t.t0 - c.lastFailure < c.timeout && t.t1 - c.lastFailure < c.timeout
  }

  /** A closed breaker after one more failure. */
  function Spent(c: Circuit, now: int): Circuit {
    if c.budget == 1 then c.(budget := 0, state := Open, lastFailure := now) else c.(budget := c.budget - 1)
  }

  /** What a step at a closed breaker does. */
  ghost predicate Spends(k: nat, c: Circuit, t: Turn, n: nat, s: Step) {
    && Posts(s.log) <= n + 1 && (Pressed(k, t) ==> s.Again?)
    && (s.Again? ==> Posts(s.log) == n + 1 && s.b == Some(Spent(c, t.t2)))
  }

  lemma {:induction false} GuardedSpends(k: nat, log: seq<Entry>, c: Circuit, t: Turn)
    requires c.state == Closed && c.budget >= 1
    ensures Spends(k, c, t, Posts(log), Guarded(log, Some(c), t))
  {
    var log1 := log + [Asked(true)];
    Snoc(log, Asked(true));
    Snoc(log1, Posted);
    ReplyKeeps(log1 + [Posted], Some(c), t);
  }

  lemma {:induction false} HealthySpends(k: nat, log: seq<Entry>, c: Circuit, managed: bool, t: Turn)
    requires c.state == Closed && c.budget >= 1
    ensures Spends(k, c, t, Posts(log), Healthy(log, Some(c), managed, t))
  {
    Snoc(log, HealthAsked(true));
    GuardedSpends(k, log + [HealthAsked(true)], c, t);
    GuardedSpends(k, log, c, t);
  }

  lemma {:induction false} TrySpends(k: nat, retryAfter: int, c: Circuit, managed: bool, t: Turn)
    requires c.state == Closed && c.budget >= 1
    ensures Spends(k, c, t, 0, OneTry(k, retryAfter, Some(c), managed, t))
  {
    if k == 0 {
      HealthySpends(k, [], c, managed, t);
    } else {
      var w := Waited(BackoffDelay(k, retryAfter, t.jitter));
      Snoc([], w);
      assert [] + [w] == [w];
      HealthySpends(k, [w], c, managed, t);
    }
  }

  /** How an attempt ends at an open breaker. */
  function Refusal(managed: bool, t: Turn): End {
    if t.cancelled then Cancelled else if t.unhealthy && managed then VendorOpen else BreakerOpen
  }

  lemma {:induction false} HealthyRefused(log: seq<Entry>, c: Circuit, managed: bool, t: Turn)
    requires Shut(c, t) && !t.cancelled
    ensures var s := Healthy(log, Some(c), managed, t); s.Stop? && Posts(s.log) == Posts(log) && s.end == Refusal(managed, t)
  {
    Snoc(log, HealthAsked(false));
    Snoc(log, Asked(false));
  }

  lemma {:induction false} TryRefused(k: nat, retryAfter: int, c: Circuit, managed: bool, t: Turn)
    requires k > 0 && Shut(c, t)
    ensures var s := OneTry(k, retryAfter, Some(c), managed, t); s.Stop? && Posts(s.log) == 0 && s.end == Refusal(managed, t)
  {
    var w := Waited(BackoffDelay(k, retryAfter, t.jitter));
    Snoc([], w);
    assert [] + [w] == [w];
    if !t.cancelled {
      HealthyRefused([w], c, managed, t);
    }
  }

  /** The breaker is asked again before its timeout is over. */
  predicate Prompt(env: nat -> Turn, k: nat, timeout: int) {
    env(k + 1).t0 - env(k).t2 < timeout && env(k + 1).t1 - env(k).t2 < timeout
  }

  ghost predicate AllPressed(env: nat -> Turn, from: nat, to: int) {
    forall k :: from <= k < to && k <= MAX_RETRIES ==> Pressed(k, env(k))
  }

  /** The end of a run in which the breaker opens after the attempt before `k`. */
  function Stopped(managed: bool, env: nat -> Turn, k: nat): End {
    if k > MAX_RETRIES then GaveUp(Some(env(MAX_RETRIES).reply)) else Refusal(managed, env(k))
  }

  function AtMost(a: int, b: int): int {
    if a <= b then a else b
  }

  /** What the attempts from `attempt` on do, `left` failures from the opening of the breaker. */
  ghost predicate RunSpends(attempt: nat, left: nat, managed: bool, env: nat -> Turn, r: Finish) {
    && Posts(r.log) <= left
    && (AllPressed(env, attempt, attempt + left) ==>
          Posts(r.log) == AtMost(left, MAX_RETRIES + 1 - attempt) && r.end == Stopped(managed, env, attempt + left))
  }

  lemma {:induction false} ShutRun(attempt: nat, retryAfter: int, c: Circuit, managed: bool, env: nat -> Turn)
    requires 0 < attempt <= MAX_RETRIES + 1 && (attempt <= MAX_RETRIES ==> Shut(c, env(attempt)))
    ensures RunSpends(attempt, 0, managed, env,
                      Tries(attempt, retryAfter, Some(env(attempt - 1).reply), Some(c), Trying(managed, env), Replies(env)))
  {
    if attempt <= MAX_RETRIES {
      TryRefused(attempt, retryAfter, c, managed, env(attempt));
    }
  }

  /** One more attempt in front. */
  lemma {:induction false} SpendsMore(attempt: nat, left: nat, managed: bool, env: nat -> Turn, s: Step, rest: Finish)
    requires attempt <= MAX_RETRIES && Posts(s.log) == 1 && RunSpends(attempt + 1, left, managed, env, rest)
    ensures RunSpends(attempt, left + 1, managed, env, Then(s.log, rest))
  {
    LogCat(s.log, rest.log);
    assert AllPressed(env, attempt, attempt + left + 1) ==> AllPressed(env, attempt + 1, attempt + 1 + left);
  }

  lemma {:induction false} SpendsNone(attempt: nat, left: nat, managed: bool, env: nat -> Turn, s: Step)
    requires attempt <= MAX_RETRIES && left >= 1 && Posts(s.log) <= 1 && s.Stop? && !Pressed(attempt, env(attempt))
    ensures RunSpends(attempt, left, managed, env, Finish(s.log, s.b, s.end))
  {
    assert attempt < attempt + left;
  }

  lemma {:induction false} TriesAgain(attempt: nat, retryAfter: int, last: Option<Reply>, b: Option<Circuit>, one: Once, replies: nat -> Reply, s: Step)
    requires attempt <= MAX_RETRIES && s == one(attempt, retryAfter, b)
    ensures Tries(attempt, retryAfter, last, b, one, replies)
         == if s.Stop? then Finish(s.log, s.b, s.end)
            else Then(s.log, Tries(attempt + 1, s.retryAfter, Some(replies(attempt)), s.b, one, replies))
  {
  }

  ghost predicate AllPrompt(env: nat -> Turn, timeout: int) {
    forall k: nat :: k < MAX_RETRIES ==> Prompt(env, k, timeout)
  }

  lemma {:induction false} OpensShut(attempt: nat, c: Circuit, env: nat -> Turn)
    requires attempt < MAX_RETRIES && c.budget == 1 && AllPrompt(env, c.timeout)
    ensures Shut(Spent(c, env(attempt).t2), env(attempt + 1))
  {
    assert Prompt(env, attempt, c.timeout);
  }

  /** The attempts after one that goes on. */
  lemma {:induction false} RestSpends(attempt: nat, c: Circuit, managed: bool, env: nat -> Turn, s: Step)
    requires attempt <= MAX_RETRIES && c.state == Closed && c.budget >= 1 && AllPrompt(env, c.timeout)
    requires s.Again? && s.b == Some(Spent(c, env(attempt).t2))
    ensures RunSpends(attempt + 1, c.budget - 1, managed, env,
                      Tries(attempt + 1, s.retryAfter, Some(env(attempt).reply), s.b, Trying(managed, env), Replies(env)))
    decreases MAX_RETRIES + 1 - attempt, 0
  {
    if c.budget == 1 {
      if attempt < MAX_RETRIES {
        OpensShut(attempt, c, env);
      }
      ShutRun(attempt + 1, s.retryAfter, Spent(c, env(attempt).t2), managed, env);
    } else {
      ClosedRun(attempt + 1, s.retryAfter, Some(env(attempt).reply), Spent(c, env(attempt).t2), managed, env);
    }
  }

  lemma {:induction false} ClosedRun(attempt: nat, retryAfter: int, last: Option<Reply>, c: Circuit, managed: bool, env: nat -> Turn)
    requires attempt <= MAX_RETRIES + 1 && c.state == Closed && c.budget >= 1 && AllPrompt(env, c.timeout)
    requires attempt > 0 ==> last == Some(env(attempt - 1).reply)
    ensures RunSpends(attempt, c.budget, managed, env, Tries(attempt, retryAfter, last, Some(c), Trying(managed, env), Replies(env)))
    decreases MAX_RETRIES + 1 - attempt, 1
  {
    if attempt <= MAX_RETRIES {
      var one, replies := Trying(managed, env), Replies(env);
      var s := OneTry(attempt, retryAfter, Some(c), managed, env(attempt));
      TrySpends(attempt, retryAfter, c, managed, env(attempt));
      TriesAgain(attempt, retryAfter, last, Some(c), one, replies, s);
      if s.Again? {
        RestSpends(attempt, c, managed, env, s);
        SpendsMore(attempt, c.budget - 1, managed, env, s, Tries(attempt + 1, s.retryAfter, Some(replies(attempt)), s.b, one, replies));
      } else {
        SpendsNone(attempt, c.budget, managed, env, s);
      }
    }
  }

  /**
   From a closed breaker whose timeout is not over when it is asked again, a run sends no more
   requests than the breaker has failures left.  If every attempt gets as far as a retryable
   reply, it sends exactly that many, or 11 if that is less, and is then refused by the breaker
   or the health manager, or gives up.
   */
  lemma {:induction false} BudgetTheorem(c: Circuit, managed: bool, env: nat -> Turn)
    requires c.state == Closed && c.budget >= 1 && AllPrompt(env, c.timeout)
    ensures var r := Send(Some(c), managed, env);
            && Posts(r.log) <= c.budget
            && (AllPressed(env, 0, c.budget) ==>
                  Posts(r.log) == AtMost(c.budget, 11) && r.end == Stopped(managed, env, c.budget))
  {
    ClosedRun(0, 0, None, c, managed, env);
  }
}
