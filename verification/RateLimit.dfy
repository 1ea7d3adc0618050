/**
 The rate limiter.  `Wait` keeps its mutex while it sleeps, so calls follow one another; each
 call carries the clock readings and the cancellation it meets.
 */
module RateLimit {
  import opened Options

  const MINUTE := 60_000_000_000

  /** `window` is `None` for the zero time, which is further back than any minute. */
  datatype Limiter = Limiter(rpm: int, tpm: int, window: Option<int>, requests: int, tokens: int)

  /** `now` is read on entry and `later` is the time of the return; `estimateTokens` is never negative. */
  datatype Call = Call(tokens: nat, now: int, later: int, cancelled: bool)

  datatype Verdict = Passed | Released | Cancelled

  datatype Step = Step(next: Limiter, verdict: Verdict)

  // ---------------------------------------------------------------- specification

  function Disabled(l: Limiter): bool {
    l.rpm <= 0 && l.tpm <= 0
  }

  /** The limiter after the caller has been counted, in a fresh window if the old one is over. */
  function Counted(l: Limiter, c: Call): (r: Limiter)
    ensures r.window.Some? && r.rpm == l.rpm && r.tpm == l.tpm
  {
    if l.window.None? || c.now - l.window.value >= MINUTE then
      l.(window := Some(c.now), requests := 1, tokens := c.tokens)
    else
      l.(requests := l.requests + 1, tokens := l.tokens + c.tokens)
  }

  predicate Over(l: Limiter) {
    (l.rpm > 0 && l.requests > l.rpm) || (l.tpm > 0 && l.tokens > l.tpm)
  }

  /** How long the caller sleeps: to the end of the window if a limit is exceeded. */
  function Sleep(l: Limiter, c: Call): int {
    var k := Counted(l, c);
    if !Disabled(l) && Over(k) then MINUTE - (c.now - k.window.value) else 0
  }

  function Waited(l: Limiter, c: Call): Step {
    if Disabled(l) then Step(l, Passed)
    else if Sleep(l, c) <= 0 then Step(Counted(l, c), Passed)
    else if c.cancelled then Step(Counted(l, c), Cancelled)
    else Step(l.(window := Some(c.later), requests := 0, tokens := 0), Released)
  }

  // ---------------------------------------------------------------- the object

  class RateLimiter {
    const rpm: int
    const tpm: int
    var window: Option<int>
    var rCount: int
    var tCount: int

    function Now(): Limiter
      reads this
    {
      Limiter(rpm, tpm, window, rCount, tCount)
    }

    constructor (rpm: int, tpm: int)
      ensures Now() == New(rpm, tpm)
    {
      this.rpm, this.tpm := rpm, tpm;
      window, rCount, tCount := None, 0, 0;
    }

    method Wait(c: Call) returns (v: Verdict)
      modifies this
      ensures Waited(old(Now()), c) == Step(Now(), v)
    {
      if rpm <= 0 && tpm <= 0 {
        return Passed;
      }
      if window.None? || c.now - window.value >= MINUTE {
        window := Some(c.now);
        rCount := 0;
        tCount := 0;
      }
      rCount := rCount + 1;
      tCount := tCount + c.tokens;
      var wait := 0;
      if rpm > 0 && rCount > rpm {
        wait := MINUTE - (c.now - window.value);
      }
      if tpm > 0 && tCount > tpm {
        var d := MINUTE - (c.now - window.value);
        if d > wait {
          wait := d;
        }
      }
      if wait <= 0 {
        return Passed;
      }
      if c.cancelled {
        return Cancelled;
      }
      window := Some(c.later);
      rCount := 0;
      tCount := 0;
      return Released;
    }
  }

  function New(rpm: int, tpm: int): Limiter {
    Limiter(rpm, tpm, None, 0, 0)
  }

  // ---------------------------------------------------------------- whole runs

  function After(l: Limiter, calls: seq<Call>): Limiter {
    if calls == [] then l else Waited(After(l, calls[..|calls| - 1]), calls[|calls| - 1]).next
  }

  /** A call that was let through, and the start of the window it was let through in. */
  datatype Admit = Admit(at: int, tokens: nat, window: int, released: bool)

  function AdmitOf(l: Limiter, c: Call): seq<Admit> {
    var s := Waited(l, c);
    match s.verdict
    case Cancelled => []
    case Released => [Admit(c.later, c.tokens, c.later, true)]
    case Passed => [Admit(c.now, c.tokens, if s.next.window.Some? then s.next.window.value else c.now, false)]
  }

  function Admits(l: Limiter, calls: seq<Call>): seq<Admit> {
    if calls == [] then []
    else
      var p := calls[..|calls| - 1];
      Admits(l, p) + AdmitOf(After(l, p), calls[|calls| - 1])
  }

  /** The clock never runs back, calls do not overlap, and a sleep lasts as long as it should. */
  ghost predicate Timely(l: Limiter, calls: seq<Call>) {
    calls == [] ||
    var p, c := calls[..|calls| - 1], calls[|calls| - 1];
    && Timely(l, p)
    && (p != [] ==> p[|p| - 1].later <= c.now)
    && c.now <= c.later
    && (!c.cancelled ==> c.now + Sleep(After(l, p), c) <= c.later)
  }

  /** Admissions in a window that starts in the minute from `lo` on, without released ones. */
  function Passes(log: seq<Admit>, lo: int): nat {
    if log == [] then 0
    else
      var a := log[|log| - 1];
      Passes(log[..|log| - 1], lo) + (if lo <= a.window < lo + MINUTE && !a.released then 1 else 0)
  }

  function PassedTokens(log: seq<Admit>, lo: int): nat {
    if log == [] then 0
    else
      var a := log[|log| - 1];
      PassedTokens(log[..|log| - 1], lo) + (if lo <= a.window < lo + MINUTE && !a.released then a.tokens else 0)
  }

  function Releases(log: seq<Admit>, lo: int): nat {
    if log == [] then 0
    else
      var a := log[|log| - 1];
      Releases(log[..|log| - 1], lo) + (if lo <= a.window < lo + MINUTE && a.released then 1 else 0)
  }

  /** Admissions, and tokens of those that did not wait, from `t` to a minute later. */
  function InSpan(log: seq<Admit>, t: int): nat {
    if log == [] then 0
    else
      var a := log[|log| - 1];
      InSpan(log[..|log| - 1], t) + (if t <= a.at < t + MINUTE then 1 else 0)
  }

  function TokensInSpan(log: seq<Admit>, t: int): nat {
    if log == [] then 0
    else
      var a := log[|log| - 1];
      TokensInSpan(log[..|log| - 1], t) + (if t <= a.at < t + MINUTE && !a.released then a.tokens else 0)
  }

  // ---------------------------------------------------------------- the invariant

  /** No admission is older than its window or a minute younger, and a released one opens its window. */
  ghost predicate Placed(log: seq<Admit>) {
    forall i :: 0 <= i < |log| ==> log[i].window <= log[i].at < log[i].window + MINUTE && (log[i].released ==> log[i].at == log[i].window)
  }

  /** Windows follow one another at least a minute apart, up to the current one. */
  ghost predicate Apart(l: Limiter, log: seq<Admit>) {
    && (forall i, j :: 0 <= i < j < |log| ==> log[i].window == log[j].window || log[i].window + MINUTE <= log[j].window)
    && (forall i :: 0 <= i < |log| ==> l.window.Some? && (log[i].window == l.window.value || log[i].window + MINUTE <= l.window.value))
  }

  lemma {:induction false} ApartStep(l: Limiter, log: seq<Admit>, c: Call)
    requires !Disabled(l) && Apart(l, log)
    requires l.window.Some? ==> l.window.value <= c.now
    requires c.now <= c.later && (!c.cancelled ==> c.now + Sleep(l, c) <= c.later)
    ensures Apart(Waited(l, c).next, log + AdmitOf(l, c))
  {
  }

  /** What the counters know about the windows that start in the minute from `lo` on. */
  ghost predicate Tally(l: Limiter, log: seq<Admit>, lo: int) {
    && Releases(log, lo) <= 1
    && (l.rpm > 0 ==> Passes(log, lo) <= l.rpm)
    && (l.tpm > 0 ==> PassedTokens(log, lo) <= l.tpm)
    && (l.window.None? || l.window.value < lo ==> Releases(log, lo) == Passes(log, lo) == PassedTokens(log, lo) == 0)
    && (l.window.Some? && lo <= l.window.value < lo + MINUTE ==> Passes(log, lo) <= l.requests && PassedTokens(log, lo) <= l.tokens)
  }

  lemma {:induction false} TallySnoc(log: seq<Admit>, a: Admit, lo: int)
    ensures var more := log + [a];
            var here := lo <= a.window < lo + MINUTE;
            && Passes(more, lo) == Passes(log, lo) + (if here && !a.released then 1 else 0)
            && PassedTokens(more, lo) == PassedTokens(log, lo) + (if here && !a.released then a.tokens else 0)
            && Releases(more, lo) == Releases(log, lo) + (if here && a.released then 1 else 0)
  {
    assert (log + [a])[..|log|] == log;
  }

  lemma {:induction false} TallyStep(l: Limiter, log: seq<Admit>, c: Call, lo: int)
    requires !Disabled(l) && Tally(l, log, lo)
    requires l.window.Some? ==> l.window.value <= c.now
    requires c.now <= c.later && (!c.cancelled ==> c.now + Sleep(l, c) <= c.later)
    ensures Tally(Waited(l, c).next, log + AdmitOf(l, c), lo)
  {
    if AdmitOf(l, c) == [] {
      assert log + [] == log;
    } else {
      TallySnoc(log, AdmitOf(l, c)[0], lo);
    }
  }

  lemma {:induction false} PlacedStep(l: Limiter, log: seq<Admit>, c: Call)
    requires !Disabled(l) && Placed(log)
    requires l.window.Some? ==> l.window.value <= c.now
    ensures Placed(log + AdmitOf(l, c))
  {
  }

  /** Everything that is kept from call to call, with the clock at `clock`. */
  ghost predicate Sound(rpm: int, tpm: int, l: Limiter, log: seq<Admit>, clock: Option<int>, lo: int) {
    && l.rpm == rpm && l.tpm == tpm
    && (l.window.Some? ==> clock.Some? && l.window.value <= clock.value)
    && Tally(l, log, lo) && Placed(log) && Apart(l, log)
  }

  lemma {:induction false} SoundStep(rpm: int, tpm: int, l: Limiter, log: seq<Admit>, clock: Option<int>, c: Call, lo: int)
    requires (rpm > 0 || tpm > 0) && Sound(rpm, tpm, l, log, clock, lo) && (clock.Some? ==> clock.value <= c.now)
    requires c.now <= c.later && (!c.cancelled ==> c.now + Sleep(l, c) <= c.later)
    ensures Sound(rpm, tpm, Waited(l, c).next, log + AdmitOf(l, c), Some(c.later), lo)
  {
    TallyStep(l, log, c, lo);
    PlacedStep(l, log, c);
    ApartStep(l, log, c);
  }

  function Clock(calls: seq<Call>): Option<int> {
    if calls == [] then None else Some(calls[|calls| - 1].later)
  }

  lemma {:induction false} Run(rpm: int, tpm: int, calls: seq<Call>, lo: int)
    requires (rpm > 0 || tpm > 0) && Timely(New(rpm, tpm), calls)
    ensures Sound(rpm, tpm, After(New(rpm, tpm), calls), Admits(New(rpm, tpm), calls), Clock(calls), lo)
    decreases calls
  {
    if calls != [] {
      var p, c := calls[..|calls| - 1], calls[|calls| - 1];
      Run(rpm, tpm, p, lo);
      SoundStep(rpm, tpm, After(New(rpm, tpm), p), Admits(New(rpm, tpm), p), Clock(p), c, lo);
    }
  }

  // ---------------------------------------------------------------- any minute

  lemma {:induction false} SpanByWindows(log: seq<Admit>, t: int)
    requires Placed(log)
    ensures InSpan(log, t) <= Passes(log, t - MINUTE) + Passes(log, t) + Releases(log, t)
    ensures TokensInSpan(log, t) <= PassedTokens(log, t - MINUTE) + PassedTokens(log, t)
    decreases log
  {
    if log != [] {
      SpanByWindows(log[..|log| - 1], t);
    }
  }

  /**
   In every run windows start at least a minute apart, and in each of them at most `rpm` callers and `tpm` tokens pass
   without waiting, besides at most one caller released from the window before; and in any
   minute at all, at most `2 * rpm + 1` callers get through.
   */
  lemma {:induction false} LimitsHold(rpm: int, tpm: int, calls: seq<Call>, t: int)
    requires (rpm > 0 || tpm > 0) && Timely(New(rpm, tpm), calls)
    ensures var log := Admits(New(rpm, tpm), calls);
            && Apart(After(New(rpm, tpm), calls), log)
            && Releases(log, t) <= 1
            && (rpm > 0 ==> Passes(log, t) <= rpm && InSpan(log, t) <= 2 * rpm + 1)
            && (tpm > 0 ==> PassedTokens(log, t) <= tpm && TokensInSpan(log, t) <= 2 * tpm)
  {
    Run(rpm, tpm, calls, t);
    Run(rpm, tpm, calls, t - MINUTE);
    SpanByWindows(Admits(New(rpm, tpm), calls), t);
  }

  lemma {:induction false} Grow(l: Limiter, p: seq<Call>, c: Call)
    requires Timely(l, p) && (p != [] ==> p[|p| - 1].later <= c.now) && c.now <= c.later
    requires !c.cancelled ==> c.now + Sleep(After(l, p), c) <= c.later
    ensures Timely(l, p + [c])
    ensures After(l, p + [c]) == Waited(After(l, p), c).next
    ensures Admits(l, p + [c]) == Admits(l, p) + AdmitOf(After(l, p), c)
  {
    assert (p + [c])[..|p|] == p;
  }

  lemma {:induction false} SpanSnoc(log: seq<Admit>, a: Admit, t: int)
    ensures InSpan(log + [a], t) == InSpan(log, t) + (if t <= a.at < t + MINUTE then 1 else 0)
  {
    assert (log + [a])[..|log|] == log;
  }

  /** One call that is let through at once. */
  function Quick(now: int): Call {
    Call(0, now, now, false)
  }

  /** One call that waits for the end of the window. */
  function Slow(now: int, end: int): Call {
    Call(0, now, end, false)
  }

  /**
   A run that has come to `clock`, with `n` callers counted in the window that began at `start`
   and `k` admitted in the minute from `t` on.
   */
  ghost predicate Reached(rpm: int, calls: seq<Call>, start: int, n: int, clock: int, t: int, k: int) {
    && Timely(New(rpm, 0), calls) && calls != [] && calls[|calls| - 1].later <= clock
    && After(New(rpm, 0), calls) == Limiter(rpm, 0, Some(start), n, 0)
    && InSpan(Admits(New(rpm, 0), calls), t) == k
  }

  /** What `m` callers admitted at `at` add to the minute from `t` on. */
  function Adds(t: int, at: int, m: int): int {
    if t <= at < t + MINUTE then m else 0
  }

  /** One step at a window that is not full. */
  lemma {:induction false} PassStep(l: Limiter, rpm: int, start: int, n: int, now: int)
    requires 0 <= n < rpm && start <= now < start + MINUTE && l == Limiter(rpm, 0, Some(start), n, 0)
    ensures Sleep(l, Quick(now)) == 0 && Waited(l, Quick(now)).next == Limiter(rpm, 0, Some(start), n + 1, 0)
    ensures AdmitOf(l, Quick(now)) == [Admit(now, 0, start, false)]
  {
  }

  /** One step at a full window. */
  lemma {:induction false} ReleaseStep(l: Limiter, rpm: int, start: int, now: int)
    requires 1 <= rpm && start <= now < start + MINUTE && l == Limiter(rpm, 0, Some(start), rpm, 0)
    ensures var c := Slow(now, start + MINUTE);
            && now + Sleep(l, c) == start + MINUTE
            && Waited(l, c).next == Limiter(rpm, 0, Some(start + MINUTE), 0, 0)
            && AdmitOf(l, c) == [Admit(start + MINUTE, 0, start + MINUTE, true)]
  {
  }

  /** One step of a run, its effect on the limiter and on the log being known. */
  lemma {:induction false} Onward(rpm: int, calls: seq<Call>, start: int, n: int, c: Call, a: Admit, to: int, m: int, t: int, k: int)
    requires Reached(rpm, calls, start, n, c.now, t, k) && c.now <= c.later && !c.cancelled
    requires var l := Limiter(rpm, 0, Some(start), n, 0);
             && c.now + Sleep(l, c) <= c.later && AdmitOf(l, c) == [a]
             && Waited(l, c).next == Limiter(rpm, 0, Some(to), m, 0)
    ensures Reached(rpm, calls + [c], to, m, c.later, t, k + Adds(t, a.at, 1))
  {
    Grow(New(rpm, 0), calls, c);
    SpanSnoc(Admits(New(rpm, 0), calls), a, t);
    assert (calls + [c])[|calls + [c]| - 1] == c;
  }

  lemma {:induction false} PassOne(rpm: int, calls: seq<Call>, start: int, n: int, now: int, t: int, k: int)
    requires 0 <= n < rpm && Reached(rpm, calls, start, n, now, t, k) && start <= now < start + MINUTE
    ensures Reached(rpm, calls + [Quick(now)], start, n + 1, now, t, k + Adds(t, now, 1))
  {
    PassStep(Limiter(rpm, 0, Some(start), n, 0), rpm, start, n, now);
    Onward(rpm, calls, start, n, Quick(now), Admit(now, 0, start, false), start, n + 1, t, k);
  }

  /** Callers that come at `now` until the window is full. */
  lemma {:induction false} Fill(rpm: int, calls: seq<Call>, start: int, n: int, now: int, t: int, k: int) returns (more: seq<Call>)
    requires 0 <= n <= rpm && Reached(rpm, calls, start, n, now, t, k) && start <= now < start + MINUTE
    ensures Reached(rpm, more, start, rpm, now, t, k + Adds(t, now, rpm - n))
    decreases rpm - n
  {
    if n == rpm {
      more := calls;
    } else {
      PassOne(rpm, calls, start, n, now, t, k);
      more := Fill(rpm, calls + [Quick(now)], start, n + 1, now, t, k + Adds(t, now, 1));
    }
  }

  /** One more caller waits for the end of the full window, and is let through uncounted. */
  lemma {:induction false} ReleaseOne(rpm: int, calls: seq<Call>, start: int, now: int, t: int, k: int) returns (more: seq<Call>)
    requires rpm >= 1 && Reached(rpm, calls, start, rpm, now, t, k) && start <= now < start + MINUTE
    ensures Reached(rpm, more, start + MINUTE, 0, start + MINUTE, t, k + Adds(t, start + MINUTE, 1))
  {
    var end := start + MINUTE;
    more := calls + [Slow(now, end)];
    ReleaseStep(Limiter(rpm, 0, Some(start), rpm, 0), rpm, start, now);
    Onward(rpm, calls, start, rpm, Slow(now, end), Admit(end, 0, end, true), end, 0, t, k);
  }

  lemma {:induction false} FirstOne(rpm: int, at: int, t: int) returns (calls: seq<Call>)
    requires rpm >= 1 && at < t
    ensures Reached(rpm, calls, at, 1, at, t, 0)
  {
    calls := [] + [Quick(at)];
    Grow(New(rpm, 0), [], Quick(at));
    SpanSnoc([], Admit(at, 0, at, false), t);
  }

  /** Later the clock may be anything later. */
  lemma {:induction false} Later(rpm: int, calls: seq<Call>, start: int, n: int, clock: int, now: int, t: int, k: int)
    requires Reached(rpm, calls, start, n, clock, t, k) && clock <= now
    ensures Reached(rpm, calls, start, n, now, t, k)
  {
  }

  /** A first window that is full at once, and the caller released at its end, before `t`. */
  lemma {:induction false} FirstWindow(rpm: int, at: int, t: int) returns (calls: seq<Call>)
    requires rpm >= 1 && at + MINUTE < t
    ensures Reached(rpm, calls, at + MINUTE, 0, at + MINUTE, t, 0)
  {
    var a := FirstOne(rpm, at, t);
    var b := Fill(rpm, a, at, 1, at, t, 0);
    calls := ReleaseOne(rpm, b, at, at, t, 0);
  }

  /** A second one that is filled at its very end, and again the caller released. */
  lemma {:induction false} SecondWindow(rpm: int, c: seq<Call>, at: int, t: int) returns (calls: seq<Call>)
    requires rpm >= 1 && t == at + MINUTE - 1 && Reached(rpm, c, at, 0, at, t, 0)
    ensures Reached(rpm, calls, at + MINUTE, 0, at + MINUTE, t, rpm + 1)
  {
    Later(rpm, c, at, 0, at, t, t, 0);
    var d := Fill(rpm, c, at, 0, t, t, 0);
    calls := ReleaseOne(rpm, d, at, t, t, rpm);
  }

  /**
   The bound is met, for every limit: the released caller is not counted, so a full window, the
   caller released at its end and the next full window can fall within one minute.
   */
  lemma {:induction false} BoundMet(rpm: int) returns (calls: seq<Call>)
    requires rpm >= 1
    ensures Timely(New(rpm, 0), calls) && InSpan(Admits(New(rpm, 0), calls), 2 * MINUTE - 1) == 2 * rpm + 1
  {
    var late := 2 * MINUTE - 1;
    var c := FirstWindow(rpm, 0, late);
    var e := SecondWindow(rpm, c, MINUTE, late);
    calls := Fill(rpm, e, 2 * MINUTE, 0, 2 * MINUTE, late, rpm + 1);
  }

  // ---------------------------------------------------------------- who waits, and for how long

  /** A window: when it opened, and the callers since. */
  datatype Window = Window(start: int, callers: seq<Call>)

  function Tokens(cs: seq<Call>): int {
    if cs == [] then 0 else Tokens(cs[..|cs| - 1]) + cs[|cs| - 1].tokens
  }

  /** No more callers and no more tokens than the limits that are on allow. */
  predicate Within(rpm: int, tpm: int, cs: seq<Call>) {
    (rpm > 0 ==> |cs| <= rpm) && (tpm > 0 ==> Tokens(cs) <= tpm)
  }

  /** The window a caller comes into: a new one if there is none or the last is a minute old. */
  function Entered(w: Option<Window>, c: Call): Window {
    if w.None? || w.value.start + MINUTE <= c.now then Window(c.now, [c]) else Window(w.value.start, w.value.callers + [c])
  }

  /** The window after all `calls`: a caller that waited to its end opens an empty one. */
  function Current(rpm: int, tpm: int, calls: seq<Call>): Option<Window> {
    if calls == [] then None
    else
      var c := calls[|calls| - 1];
      var w := Entered(Current(rpm, tpm, calls[..|calls| - 1]), c);
      Some(if Within(rpm, tpm, w.callers) || c.cancelled then w else Window(c.later, []))
  }

  /** The limiter's fields are what the history says. */
  ghost predicate Remembers(l: Limiter, rpm: int, tpm: int, w: Option<Window>) {
    && l.rpm == rpm && l.tpm == tpm
    && match w
       case None => l.window.None?
       case Some(v) => l.window == Some(v.start) && l.requests == |v.callers| && l.tokens == Tokens(v.callers)
  }

  lemma {:induction false} TokensSnoc(cs: seq<Call>, c: Call)
    ensures Tokens(cs + [c]) == Tokens(cs) + c.tokens
  {
    assert (cs + [c])[..|cs|] == cs;
  }

  /** What becomes of a call that comes into the window `w`, counting itself. */
  ghost predicate Treated(l: Limiter, rpm: int, tpm: int, w: Window, c: Call) {
    var s := Waited(l, c);
    && (s.verdict == Passed <==> Within(rpm, tpm, w.callers))
    && (s.verdict == Cancelled <==> !Within(rpm, tpm, w.callers) && c.cancelled)
    && Sleep(l, c) == (if Within(rpm, tpm, w.callers) then 0 else w.start + MINUTE - c.now)
    && Remembers(s.next, rpm, tpm, Some(if Within(rpm, tpm, w.callers) || c.cancelled then w else Window(c.later, [])))
  }

  lemma {:induction false} CountedEntered(l: Limiter, rpm: int, tpm: int, v: Option<Window>, c: Call)
    requires Remembers(l, rpm, tpm, v)
    ensures Remembers(Counted(l, c), rpm, tpm, Some(Entered(v, c)))
    ensures c.now < Entered(v, c).start + MINUTE
  {
    TokensSnoc([], c);
    assert [] + [c] == [c];
    if v.Some? {
      TokensSnoc(v.value.callers, c);
    }
  }

  lemma {:induction false} OverIff(k: Limiter, rpm: int, tpm: int, w: Window)
    requires Remembers(k, rpm, tpm, Some(w))
    ensures Over(k) <==> !Within(rpm, tpm, w.callers)
  {
  }

  lemma {:induction false} TreatedStep(l: Limiter, rpm: int, tpm: int, v: Option<Window>, c: Call)
    requires (rpm > 0 || tpm > 0) && Remembers(l, rpm, tpm, v)
    ensures Treated(l, rpm, tpm, Entered(v, c), c)
  {
    CountedEntered(l, rpm, tpm, v, c);
    OverIff(Counted(l, c), rpm, tpm, Entered(v, c));
    assert Tokens([]) == 0;
  }

  /**
   After every run, and for every next call: it passes without waiting if and only if the
   callers since its window opened, itself included, are at most `rpm` where that limit is on,
   and their tokens at most `tpm` where that one is on; otherwise it sleeps exactly to the end
   of its window, unless it is cancelled there.
   */
  lemma {:induction false} PassesIff(rpm: int, tpm: int, calls: seq<Call>, c: Call)
    requires rpm > 0 || tpm > 0
    ensures Treated(After(New(rpm, tpm), calls), rpm, tpm, Entered(Current(rpm, tpm, calls), c), c)
  {
    RemembersRun(rpm, tpm, calls);
    TreatedStep(After(New(rpm, tpm), calls), rpm, tpm, Current(rpm, tpm, calls), c);
  }

  lemma {:induction false} RemembersRun(rpm: int, tpm: int, calls: seq<Call>)
    requires rpm > 0 || tpm > 0
    ensures Remembers(After(New(rpm, tpm), calls), rpm, tpm, Current(rpm, tpm, calls))
    decreases calls
  {
    if calls != [] {
      var p, c := calls[..|calls| - 1], calls[|calls| - 1];
      RemembersRun(rpm, tpm, p);
      TreatedStep(After(New(rpm, tpm), p), rpm, tpm, Current(rpm, tpm, p), c);
    }
  }

  /** A limiter with both limits off lets everyone pass. */
  lemma {:induction false} OffPasses(rpm: int, tpm: int, calls: seq<Call>, c: Call)
    requires rpm <= 0 && tpm <= 0
    ensures Waited(After(New(rpm, tpm), calls), c).verdict == Passed && Sleep(After(New(rpm, tpm), calls), c) == 0
  {
    OffStays(rpm, tpm, calls);
  }

  lemma {:induction false} OffStays(rpm: int, tpm: int, calls: seq<Call>)
    requires rpm <= 0 && tpm <= 0
    ensures After(New(rpm, tpm), calls) == New(rpm, tpm)
    decreases calls
  {
    if calls != [] {
      OffStays(rpm, tpm, calls[..|calls| - 1]);
    }
  }

  // ---------------------------------------------------------------- tokens in any minute

  /** All tokens admitted from `t` to a minute later, with those of released callers. */
  function AllTokensInSpan(log: seq<Admit>, t: int): nat {
    if log == [] then 0
    else
      var a := log[|log| - 1];
      AllTokensInSpan(log[..|log| - 1], t) + (if t <= a.at < t + MINUTE then a.tokens else 0)
  }

  lemma {:induction false} TokenSpanSnoc(log: seq<Admit>, a: Admit, t: int)
    ensures TokensInSpan(log + [a], t) == TokensInSpan(log, t) + (if t <= a.at < t + MINUTE && !a.released then a.tokens else 0)
    ensures AllTokensInSpan(log + [a], t) == AllTokensInSpan(log, t) + (if t <= a.at < t + MINUTE then a.tokens else 0)
  {
    assert (log + [a])[..|log|] == log;
  }

  /** A run that has come to `clock`, with the limiter at `l`, and `n` and `m` tokens in the minute from `t` on. */
  ghost predicate Metered(tpm: int, calls: seq<Call>, l: Limiter, clock: int, t: int, n: int, m: int) {
    && Timely(New(0, tpm), calls) && (calls != [] ==> calls[|calls| - 1].later <= clock) && After(New(0, tpm), calls) == l
    && TokensInSpan(Admits(New(0, tpm), calls), t) == n && AllTokensInSpan(Admits(New(0, tpm), calls), t) == m
  }

  lemma {:induction false} MeterOne(tpm: int, p: seq<Call>, l: Limiter, c: Call, a: Admit, t: int, n: int, m: int)
    requires Metered(tpm, p, l, c.now, t, n, m) && c.now <= c.later && c.now + Sleep(l, c) <= c.later && AdmitOf(l, c) == [a]
    ensures var here := t <= a.at < t + MINUTE;
            Metered(tpm, p + [c], Waited(l, c).next, c.later, t, n + (if here && !a.released then a.tokens else 0), m + if here then a.tokens else 0)
  {
    Grow(New(0, tpm), p, c);
    TokenSpanSnoc(Admits(New(0, tpm), p), a, t);
    assert (p + [c])[|p + [c]| - 1] == c;
  }

  /** A window whose tokens are used up at `t`, its last moment, and the caller of `n` tokens released at its end. */
  lemma {:induction false} TokensUsedUp(tpm: int, n: nat, t: int) returns (calls: seq<Call>)
    requires tpm >= 1 && n >= 1 && t == MINUTE - 1
    ensures Metered(tpm, calls, Limiter(0, tpm, Some(MINUTE), 0, 0), MINUTE, t, tpm, tpm + n)
  {
    var a, b, c := Call(0, 0, t, false), Call(tpm, t, t, false), Call(n, t, MINUTE, false);
    var l0, l1, l2 := New(0, tpm), Limiter(0, tpm, Some(0), 1, 0), Limiter(0, tpm, Some(0), 2, tpm);
    MeterOne(tpm, [], l0, a, Admit(0, 0, 0, false), t, 0, 0);
    MeterOne(tpm, [] + [a], l1, b, Admit(t, tpm, 0, false), t, 0, 0);
    MeterOne(tpm, [] + [a] + [b], l2, c, Admit(MINUTE, n, MINUTE, true), t, tpm, tpm);
    calls := [] + [a] + [b] + [c];
  }

  /**
   The token bound is met, for every limit; and since a released caller is not counted, there is
   no bound at all on the tokens that get through within a minute.
   */
  lemma {:induction false} TokenBoundMet(tpm: int, n: nat) returns (calls: seq<Call>)
    requires tpm >= 1 && n >= 1
    ensures var log, t := Admits(New(0, tpm), calls), MINUTE - 1;
            Timely(New(0, tpm), calls) && TokensInSpan(log, t) == 2 * tpm && AllTokensInSpan(log, t) == 2 * tpm + n
  {
    var t, d := MINUTE - 1, Call(tpm, MINUTE, MINUTE, false);
    var p := TokensUsedUp(tpm, n, t);
    MeterOne(tpm, p, Limiter(0, tpm, Some(MINUTE), 0, 0), d, Admit(MINUTE, tpm, MINUTE, false), t, tpm, tpm + n);
    calls := p + [d];
  }
}
