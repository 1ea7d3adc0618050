/**
 `streamWithFailover`: one streaming call, reconnecting until a response has produced output.
 */
module Failover {
  import opened Options
  import opened Protocol
  import opened Sse
  import Breaker
  import Retry

  // ---------------------------------------------------------------- reading one response

  /** A line of the body: not a `data:` line, a payload, or the `[DONE]` mark. */
  datatype Line = Skipped | Data(ev: Event) | DoneMark

  /** `scanErr` says whether the scanner's error is a connection reset. */
  datatype Body = Body(lines: seq<Line>, scanErr: Option<bool>, stalled: bool)

  datatype Scanned = Drained(r: Read) | Stopped(r: Read) | Failed(r: Read, err: Failure)

  function Scan(r: Read, lines: seq<Line>): Scanned
    decreases lines
  {
    if lines == [] then Drained(r)
    else
      match lines[0]
      case Skipped => Scan(r, lines[1..])
      case DoneMark => Drained(Sent(r, DoneChunk))
      case Data(ev) =>
        var p := Process(r, ev);
        if p.err.Some? then Failed(p.r, p.err.value)
        else if p.stop then Stopped(p.r)
        else Scan(p.r, lines[1..])
  }

  /** `sendChunk`: without waiting, and not counted as output. */
  function Offered(ok: nat -> bool, sent: seq<Chunk>, tries: nat, ch: Chunk): seq<Chunk> {
    if ok(tries) then sent + [ch] else sent
  }

  const IDLE := "stream idle timeout"

  /** `reset` is what `IsConnReset` says of the error. */
  datatype Trouble = Trouble(failure: Failure, reset: bool)

  datatype Reading = Reading(r: Read, err: Option<Trouble>)

  function ReadStream(r: Read, body: Body): Reading {
    match Scan(r, body.lines)
    case Failed(x, err) => Reading(x, Some(Trouble(Failure(err.text, x.emitted), false)))
    case Stopped(x) => Reading(x, None)
    case Drained(x) =>
      if body.scanErr.Some? then Reading(x, Some(Trouble(Failure("scanner error", x.emitted), body.scanErr.value)))
      else if body.stalled then
        var told := Offered(x.ok, x.sent, x.tries, ErrorChunk(Some(Failure(IDLE, false))));
        Reading(x.(sent := told, tries := x.tries + 1), Some(Trouble(Failure(IDLE, x.emitted), false)))
      else Reading(x, None)
  }

  // ---------------------------------------------------------------- the call

  datatype Target = Target(model: string, miniMax: bool)

  /** What the world does in one attempt. */
  datatype Try = Try(
    cancelled: bool,
    managed: bool,
    net: nat -> Retry.Turn,
    body: Body,
    mayFailover: bool,
    fallback: Option<Target>)

  datatype Act = Request(target: Target, posts: nat) | Switch(target: Target)

  datatype State = State(target: Target, b: Option<Breaker.Circuit>, sent: seq<Chunk>, tries: nat, log: seq<Act>)

  datatype Step =
    | Again(s: State, emitted: bool, last: Option<Failure>)
    | Quit(s: State)

  function FailoverMax(retries: int): int {
    if retries <= 0 then 2 else retries
  }

  function Describe(end: Retry.End): Failure {
    match end
    case Cancelled => CANCELLED
    case VendorOpen => Failure("vendor unhealthy", false)
    case BreakerOpen => Failure("circuit breaker open", false)
    case BuildFailed => Failure("build request", false)
    case Denied(_) => Failure("unauthorized", false)
    case Refused(_) => Failure("refused", false)
    case _ => Failure("request failed", false)
  }

  function Tell(ok: nat -> bool, s: State, last: Option<Failure>): State {
    s.(sent := Offered(ok, s.sent, s.tries, ErrorChunk(last)), tries := s.tries + 1)
  }

  /** Reading the response to a request that was answered. */
  function Answer(ok: nat -> bool, s: State, body: Body): Step {
    var x := ReadStream(Reopened(ok, s.target.miniMax, s.sent, s.tries), body);
    var s1 := s.(sent := x.r.sent, tries := x.r.tries);
    if x.err.None? then Quit(s1.(b := Retry.Praise(s1.b)))
    else if x.r.emitted then Quit(s1)
    else if !x.err.value.reset then Quit(Tell(ok, s1, Some(x.err.value.failure)))
    else Again(s1, x.r.emitted, Some(x.err.value.failure))
  }

  function Ask(ok: nat -> bool, s: State, emitted: bool, t: Try): Step {
    var f := Retry.Send(s.b, t.managed, t.net);
    var s1 := s.(b := f.b, log := s.log + [Request(s.target, Retry.Posts(f.log))]);
    if f.end.Answered? then Answer(ok, s1, t.body) else Again(s1, emitted, Some(Describe(f.end)))
  }

  /** After `applyFailover` the code goes on to the next attempt, not to a request. */
  function SwitchOver(ok: nat -> bool, s: State, emitted: bool, last: Option<Failure>, t: Try): Step {
    if !t.mayFailover || t.fallback.None? then Quit(Tell(ok, s, last))
    else Again(s.(target := t.fallback.value, log := s.log + [Switch(t.fallback.value)]), emitted, last)
  }

  function OneAttempt(maxReconnect: int, ok: nat -> bool, s: State, attempt: nat, emitted: bool, last: Option<Failure>, t: Try): Step {
    if attempt == 0 then Ask(ok, s, emitted, t)
    else if emitted then Quit(Tell(ok, s, last))
    else if attempt > maxReconnect then SwitchOver(ok, s, emitted, last, t)
    else if t.cancelled then Quit(s)
    else Ask(ok, s, emitted, t)
  }

  function Total(maxReconnect: int, retries: int): int {
    maxReconnect + FailoverMax(retries) + 1
  }

  function Attempts(maxReconnect: int, retries: int, ok: nat -> bool, s: State, attempt: nat, emitted: bool, last: Option<Failure>, env: nat -> Try): State
    decreases Total(maxReconnect, retries) + 1 - attempt
  {
    if attempt > Total(maxReconnect, retries) then Tell(ok, s, last)
    else
      match OneAttempt(maxReconnect, ok, s, attempt, emitted, last, env(attempt))
      case Quit(s1) => s1
      case Again(s1, emitted1, last1) => Attempts(maxReconnect, retries, ok, s1, attempt + 1, emitted1, last1, env)
  }

  /** The whole call; `throttled` is the error of the rate limiter, if it was cancelled there. */
  function Call(maxReconnect: int, retries: int, ok: nat -> bool, target: Target, b: Option<Breaker.Circuit>, throttled: Option<Failure>, env: nat -> Try): State {
    var s := State(target, b, [], 0, []);
    if throttled.Some? then Tell(ok, s, throttled) else Attempts(maxReconnect, retries, ok, s, 0, false, None, env)
  }

  // ---------------------------------------------------------------- the object

  /** The body is read line by line into the state. */
  method ReadBody(state: ReadStreamState, body: Body) returns (err: Option<Trouble>)
    modifies state
    ensures ReadStream(old(state.Now()), body) == Reading(state.Now(), err)
  {
    var i := 0;
    while i < |body.lines|
      invariant 0 <= i <= |body.lines|
      invariant Scan(old(state.Now()), body.lines) == Scan(state.Now(), body.lines[i..])
    {
      var line := body.lines[i];
      i := i + 1;
      if line.DoneMark? {
        var _ := state.Send(DoneChunk);
        break;
      }
      if line.Data? {
        var stop, failed := state.ProcessSseData(line.ev);
        if failed.Some? {
          return Some(Trouble(Failure(failed.value.text, state.emitted), false));
        }
        if stop {
          return None;
        }
      }
    }
    if body.scanErr.Some? {
      return Some(Trouble(Failure("scanner error", state.emitted), body.scanErr.value));
    }
    if body.stalled {
      state.Offer(ErrorChunk(Some(Failure(IDLE, false))));
      return Some(Trouble(Failure(IDLE, state.emitted), false));
    }
    return None;
  }

  /** The client; `sent`, `tries`, `log` and `closes` record what a call does to its output channel. */
  class OpenAI {
    const maxReconnect: int
    const retries: int
    const breaker: Breaker.CircuitBreaker?
    var target: Target
    var sent: seq<Chunk>
    var tries: nat
    var log: seq<Act>
    var closes: nat       // how often the output channel has been closed

    function Now(): State
      reads this, breaker
    {
      State(target, Retry.Value(breaker), sent, tries, log)
    }

    method SendChunk(ok: nat -> bool, ch: Chunk)
      modifies this
      ensures closes == old(closes)
      ensures Now() == old(Now()).(sent := Offered(ok, old(sent), old(tries), ch), tries := old(tries) + 1)
    {
      if ok(tries) {
        sent := sent + [ch];
      }
      tries := tries + 1;
    }

    method Receive(ok: nat -> bool, body: Body) returns (again: bool, emitted: bool, last: Option<Failure>)
      modifies this, breaker
      ensures closes == old(closes)
      ensures Answer(ok, old(Now()), body) == if again then Again(Now(), emitted, last) else Quit(Now())
    {
      var state := new ReadStreamState(ok, target.miniMax, sent, tries);
      var err := ReadBody(state, body);
      sent, tries, emitted := state.sent, state.tries, state.emitted;
      if err.None? {
        var _ := Retry.ReportSuccess(breaker);
        return false, emitted, None;
      }
      last := Some(err.value.failure);
      if emitted || !err.value.reset {
        if !emitted {
          SendChunk(ok, ErrorChunk(last));
        }
        return false, emitted, last;
      }
      return true, emitted, last;
    }

    method Connect(ok: nat -> bool, was: bool, t: Try) returns (again: bool, emitted: bool, last: Option<Failure>)
      modifies this, breaker
      ensures closes == old(closes)
      ensures Ask(ok, old(Now()), was, t) == if again then Again(Now(), emitted, last) else Quit(Now())
    {
      var posts, end := Retry.SendWithRetry(breaker, t.managed, t.net);
      log := log + [Request(target, Retry.Posts(posts))];
      if !end.Answered? {
        return true, was, Some(Describe(end));
      }
      again, emitted, last := Receive(ok, t.body);
    }

    /** The call on a fresh channel, which is closed once, after everything else. */
    method StreamWithFailover(ok: nat -> bool, throttled: Option<Failure>, env: nat -> Try)
      requires sent == [] && tries == 0 && log == []
      modifies this, breaker
      ensures Now() == Call(maxReconnect, retries, ok, old(target), old(Retry.Value(breaker)), throttled, env)
      ensures closes == old(closes) + 1
    {
      Stream(ok, throttled, env);
      closes := closes + 1;
    }

    method Stream(ok: nat -> bool, throttled: Option<Failure>, env: nat -> Try)
      requires sent == [] && tries == 0 && log == []
      modifies this, breaker
      ensures closes == old(closes)
      ensures Now() == Call(maxReconnect, retries, ok, old(target), old(Retry.Value(breaker)), throttled, env)
    {
      if throttled.Some? {
        SendChunk(ok, ErrorChunk(throttled));
        return;
      }
      var emitted, last, again := false, None, true;
      var attempt := 0;
      ghost var all := Call(maxReconnect, retries, ok, target, Retry.Value(breaker), throttled, env);
      while attempt <= Total(maxReconnect, retries)
        invariant attempt >= 0 && closes == old(closes)
        invariant all == Attempts(maxReconnect, retries, ok, Now(), attempt, emitted, last, env)
        decreases Total(maxReconnect, retries) + 1 - attempt
      {
        var t := env(attempt);
        if attempt > 0 {
          if emitted {
            SendChunk(ok, ErrorChunk(last));
            return;
          }
          if attempt > maxReconnect {
            if !t.mayFailover || t.fallback.None? {
              SendChunk(ok, ErrorChunk(last));
              return;
            }
            target := t.fallback.value;
            log := log + [Switch(target)];
            attempt := attempt + 1;
            continue;
          }
          if t.cancelled {
            return;
          }
        }
        again, emitted, last := Connect(ok, emitted, t);
        if !again {
          return;
        }
        attempt := attempt + 1;
      }
      SendChunk(ok, ErrorChunk(last));
    }
  }
}
