/**
 What every streaming call keeps: all output comes from one response, nothing is requested
 after output, a done chunk ends it, and a fallback is never asked within the call.
 */
module FailoverSafe {
  import opened Options
  import opened Protocol
  import opened Sse
  import opened Failover
  import Breaker
  import Bridge
  import Retry
  import Think

  /** Only warnings: what may have been sent without counting as output. */
  ghost predicate Quiet(chs: seq<Chunk>) {
    forall i :: 0 <= i < |chs| ==> chs[i].WarnChunk?
  }

  ghost predicate NoDone(chs: seq<Chunk>) {
    forall i :: 0 <= i < |chs| ==> !chs[i].DoneChunk?
  }

  ghost predicate NoError(chs: seq<Chunk>) {
    forall i :: 0 <= i < |chs| ==> !chs[i].ErrorChunk?
  }

  /** After a done chunk there is at most an error: so there is at most one done chunk. */
  ghost predicate DoneEnds(chs: seq<Chunk>) {
    forall i, j :: 0 <= i < j < |chs| && chs[i].DoneChunk? ==> chs[j].ErrorChunk?
  }

  // ---------------------------------------------------------------- one payload

  /** What every step that does not finish the stream keeps. */
  ghost predicate Keeps(r: Read, x: Read) {
    && x.ok == r.ok && x.miniMax == r.miniMax
    && (r.emitted ==> x.emitted)
    && (NoDone(r.sent) ==> NoDone(x.sent))
    && (NoError(r.sent) ==> NoError(x.sent))
    && (!x.emitted && Quiet(r.sent) ==> Quiet(x.sent))
    && (Counted(r) ==> Counted(x))
  }

  /** There has been output if and only if something other than a warning was sent. */
  ghost predicate Counted(r: Read) {
    r.emitted <==> !Quiet(r.sent)
  }

  lemma {:induction false} SentKeeps(r: Read, ch: Chunk)
    requires !ch.DoneChunk? && !ch.ErrorChunk? && !ch.WarnChunk?
    ensures Keeps(r, Sent(r, ch))
  {
    if Counted(r) {
      SentCounts(r, ch);
    }
  }

  lemma {:induction false} SentCounts(r: Read, ch: Chunk)
    requires Counted(r) && !ch.WarnChunk?
    ensures Counted(Sent(r, ch))
  {
    assert (r.sent + [ch])[|r.sent|] == ch;
    assert forall i :: 0 <= i < |r.sent| ==> (r.sent + [ch])[i] == r.sent[i];
  }

  lemma {:induction false} ContentKeeps(r: Read, text: string)
    ensures Keeps(r, Content(r, text).r)
  {
    if text != "" && r.miniMax {
      var o := Think.Pushed(r.think, text);
      var x := r.(think := o.next);
      SentKeeps(x, ReasoningChunk(o.thought));
      SentKeeps(SendReasoning(x, o.thought).r, TextChunk(o.visible));
    } else {
      SentKeeps(r, TextChunk(text));
    }
  }

  lemma {:induction false} ToolKeeps(r: Read, d: CallDelta)
    ensures Keeps(r, ToolDelta(r, d).r)
  {
    var cur := Merge(Current(r, d.index), d);
    var x := r.(acc := r.acc[d.index := cur], order := if d.index in r.acc then r.order else r.order + [d.index]);
    SentKeeps(x.(started := x.started + {d.index}), StartChunk(Some(ToolCall(cur.id, "", cur.name, ""))));
  }

  lemma {:induction false} ToolsKeep(r: Read, ds: seq<CallDelta>)
    ensures Keeps(r, Tools(r, ds).r)
    decreases ds
  {
    if ds != [] {
      ToolsKeep(r, ds[..|ds| - 1]);
      ToolKeeps(Tools(r, ds[..|ds| - 1]).r, ds[|ds| - 1]);
    }
  }

  lemma {:induction false} FinalCallsKeep(r: Read, ids: seq<int>)
    ensures Keeps(r, FinalCalls(r, ids).r)
    decreases ids
  {
    if ids != [] {
      FinalCallsKeep(r, ids[..|ids| - 1]);
      var x, i := FinalCalls(r, ids[..|ids| - 1]).r, ids[|ids| - 1];
      if i in x.acc {
        var tc := if x.acc[i].id == "" then x.acc[i].(id := SynthId(i)) else x.acc[i];
        SentKeeps(x.(acc := x.acc[i := tc]), CallChunk(Some(tc)));
      }
    }
  }

  lemma {:induction false} DeltaKeeps(r: Read, d: Delta)
    ensures Keeps(r, DeltaStep(r, d).r)
  {
    SentKeeps(r, ReasoningChunk(ReasoningDelta(d)));
    var x := SendReasoning(r, ReasoningDelta(d)).r;
    ContentKeeps(x, d.content);
    ToolsKeep(Content(x, d.content).r, d.calls);
  }

  lemma {:induction false} MeterKeeps(r: Read, usage: Option<Usage>, warn: Option<string>)
    ensures Keeps(r, Metered(r, usage, warn))
  {
    if usage.Some? {
      SentKeeps(r, UsageChunk(usage.value));
      WarnKeeps(Sent(r, UsageChunk(usage.value)), warn);
    }
  }

  lemma {:induction false} WarnKeeps(r: Read, warn: Option<string>)
    ensures Keeps(r, Warned(r, warn))
  {
    if warn.Some? {
      var more := r.sent + [WarnChunk(warn.value)];
      assert forall i :: 0 <= i < |r.sent| ==> more[i] == r.sent[i];
    }
  }

  /** A payload that reports an error. */
  predicate Reports(ev: Event) {
    ev.Event? && ev.error.Some?
  }

  /** Any other payload either keeps the stream open or closes it with a done chunk, if that gets through. */
  ghost predicate Processed(r: Read, z: Result) {
    if z.stop then exists y :: Keeps(r, y) && z.r == Sent(y, DoneChunk) else Keeps(r, z.r)
  }

  lemma {:induction false} FinishProcessed(r: Read)
    ensures Processed(r, Finish(r))
  {
    var o := Think.Flushed(r.think);
    var x := r.(think := o.next);
    SentKeeps(x, ReasoningChunk(o.thought));
    var y := SendReasoning(x, o.thought).r;
    FinalCallsKeep(y, y.order);
    assert Keeps(r, FinalCalls(y, y.order).r);
  }

  lemma {:induction false} KeepsThen(r: Read, x: Read, z: Result)
    requires Keeps(r, x) && Processed(x, z)
    ensures Processed(r, z)
  {
    if z.stop {
      var y :| Keeps(x, y) && z.r == Sent(y, DoneChunk);
      assert Keeps(r, y);
    }
  }

  lemma {:induction false} ProcessKeeps(r: Read, ev: Event)
    requires !Reports(ev)
    ensures Processed(r, Process(r, ev))
  {
    if ev.Event? {
      MeterKeeps(r, ev.usage, ev.warn);
      if ev.choice.Some? {
        ChoiceKeeps(r, Metered(r, ev.usage, ev.warn), ev.choice.value);
      }
    }
  }

  lemma {:induction false} ChoiceKeeps(r: Read, m: Read, c: Choice)
    requires Keeps(r, m)
    ensures Processed(r, ChoiceStep(m, c))
  {
    DeltaKeeps(m, c.delta);
    var x := DeltaStep(m, c.delta);
    if x.Go? && Finishes(c) {
      FinishProcessed(x.r);
      KeepsThen(r, x.r, Finish(x.r));
    }
  }

  // ---------------------------------------------------------------- one response

  /** What a whole response may leave behind on a channel that was quiet. */
  ghost predicate Left(r: Read, x: Read) {
    && x.ok == r.ok
    && DoneEnds(x.sent)
    && Counted(x)
  }

  lemma {:induction false} DoneLast(r: Read, y: Read)
    requires Keeps(r, y) && NoDone(r.sent) && Counted(r)
    ensures Left(r, Sent(y, DoneChunk)) && Left(r, y)
  {
    SentCounts(y, DoneChunk);
  }

  lemma {:induction false} ScanLeaves(r: Read, lines: seq<Line>)
    requires NoDone(r.sent) && Counted(r)
    ensures Left(r, Scan(r, lines).r)
    decreases lines
  {
    if lines == [] {
    } else if lines[0].Skipped? {
      ScanLeaves(r, lines[1..]);
    } else if lines[0].DoneMark? {
      DoneLast(r, r);
    } else if Reports(lines[0].ev) {
      SentCounts(r, ErrorChunk(Some(Failure(lines[0].ev.error.value, r.emitted))));
    } else {
      ProcessKeeps(r, lines[0].ev);
      var p := Process(r, lines[0].ev);
      if p.stop {
        var y :| Keeps(r, y) && p.r == Sent(y, DoneChunk);
        DoneLast(r, y);
        StopHasNoError(r, lines[0].ev);
      } else {
        DoneLast(r, p.r);
        if p.err.None? {
          ScanLeaves(p.r, lines[1..]);
        }
      }
    }
  }

  lemma {:induction false} StopHasNoError(r: Read, ev: Event)
    ensures Process(r, ev).stop ==> Process(r, ev).err.None?
  {
  }

  /** The response to attempt `k`, on a channel that carries `q` so far. */
  function Response(ok: nat -> bool, miniMax: bool, q: seq<Chunk>, tries: nat, t: Try): Reading {
    ReadStream(Reopened(ok, miniMax, q, tries), t.body)
  }

  /** Quiet, but for an error at the end. */
  ghost predicate Bare(chs: seq<Chunk>) {
    Quiet(chs) || (chs != [] && Quiet(chs[..|chs| - 1]) && chs[|chs| - 1].ErrorChunk?)
  }

  lemma {:induction false} ResponseLeaves(ok: nat -> bool, miniMax: bool, q: seq<Chunk>, tries: nat, t: Try)
    requires Quiet(q)
    ensures var x := Response(ok, miniMax, q, tries, t);
            && DoneEnds(x.r.sent)
            && (!x.r.emitted ==> Bare(x.r.sent))
            && (!x.r.emitted && (x.err.None? || x.err.value.reset || t.body.scanErr.Some?) ==> Quiet(x.r.sent))
  {
    ScanLeaves(Reopened(ok, miniMax, q, tries), t.body.lines);
  }

  // ---------------------------------------------------------------- the whole call

  /** Attempt `k` was the last to be requested, and what was sent is what its response produced. */
  ghost predicate Source(ok: nat -> bool, miniMax: bool, env: nat -> Try, z: State, k: nat, q: seq<Chunk>, tries: nat) {
    && Quiet(q)
    && var x := Response(ok, miniMax, q, tries, env(k));
       && x.r.emitted && z.sent == x.r.sent
       && |z.log| == k + 1 && z.log[k].Request?
  }

  ghost predicate OneSource(ok: nat -> bool, miniMax: bool, env: nat -> Try, z: State) {
    exists k, q, tries :: Source(ok, miniMax, env, z, k, q, tries)
  }

  /** Nothing but warnings and errors. */
  ghost predicate Nothing(chs: seq<Chunk>) {
    forall i :: 0 <= i < |chs| ==> chs[i].WarnChunk? || chs[i].ErrorChunk?
  }

  ghost predicate Posted(log: seq<Act>, target: Target) {
    forall i :: 0 <= i < |log| && log[i].Request? ==> log[i].target == target && log[i].posts <= 11
  }

  ghost predicate Early(maxReconnect: int, log: seq<Act>) {
    forall i :: 0 <= i < |log| && log[i].Request? ==> i == 0 || i <= maxReconnect
  }

  /** Where the loop stands before attempt `attempt`. */
  ghost predicate Standing(maxReconnect: int, s: State, attempt: nat, target: Target) {
    && Quiet(s.sent) && |s.log| == attempt && Posted(s.log, target) && Early(maxReconnect, s.log)
    && (attempt == 0 || attempt <= maxReconnect ==> s.target == target)
  }

  ghost predicate Ended(maxReconnect: int, ok: nat -> bool, target: Target, env: nat -> Try, z: State) {
    && (Nothing(z.sent) || OneSource(ok, target.miniMax, env, z))
    && DoneEnds(z.sent) && Posted(z.log, target) && Early(maxReconnect, z.log)
  }

  lemma {:induction false} TellEnds(maxReconnect: int, ok: nat -> bool, s: State, target: Target, last: Option<Failure>, env: nat -> Try)
    requires Nothing(s.sent) && Posted(s.log, target) && Early(maxReconnect, s.log)
    ensures Ended(maxReconnect, ok, target, env, Tell(ok, s, last)) && Ended(maxReconnect, ok, target, env, s)
  {
  }

  /** `Standing` after attempt `attempt` asked for a response. */
  ghost predicate Asking(maxReconnect: int, s: State, attempt: nat, target: Target) {
    && (attempt == 0 || attempt <= maxReconnect) && s.target == target && Quiet(s.sent)
    && |s.log| == attempt + 1 && s.log[attempt].Request? && Posted(s.log, target) && Early(maxReconnect, s.log)
  }

  lemma {:induction false} AnswerEnds(maxReconnect: int, ok: nat -> bool, s: State, attempt: nat, target: Target, env: nat -> Try)
    requires Asking(maxReconnect, s, attempt, target)
    ensures match Answer(ok, s, env(attempt).body)
            case Quit(z) => Ended(maxReconnect, ok, target, env, z)
            case Again(s1, emitted, _) => !emitted && Standing(maxReconnect, s1, attempt + 1, target)
  {
    var x := Response(ok, target.miniMax, s.sent, s.tries, env(attempt));
    var s1 := s.(sent := x.r.sent, tries := x.r.tries);
    ResponseLeaves(ok, target.miniMax, s.sent, s.tries, env(attempt));
    if x.r.emitted {
      assert Source(ok, target.miniMax, env, s1, attempt, s.sent, s.tries);
      assert Source(ok, target.miniMax, env, s1.(b := Retry.Praise(s1.b)), attempt, s.sent, s.tries);
    } else if x.err.Some? {
      TellEnds(maxReconnect, ok, s1, target, Some(x.err.value.failure), env);
    }
  }

  lemma {:induction false} AskEnds(maxReconnect: int, ok: nat -> bool, s: State, attempt: nat, target: Target, env: nat -> Try)
    requires Standing(maxReconnect, s, attempt, target) && (attempt == 0 || attempt <= maxReconnect)
    requires forall k :: env(attempt).net(k).jitter < 250
    ensures match Ask(ok, s, false, env(attempt))
            case Quit(z) => Ended(maxReconnect, ok, target, env, z)
            case Again(s1, emitted, _) => !emitted && Standing(maxReconnect, s1, attempt + 1, target)
  {
    var t := env(attempt);
    Retry.RetryTheorem(s.b, t.managed, t.net);
    var f := Retry.Send(s.b, t.managed, t.net);
    var s1 := s.(b := f.b, log := s.log + [Request(s.target, Retry.Posts(f.log))]);
    AnswerEnds(maxReconnect, ok, s1, attempt, target, env);
  }

  lemma {:induction false} AttemptEnds(maxReconnect: int, ok: nat -> bool, s: State, attempt: nat, last: Option<Failure>, target: Target, env: nat -> Try)
    requires Standing(maxReconnect, s, attempt, target)
    requires forall k :: env(attempt).net(k).jitter < 250
    ensures match OneAttempt(maxReconnect, ok, s, attempt, false, last, env(attempt))
            case Quit(z) => Ended(maxReconnect, ok, target, env, z)
            case Again(s1, emitted, _) => !emitted && Standing(maxReconnect, s1, attempt + 1, target)
  {
    if attempt == 0 || attempt <= maxReconnect {
      AskEnds(maxReconnect, ok, s, attempt, target, env);
    }
    TellEnds(maxReconnect, ok, s, target, last, env);
  }

  lemma {:induction false} LoopEnds(maxReconnect: int, retries: int, ok: nat -> bool, s: State, attempt: nat, last: Option<Failure>, target: Target, env: nat -> Try)
    requires Standing(maxReconnect, s, attempt, target)
    requires forall a, k :: env(a).net(k).jitter < 250
    ensures Ended(maxReconnect, ok, target, env, Attempts(maxReconnect, retries, ok, s, attempt, false, last, env))
    decreases Total(maxReconnect, retries) + 1 - attempt
  {
    if attempt > Total(maxReconnect, retries) {
      TellEnds(maxReconnect, ok, s, target, last, env);
    } else {
      AttemptEnds(maxReconnect, ok, s, attempt, last, target, env);
      var x := OneAttempt(maxReconnect, ok, s, attempt, false, last, env(attempt));
      if x.Again? {
        LoopEnds(maxReconnect, retries, ok, x.s, attempt + 1, x.last, target, env);
      }
    }
  }

  /** All HTTP requests of a call. */
  function HttpRequests(log: seq<Act>): nat {
    if log == [] then 0
    else HttpRequests(log[..|log| - 1]) + (if log[|log| - 1].Request? then log[|log| - 1].posts else 0)
  }

  /** All calls of `SendWithRetry`. */
  function Requests(log: seq<Act>): nat {
    if log == [] then 0 else Requests(log[..|log| - 1]) + (if log[|log| - 1].Request? then 1 else 0)
  }

  function Tries(maxReconnect: int): nat {
    if maxReconnect < 0 then 1 else maxReconnect + 1
  }

  lemma {:induction false} HttpBound(maxReconnect: int, log: seq<Act>, target: Target)
    requires Posted(log, target) && Early(maxReconnect, log)
    ensures Requests(log) <= |log| && Requests(log) <= Tries(maxReconnect)
    ensures HttpRequests(log) <= 11 * Requests(log)
    decreases log
  {
    if log != [] {
      HttpBound(maxReconnect, log[..|log| - 1], target);
    }
  }

  /**
   Every streaming call, whatever the network, the consumer and the clock do: either nothing
   but warnings and errors is sent, or all that is sent is what one response produced and no
   request and no failover follows it; nothing but an error follows a done chunk; all requests
   go to the target the call started with, even after a switch to a fallback; and there are
   at most `maxReconnect + 1` of them, each of at most eleven HTTP requests.
   */
  lemma {:induction false} StreamSafe(maxReconnect: int, retries: int, ok: nat -> bool, target: Target, b: Option<Breaker.Circuit>, throttled: Option<Failure>, env: nat -> Try)
    requires forall a, k :: env(a).net(k).jitter < 250
    ensures var z := Call(maxReconnect, retries, ok, target, b, throttled, env);
            && (Nothing(z.sent) || OneSource(ok, target.miniMax, env, z))
            && DoneEnds(z.sent)
            && (forall i :: 0 <= i < |z.log| && z.log[i].Request? ==> z.log[i].target == target)
            && Requests(z.log) <= Tries(maxReconnect) && HttpRequests(z.log) <= 11 * Tries(maxReconnect)
  {
    var s := State(target, b, [], 0, []);
    if throttled.Some? {
      TellEnds(maxReconnect, ok, s, target, throttled, env);
    } else {
      LoopEnds(maxReconnect, retries, ok, s, 0, None, target, env);
    }
    HttpBound(maxReconnect, Call(maxReconnect, retries, ok, target, b, throttled, env).log, target);
  }

  // ---------------------------------------------------------------- which errors are told

  /** The reader as it meets the `error` payload that ends the reading, if one does. */
  function AtError(r: Read, lines: seq<Line>): Option<Read>
    decreases lines
  {
    if lines == [] || lines[0].DoneMark? then None
    else if lines[0].Skipped? then AtError(r, lines[1..])
    else if Reports(lines[0].ev) then Some(r)
    else
      var p := Process(r, lines[0].ev);
      if p.err.Some? || p.stop then None else AtError(p.r, lines[1..])
  }

  /** The text of that payload. */
  function ErrorText(r: Read, lines: seq<Line>): string
    decreases lines
  {
    if lines == [] || lines[0].DoneMark? then ""
    else if lines[0].Skipped? then ErrorText(r, lines[1..])
    else if Reports(lines[0].ev) then lines[0].ev.error.value
    else ErrorText(Process(r, lines[0].ev).r, lines[1..])
  }

  /** An `error` payload is passed on; nothing else the reader does sends an error. */
  lemma {:induction false} ScanTells(r: Read, lines: seq<Line>)
    requires NoError(r.sent)
    ensures match AtError(r, lines)
            case None => NoError(Scan(r, lines).r.sent)
            case Some(y) =>
              && NoError(y.sent) && y.ok == r.ok
              && Scan(r, lines) == Failed(Sent(y, ErrorChunk(Some(Failure(ErrorText(r, lines), y.emitted)))),
                                          Failure("API stream error: " + ErrorText(r, lines), false))
    decreases lines
  {
    if lines == [] || lines[0].DoneMark? {
    } else if lines[0].Skipped? {
      ScanTells(r, lines[1..]);
    } else if Reports(lines[0].ev) {
    } else {
      DataTells(r, lines[0].ev);
      var p := Process(r, lines[0].ev);
      if p.err.None? && !p.stop {
        ScanTells(p.r, lines[1..]);
      }
    }
  }

  lemma {:induction false} ErrorBeforeDone(r: Read, lines: seq<Line>)
    requires NoDone(r.sent)
    ensures AtError(r, lines).Some? ==> NoDone(AtError(r, lines).value.sent)
    decreases lines
  {
    if lines == [] || lines[0].DoneMark? {
    } else if lines[0].Skipped? {
      ErrorBeforeDone(r, lines[1..]);
    } else if !Reports(lines[0].ev) {
      ProcessKeeps(r, lines[0].ev);
      var p := Process(r, lines[0].ev);
      if p.err.None? && !p.stop {
        ErrorBeforeDone(p.r, lines[1..]);
      }
    }
  }

  lemma {:induction false} DataTells(r: Read, ev: Event)
    requires NoError(r.sent) && !Reports(ev)
    ensures NoError(Process(r, ev).r.sent) && Process(r, ev).r.ok == r.ok
  {
    ProcessKeeps(r, ev);
    var p := Process(r, ev);
    if p.stop {
      var y :| Keeps(r, y) && p.r == Sent(y, DoneChunk);
    }
  }

  /**
   The reader as it comes to tell an error itself: at an `error` payload, or when the stream
   stalls.  A scanner error and a cancellation are not told there.
   */
  function Telling(r: Read, body: Body): Option<Read> {
    var x := Scan(r, body.lines);
    if x.Drained? && body.scanErr.None? && body.stalled then Some(x.r) else AtError(r, body.lines)
  }

  /** What reading a response leaves on a channel without errors. */
  lemma {:induction false} ReadTells(r: Read, body: Body)
    requires NoError(r.sent)
    ensures var x := ReadStream(r, body);
            match Telling(r, body)
            case None => NoError(x.r.sent)
            case Some(y) =>
              && NoError(y.sent) && x.err.Some? && !x.err.value.reset && x.r.tries == y.tries + 1
              && (r.ok(y.tries) <==> !NoError(x.r.sent)) && (!r.ok(y.tries) ==> x.r.emitted == y.emitted)
              && (y.emitted ==> x.r.emitted)
  {
    ScanTells(r, body.lines);
    ScanOk(r, body.lines);
    var x := Scan(r, body.lines);
    if x.Drained? && body.scanErr.None? && body.stalled {
      OfferTells(x.r, ErrorChunk(Some(Failure(IDLE, false))));
    } else if AtError(r, body.lines).Some? {
      var y := AtError(r, body.lines).value;
      OfferTells(y, ErrorChunk(Some(Failure(ErrorText(r, body.lines), y.emitted))));
    }
  }

  lemma {:induction false} OfferTells(y: Read, ch: Chunk)
    requires NoError(y.sent) && ch.ErrorChunk?
    ensures y.ok(y.tries) <==> !NoError(Offered(y.ok, y.sent, y.tries, ch))
    ensures Sent(y, ch).sent == Offered(y.ok, y.sent, y.tries, ch)
  {
    if y.ok(y.tries) {
      assert (y.sent + [ch])[|y.sent|].ErrorChunk?;
    }
  }

  lemma {:induction false} ScanOk(r: Read, lines: seq<Line>)
    ensures Scan(r, lines).r.ok == r.ok
    decreases lines
  {
    if lines == [] || lines[0].DoneMark? {
    } else if lines[0].Skipped? {
      ScanOk(r, lines[1..]);
    } else if !Reports(lines[0].ev) {
      ProcessKeeps(r, lines[0].ev);
      ScanOk(Process(r, lines[0].ev).r, lines[1..]);
    }
  }

  /** The reader of a response to a call that stands at `s`. */
  function ReaderAt(ok: nat -> bool, s: State): Read {
    Reopened(ok, s.target.miniMax, s.sent, s.tries)
  }

  /**
   For every response whose reading fails and ends the call: the consumer is told of an error
   if and only if the reader comes to tell it and the channel takes it there, or there was no
   output at all and the channel takes it at the end of the call.
   */
  lemma {:induction false} ErrorTold(ok: nat -> bool, s: State, body: Body)
    requires Quiet(s.sent) && Answer(ok, s, body).Quit? && ReadStream(ReaderAt(ok, s), body).err.Some?
    ensures var x, z := ReadStream(ReaderAt(ok, s), body), Answer(ok, s, body).s;
            !NoError(z.sent) <==>
              match Telling(ReaderAt(ok, s), body)
              case None => !x.r.emitted && ok(x.r.tries)
              case Some(y) => ok(y.tries) || (!y.emitted && ok(y.tries + 1))
  {
    var x := ReadStream(ReaderAt(ok, s), body);
    var s1 := s.(sent := x.r.sent, tries := x.r.tries);
    ReadTells(ReaderAt(ok, s), body);
    if !x.r.emitted {
      TellTells(ok, s1, Some(x.err.value.failure));
    }
  }

  lemma {:induction false} TellTells(ok: nat -> bool, s: State, last: Option<Failure>)
    ensures !NoError(Tell(ok, s, last).sent) <==> (!NoError(s.sent) || ok(s.tries))
  {
    var more := s.sent + [ErrorChunk(last)];
    assert more[|s.sent|].ErrorChunk?;
    assert forall i :: 0 <= i < |s.sent| ==> more[i] == s.sent[i];
  }

  /**
   Every response that a scanner error or a cancellation breaks after output: the call ends
   without a word, so the bridge hands what there is on as one whole message, the same as if
   it had been done.
   */
  lemma {:induction false} BrokenOffSilently(ok: nat -> bool, s: State, body: Body, quit: nat -> bool, chat: Option<Bridge.Draft>)
    requires Quiet(s.sent) && (forall n :: !quit(n))
    requires var x := ReadStream(ReaderAt(ok, s), body); x.err.Some? && x.r.emitted && Telling(ReaderAt(ok, s), body).None?
    ensures var z := Answer(ok, s, body);
            && z.Quit? && NoError(z.s.sent)
            && Bridge.Emit(Bridge.BLANK, z.s.sent, 0, quit, chat) == Bridge.Emit(Bridge.BLANK, z.s.sent + [DoneChunk], 0, quit, chat)
            && Bridge.Emit(Bridge.BLANK, z.s.sent, 0, quit, chat) == [Bridge.Msg(Bridge.AbsorbAll(Bridge.BLANK, Bridge.BeforeDone(z.s.sent)))]
  {
    ErrorTold(ok, s, body);
    var z := Answer(ok, s, body);
    Bridge.EndLikeDone(Bridge.BLANK, z.s.sent, 0, quit, chat);
    Bridge.NoErrorEmits(Bridge.BLANK, z.s.sent, 0, quit, chat);
  }

  /** Such a response: one text, and then the connection breaks. */
  lemma {:induction false} TornText(ok: nat -> bool, s: State, text: string, reset: bool)
    requires Quiet(s.sent) && !s.target.miniMax && text != "" && ok(s.tries)
    ensures var body := Body([Data(Event(None, None, None, Some(Choice(Delta(text, "", "", []), None))))], Some(reset), false);
            var x := ReadStream(ReaderAt(ok, s), body);
            && x.err.Some? && x.r.emitted && Telling(ReaderAt(ok, s), body).None?
            && Answer(ok, s, body).s.sent == s.sent + [TextChunk(text)]
  {
    var ev := Event(None, None, None, Some(Choice(Delta(text, "", "", []), None)));
    var r := ReaderAt(ok, s);
    var sent := Sent(r, TextChunk(text));
    assert Process(r, ev) == Result(sent, false, None);
    assert [Data(ev)][1..] == [];
    assert Scan(sent, []) == Drained(sent) && AtError(sent, []) == None;
    assert Scan(r, [Data(ev)]) == Drained(sent) && AtError(r, [Data(ev)]) == None;
  }

  /** An `error` payload after output is told, as an interruption, which makes the bridge recover. */
  lemma {:induction false} PayloadErrorRecovers(ok: nat -> bool, s: State, body: Body, quit: nat -> bool, chat: Option<Bridge.Draft>)
    requires Quiet(s.sent) && (forall n :: !quit(n))
    requires var y := AtError(ReaderAt(ok, s), body.lines); y.Some? && y.value.emitted && ok(y.value.tries)
    ensures var z := Answer(ok, s, body);
            && z.Quit?
            && Bridge.Emit(Bridge.BLANK, z.s.sent, 0, quit, chat)
               == [Bridge.Msg(Bridge.RECOVERING)] + (if chat.Some? then [Bridge.Msg(chat.value)] else [])
  {
    var r := ReaderAt(ok, s);
    ScanTells(r, body.lines);
    ErrorBeforeDone(r, body.lines);
    var y := AtError(r, body.lines).value;
    Bridge.EmitError(Bridge.BLANK, y.sent, Some(Failure(ErrorText(r, body.lines), true)), 0, quit, chat);
  }
}
