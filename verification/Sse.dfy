/**
 Streaming: decoded server-sent events become chunks.  `Read` is the reader's state; whether
 the n-th attempt to send on the output channel wins against cancellation is given by `ok`.
 */
module Sse {
  import opened Options
  import opened Protocol
  import Think

  /** One tool-call fragment of a delta. */
  datatype CallDelta = CallDelta(index: int, id: string, name: string, arguments: string)

  datatype Delta = Delta(content: string, reasoningContent: string, reasoning: string, calls: seq<CallDelta>)

  datatype Choice = Choice(delta: Delta, finish: Option<string>)

  /**
   One `data:` payload: not JSON, or decoded.  `warn` is the context warning its usage gives
   rise to, if any.
   */
  datatype Event =
    | Garbage
    | Event(error: Option<string>, usage: Option<Usage>, warn: Option<string>, choice: Option<Choice>)

  datatype Read = Read(
    ok: nat -> bool,
    miniMax: bool,
    acc: map<int, ToolCall>,
    started: set<int>,
    order: seq<int>,
    think: Think.Splitter,
    emitted: bool,
    sent: seq<Chunk>,
    tries: nat)

  function Fresh(ok: nat -> bool, miniMax: bool): Read {
    Read(ok, miniMax, map[], {}, [], Think.FRESH, false, [], 0)
  }

  /** A reader that starts on a channel that has already been used. */
  function Reopened(ok: nat -> bool, miniMax: bool, sent: seq<Chunk>, tries: nat): Read {
    Fresh(ok, miniMax).(sent := sent, tries := tries)
  }

  const CANCELLED := Failure("context canceled", false)
  const EMPTY_CALL := ToolCall("", "", "", "")

  datatype Step = Go(r: Read) | Halt(r: Read)

  datatype Result = Result(r: Read, stop: bool, err: Option<Failure>)

  // ---------------------------------------------------------------- specification

  function Sent(r: Read, ch: Chunk): Read {
    if r.ok(r.tries) then r.(sent := r.sent + [ch], emitted := true, tries := r.tries + 1)
    else r.(tries := r.tries + 1)
  }

  function TrySend(r: Read, ch: Chunk): Step {
    if r.ok(r.tries) then Go(Sent(r, ch)) else Halt(Sent(r, ch))
  }

  /** A warning is sent without waiting and does not count as output. */
  function Warned(r: Read, warn: Option<string>): Read {
    if warn.None? then r
    else if r.ok(r.tries) then r.(sent := r.sent + [WarnChunk(warn.value)], tries := r.tries + 1)
    else r.(tries := r.tries + 1)
  }

  function ReasoningDelta(d: Delta): string {
    if d.reasoningContent == "" then d.reasoning else d.reasoningContent
  }

  function SendReasoning(r: Read, text: string): Step {
    if text == "" then Go(r) else TrySend(r, ReasoningChunk(text))
  }

  function SendText(r: Read, text: string): Step {
    if text == "" then Go(r) else TrySend(r, TextChunk(text))
  }

  function Content(r: Read, text: string): Step {
    if text == "" then Go(r)
    else if r.miniMax then
      var o := Think.Pushed(r.think, text);
      match SendReasoning(r.(think := o.next), o.thought)
      case Halt(x) => Halt(x)
      case Go(x) => SendText(x, o.visible)
    else TrySend(r, TextChunk(text))
  }

  function Merge(cur: ToolCall, d: CallDelta): ToolCall {
    ToolCall(
      if d.id != "" then d.id else cur.id,
      cur.kind,
      if d.name != "" then d.name else cur.name,
      cur.arguments + d.arguments)
  }

  function Current(r: Read, i: int): ToolCall {
    if i in r.acc then r.acc[i] else EMPTY_CALL
  }

  function ToolDelta(r: Read, d: CallDelta): Step {
    var cur := Merge(Current(r, d.index), d);
    var x := r.(acc := r.acc[d.index := cur], order := if d.index in r.acc then r.order else r.order + [d.index]);
    if d.index !in r.started && cur.name != "" then
      TrySend(x.(started := x.started + {d.index}), StartChunk(Some(ToolCall(cur.id, "", cur.name, ""))))
    else Go(x)
  }

  function Tools(r: Read, ds: seq<CallDelta>): Step {
    if ds == [] then Go(r)
    else
      match Tools(r, ds[..|ds| - 1])
      case Halt(x) => Halt(x)
      case Go(x) => ToolDelta(x, ds[|ds| - 1])
  }

  function Decimal(n: nat): string {
    if n < 10 then ["0123456789"[n]] else Decimal(n / 10) + ["0123456789"[n % 10]]
  }

  /** `fmt.Sprintf("call_%d", i)` */
  function SynthId(i: int): string {
    "call_" + (if i < 0 then "-" + Decimal(-i) else Decimal(i))
  }

  function FinalCall(r: Read, i: int): Step {
    if i !in r.acc then Go(r)
    else
      var tc := if r.acc[i].id == "" then r.acc[i].(id := SynthId(i)) else r.acc[i];
      TrySend(r.(acc := r.acc[i := tc]), CallChunk(Some(tc)))
  }

  function FinalCalls(r: Read, order: seq<int>): Step {
    if order == [] then Go(r)
    else
      match FinalCalls(r, order[..|order| - 1])
      case Halt(x) => Halt(x)
      case Go(x) => FinalCall(x, order[|order| - 1])
  }

  function Finish(r: Read): Result {
    var o := Think.Flushed(r.think);
    match SendReasoning(r.(think := o.next), o.thought)
    case Halt(x) => Result(x, false, Some(CANCELLED))
    case Go(x) =>
      match FinalCalls(x, x.order)
      case Halt(y) => Result(y, false, Some(CANCELLED))
      case Go(y) => Result(Sent(y, DoneChunk), true, None)
  }

  function DeltaStep(r: Read, d: Delta): Step {
    match SendReasoning(r, ReasoningDelta(d))
    case Halt(x) => Halt(x)
    case Go(x) =>
      match Content(x, d.content)
      case Halt(y) => Halt(y)
      case Go(y) => Tools(y, d.calls)
  }

  predicate Finishes(c: Choice) {
    c.finish.Some? && c.finish.value != ""
  }

  function ChoiceStep(r: Read, c: Choice): Result {
    match DeltaStep(r, c.delta)
    case Halt(x) => Result(x, false, Some(CANCELLED))
    case Go(x) => if Finishes(c) then Finish(x) else Result(x, false, None)
  }

  function Metered(r: Read, usage: Option<Usage>, warn: Option<string>): Read {
    if usage.None? then r else Warned(Sent(r, UsageChunk(usage.value)), warn)
  }

  /** The effect of one payload on the reader. */
  function Process(r: Read, ev: Event): Result {
    match ev
    case Garbage => Result(r, false, None)
    case Event(error, usage, warn, choice) =>
      if error.Some? then
        Result(Sent(r, ErrorChunk(Some(Failure(error.value, r.emitted)))), false,
               Some(Failure("API stream error: " + error.value, false)))
      else if choice.None? then Result(Metered(r, usage, warn), false, None)
      else ChoiceStep(Metered(r, usage, warn), choice.value)
  }

  // ---------------------------------------------------------------- the object

  class ReadStreamState {
    const ok: nat -> bool
    const miniMax: bool
    var acc: map<int, ToolCall>
    var started: set<int>
    var order: seq<int>
    var think: Think.Splitter
    var emitted: bool
    var sent: seq<Chunk>
    var tries: nat

    ghost function Now(): Read
      reads this
    {
      Read(ok, miniMax, acc, started, order, think, emitted, sent, tries)
    }

    constructor (ok: nat -> bool, miniMax: bool, sent: seq<Chunk>, tries: nat)
      ensures Now() == Reopened(ok, miniMax, sent, tries)
    {
      this.ok, this.miniMax := ok, miniMax;
      acc, started, order := map[], {}, [];
      think, emitted := Think.FRESH, false;
      this.sent, this.tries := sent, tries;
    }

    method Send(ch: Chunk) returns (done: bool)
      modifies this
      ensures Now() == Sent(old(Now()), ch) && done == ok(old(tries))
    {
      done := ok(tries);
      tries := tries + 1;
      if done {
        sent := sent + [ch];
        emitted := true;
      }
    }

    /** `sendChunk`, which does not wait and does not count as output. */
    method Offer(ch: Chunk)
      modifies this
      ensures Now() == old(Now()).(sent := if ok(old(tries)) then old(sent) + [ch] else old(sent), tries := old(tries) + 1)
    {
      if ok(tries) {
        sent := sent + [ch];
      }
      tries := tries + 1;
    }

    method ProcessContent(text: string) returns (done: bool)
      modifies this
      ensures Content(old(Now()), text) == if done then Go(Now()) else Halt(Now())
    {
      if text == "" {
        return true;
      }
      if miniMax {
        var o := Think.Pushed(think, text);
        think := o.next;
        if o.thought != "" {
          done := Send(ReasoningChunk(o.thought));
          if !done {
            return false;
          }
        }
        if o.visible != "" {
          done := Send(TextChunk(o.visible));
          return;
        }
        return true;
      }
      done := Send(TextChunk(text));
    }

    method ProcessTool(tc: CallDelta) returns (done: bool)
      modifies this
      ensures ToolDelta(old(Now()), tc) == if done then Go(Now()) else Halt(Now())
    {
      var cur := EMPTY_CALL;
      if tc.index in acc {
        cur := acc[tc.index];
      } else {
        order := order + [tc.index];
      }
      if tc.id != "" {
        cur := cur.(id := tc.id);
      }
      if tc.name != "" {
        cur := cur.(name := tc.name);
      }
      cur := cur.(arguments := cur.arguments + tc.arguments);
      acc := acc[tc.index := cur];
      if tc.index !in started && cur.name != "" {
        started := started + {tc.index};
        done := Send(StartChunk(Some(ToolCall(cur.id, "", cur.name, ""))));
        return;
      }
      return true;
    }

    method ProcessTools(tcs: seq<CallDelta>) returns (done: bool)
      modifies this
      ensures Tools(old(Now()), tcs) == if done then Go(Now()) else Halt(Now())
    {
      for k := 0 to |tcs|
        invariant Tools(old(Now()), tcs[..k]) == Go(Now())
      {
        assert tcs[..k + 1][..k] == tcs[..k];
        done := ProcessTool(tcs[k]);
        if !done {
          HaltStays(old(Now()), tcs, k + 1);
          return false;
        }
      }
      assert tcs[..|tcs|] == tcs;
      return true;
    }

    method FinishCalls() returns (done: bool)
      modifies this
      ensures FinalCalls(old(Now()), old(order)) == if done then Go(Now()) else Halt(Now())
    {
      var todo := order;
      for k := 0 to |todo|
        invariant FinalCalls(old(Now()), todo[..k]) == Go(Now())
      {
        assert todo[..k + 1][..k] == todo[..k];
        var idx := todo[k];
        if idx in acc {
          var tc := acc[idx];
          if tc.id == "" {
            tc := tc.(id := SynthId(idx));
          }
          acc := acc[idx := tc];
          done := Send(CallChunk(Some(tc)));
          if !done {
            FinalHaltStays(old(Now()), todo, k + 1);
            return false;
          }
        }
      }
      assert todo[..|todo|] == todo;
      return true;
    }

    method ProcessDelta(delta: Delta) returns (done: bool)
      modifies this
      ensures DeltaStep(old(Now()), delta) == if done then Go(Now()) else Halt(Now())
    {
      var reasoningDelta := delta.reasoningContent;
      if reasoningDelta == "" {
        reasoningDelta := delta.reasoning;
      }
      if reasoningDelta != "" {
        done := Send(ReasoningChunk(reasoningDelta));
        if !done {
          return false;
        }
      }
      done := ProcessContent(delta.content);
      if !done {
        return false;
      }
      done := ProcessTools(delta.calls);
    }

    method ProcessFinish() returns (stop: bool, err: Option<Failure>)
      modifies this
      ensures Finish(old(Now())) == Result(Now(), stop, err)
    {
      var o := Think.Flushed(think);
      think := o.next;
      var done := true;
      if o.thought != "" {
        done := Send(ReasoningChunk(o.thought));
        if !done {
          return false, Some(CANCELLED);
        }
      }
      done := FinishCalls();
      if !done {
        return false, Some(CANCELLED);
      }
      var _ := Send(DoneChunk);
      return true, None;
    }

    method ProcessSseData(ev: Event) returns (stop: bool, err: Option<Failure>)
      modifies this
      ensures Process(old(Now()), ev) == Result(Now(), stop, err)
    {
      if ev.Garbage? {
        return false, None;
      }
      if ev.error.Some? {
        var _ := Send(ErrorChunk(Some(Failure(ev.error.value, emitted))));
        return false, Some(Failure("API stream error: " + ev.error.value, false));
      }
      if ev.usage.Some? {
        var _ := Send(UsageChunk(ev.usage.value));
        if ev.warn.Some? {
          Offer(WarnChunk(ev.warn.value));
        }
      }
      if ev.choice.None? {
        return false, None;
      }
      var done := ProcessDelta(ev.choice.value.delta);
      if !done {
        return false, Some(CANCELLED);
      }
      if ev.choice.value.finish.Some? && ev.choice.value.finish.value != "" {
        stop, err := ProcessFinish();
        return;
      }
      return false, None;
    }
  }

  lemma {:induction false} HaltStays(r: Read, ds: seq<CallDelta>, k: nat)
    requires k <= |ds| && Tools(r, ds[..k]).Halt?
    ensures Tools(r, ds) == Tools(r, ds[..k])
    decreases |ds| - k
  {
    if k < |ds| {
      assert ds[..k + 1][..k] == ds[..k];
      HaltStays(r, ds, k + 1);
    } else {
      assert ds[..k] == ds;
    }
  }

  lemma {:induction false} FinalHaltStays(r: Read, ids: seq<int>, k: nat)
    requires k <= |ids| && FinalCalls(r, ids[..k]).Halt?
    ensures FinalCalls(r, ids) == FinalCalls(r, ids[..k])
    decreases |ids| - k
  {
    if k < |ids| {
      assert ids[..k + 1][..k] == ids[..k];
      FinalHaltStays(r, ids, k + 1);
    } else {
      assert ids[..k] == ids;
    }
  }
}
